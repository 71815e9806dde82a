/** The allocator of GTP-C sequence numbers: callers load a shared word, compute the successor
    and try to swap it in, and start over when somebody else was faster. */
module SequenceNumbers {

  const MAX: nat := 0x7fffff
  const MIN: nat := 1

  /** The shared word has 32 bits. */
  type Word = n: nat | n < 0x1_0000_0000

  function Successor(cur: Word): (next: Word)
    ensures MIN <= next <= MAX
  {
    var next := (cur + 1) % 0x1_0000_0000;
    if next == 0 || next > MAX then MIN else next
  }

  /** The word, what each caller has loaded, and the numbers handed out so far. */
  datatype World = World(word: Word, loaded: map<nat, Word>, handed: seq<Word>)

  datatype Step = Load(caller: nat) | Swap(caller: nat)

  function Do(w: World, step: Step): World {
    match step
    case Load(c) => w.(loaded := w.loaded[c := w.word])
    case Swap(c) =>
      if c !in w.loaded then w
      else if w.loaded[c] != w.word then w.(loaded := w.loaded - {c})
      else World(Successor(w.word), w.loaded - {c}, w.handed + [Successor(w.word)])
  }

  function Run(w: World, steps: seq<Step>): World
    decreases |steps|
  {
    if steps == [] then w else Run(Do(w, steps[0]), steps[1..])
  }

  /** Each number is the successor of the one before, whoever asked for it. */
  predicate Chained(w: World) {
    && (w.handed != [] ==> w.word == w.handed[|w.handed| - 1])
    && (forall i :: 0 <= i < |w.handed| ==> MIN <= w.handed[i] <= MAX)
    && forall i :: 0 < i < |w.handed| ==> w.handed[i] == Successor(w.handed[i - 1])
  }

  lemma {:induction false} RunKeepsChained(w: World, steps: seq<Step>)
    requires Chained(w)
    ensures Chained(Run(w, steps))
    decreases |steps|
  {
    if steps != [] {
      RunKeepsChained(Do(w, steps[0]), steps[1..]);
    }
  }

  /** Position k after a start, on a circle of MAX numbers. */
  lemma {:induction false} ChainPosition(handed: seq<Word>, i: nat, j: nat)
    requires i <= j < |handed| && MIN <= handed[i] <= MAX
    requires forall k :: 0 < k < |handed| ==> handed[k] == Successor(handed[k - 1])
    ensures handed[j] == (handed[i] - 1 + (j - i)) % MAX + 1
  {
    hide Successor;
    if i < j {
      ChainPosition(handed, i, j - 1);
      var x: nat := handed[i] - 1 + (j - 1 - i);
      StepOnCircle(x);
      assert handed[j] == Successor(handed[j - 1]) && x + 1 == handed[i] - 1 + (j - i);
    } else {
      Multiple(0, handed[i] - 1);
    }
  }

  lemma StepOnCircle(x: nat)
    ensures Successor(x % MAX + 1) == (x + 1) % MAX + 1
  {
    var q := x / MAX;
    assert x == q * MAX + x % MAX;
    if x % MAX == MAX - 1 {
      assert x + 1 == (q + 1) * MAX;
      assert (x + 1) % MAX == 0 by { Multiple(q + 1, 0); }
    } else {
      assert (x + 1) % MAX == x % MAX + 1 by { Multiple(q, x % MAX + 1); }
    }
  }

  lemma Multiple(q: nat, r: nat)
    requires r < MAX
    ensures (q * MAX + r) % MAX == r
  {
  }

  /** Two numbers are equal exactly when a multiple of MAX allocations lies between them. */
  lemma ChainRepeatsExactly(w: World, i: nat, j: nat)
    requires Chained(w) && i <= j < |w.handed|
    ensures MIN <= w.handed[i] <= MAX && (w.handed[i] == w.handed[j] <==> (j - i) % MAX == 0)
    ensures 0 < j - i < MAX ==> w.handed[i] != w.handed[j]
  {
    ChainPosition(w.handed, i, j);
    Circle(w.handed[i] - 1, j - i);
  }

  /** The same under any interleaving of callers; so MAX consecutive numbers are pairwise
      distinct. */
  lemma NumbersRepeatExactly(start: Word, steps: seq<Step>, i: nat, j: nat)
    requires var handed := Run(World(start, map[], []), steps).handed; i <= j < |handed|
    ensures var handed := Run(World(start, map[], []), steps).handed;
            && MIN <= handed[i] <= MAX
            && (handed[i] == handed[j] <==> (j - i) % MAX == 0)
            && (0 < j - i < MAX ==> handed[i] != handed[j])
  {
    RunKeepsChained(World(start, map[], []), steps);
    ChainRepeatsExactly(Run(World(start, map[], []), steps), i, j);
  }

  lemma Circle(a: nat, d: nat)
    requires a < MAX
    ensures (a + d) % MAX == a <==> d % MAX == 0
  {
    var q, r := d / MAX, d % MAX;
    assert a + d == q * MAX + (a + r);
    if a + r < MAX {
      Multiple(q, a + r);
    } else {
      Multiple(q + 1, a + r - MAX);
      assert a + d == (q + 1) * MAX + (a + r - MAX);
    }
  }

  /** The shared word, with the numbers handed out so far. Other callers may draw numbers at
      any time; rivals bounds how many they still draw. */
  class Allocator {
    var word: Word
    ghost var handed: seq<Word>
    var rivals: nat

    ghost predicate Valid()
      reads this
    {
      Chained(World(word, map[], handed))
    }

    constructor (start: Word, rivals: nat)
      ensures Valid() && word == start && handed == [] && this.rivals == rivals
    {
      word := start;
      handed := [];
      this.rivals := rivals;
    }

    method CompareAndSwap(cur: Word, next: Word) returns (swapped: bool)
      requires Valid() && next == Successor(cur)
      modifies this
      ensures Valid() && rivals == old(rivals) && (swapped <==> old(word) == cur)
      ensures if swapped then word == next && handed == old(handed) + [next] else word == old(word) && handed == old(handed)
    {
      swapped := word == cur;
      if swapped {
        word := next;
        handed := handed + [next];
      }
    }

    /** The other callers get their turn. */
    method Others()
      requires Valid()
      modifies this
      ensures Valid() && old(handed) <= handed && rivals + |handed| == old(rivals) + |old(handed)|
      ensures handed == old(handed) ==> word == old(word)
    {
      var turns: nat := *;
      while turns > 0 && rivals > 0
        invariant Valid() && old(handed) <= handed && rivals + |handed| == old(rivals) + |old(handed)|
        invariant handed == old(handed) ==> word == old(word)
      {
        word := Successor(word);
        handed := handed + [word];
        rivals, turns := rivals - 1, turns - 1;
      }
    }

    /** The loop hands out the successor of whatever the last number was, and gives up only
        attempts that another caller overtook; without others the first attempt succeeds. */
    method Next() returns (next: Word)
      requires Valid()
      modifies this
      ensures Valid() && old(handed) < handed && next == word == handed[|handed| - 1]
      ensures next == if |handed| == 1 then Successor(old(word)) else Successor(handed[|handed| - 2])
      ensures rivals + |handed| == old(rivals) + |old(handed)| + 1
      ensures old(rivals) == 0 ==> handed == old(handed) + [next] && next == Successor(old(word))
    {
      var swapped := false;
      next := word;
      while !swapped
        invariant Valid() && old(handed) <= handed
        invariant rivals + |handed| == old(rivals) + |old(handed)| + if swapped then 1 else 0
        invariant handed == old(handed) ==> word == old(word)
        invariant swapped ==> |handed| > |old(handed)| && next == word == handed[|handed| - 1]
        invariant swapped && |handed| == 1 ==> next == Successor(old(word))
        invariant swapped && old(rivals) == 0 ==> handed == old(handed) + [next] && next == Successor(old(word))
        decreases rivals, !swapped
      {
        var cur := word;
        next := Successor(cur);
        Others();
        swapped := CompareAndSwap(cur, next);
      }
    }
  }
}
