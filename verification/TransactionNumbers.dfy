/** Sequence numbers and the table of transactions put together: every GTP-C request takes the
    allocator's next number, and registers under it later. */
module TransactionNumbers {
  import opened Wrappers
  import S = SequenceNumbers
  import T = GTPTransactions

  /** The allocator, the table, and at which place of the allocation each transaction stands. */
  datatype World = World(numbers: S.World, table: T.World, drawn: map<T.TxID, nat>)

  /** A caller loads and swaps until it has a number; the rest is the table's business. */
  datatype Step =
    | Load(tx: T.TxID)
    | Swap(tx: T.TxID, expected: nat)
    | Table(step: T.Step)

  function Begin(start: S.Word): World {
    World(S.World(start, map[], []), T.Start, map[])
  }

  function Do(w: World, step: Step): World {
    match step
    case Load(t) => if t in w.table.txs then w else w.(numbers := S.Do(w.numbers, S.Load(t)))
    case Swap(t, expected) =>
      if t in w.table.txs then w
      else
        var numbers := S.Do(w.numbers, S.Swap(t));
        var n := |w.numbers.handed|;
        if |numbers.handed| == n then w.(numbers := numbers)
        else World(numbers, T.Do(w.table, T.Begin(t, numbers.handed[n], expected)), w.drawn[t := n])
    case Table(step) => if step.Begin? then w else w.(table := T.Do(w.table, step))
  }

  function Run(w: World, steps: seq<Step>): World
    decreases |steps|
  {
    if steps == [] then w else Run(Do(w, steps[0]), steps[1..])
  }

  /** Every transaction has the number of its place, and no two stand at the same place. */
  predicate Numbered(w: World) {
    && S.Chained(w.numbers) && T.Consistent(w.table) && w.drawn.Keys == w.table.txs.Keys
    && (forall t :: t in w.drawn ==> w.drawn[t] < |w.numbers.handed| && w.table.txs[t].sequence == w.numbers.handed[w.drawn[t]])
    && (forall t, u :: t in w.drawn && u in w.drawn && t != u ==> w.drawn[t] != w.drawn[u])
  }

  lemma TableKeepsTransactions(w: T.World, step: T.Step)
    requires !step.Begin?
    ensures T.Do(w, step).txs.Keys == w.txs.Keys
    ensures forall t :: t in w.txs ==> T.Do(w, step).txs[t].sequence == w.txs[t].sequence
  {
  }

  lemma NumbersGrow(w: S.World, step: S.Step)
    requires S.Chained(w)
    ensures S.Chained(S.Do(w, step)) && w.handed <= S.Do(w, step).handed && |S.Do(w, step).handed| <= |w.handed| + 1
  {
  }

  lemma DoKeepsNumbered(w: World, step: Step)
    requires Numbered(w)
    ensures Numbered(Do(w, step))
  {
    hide T.Consistent, S.Chained, S.Do;
    match step
    case Load(t) => NumbersGrow(w.numbers, S.Load(t));
    case Swap(t, expected) =>
      NumbersGrow(w.numbers, S.Swap(t));
      var numbers := S.Do(w.numbers, S.Swap(t));
      if |numbers.handed| > |w.numbers.handed| {
        T.DoKeepsConsistent(w.table, T.Begin(t, numbers.handed[|w.numbers.handed|], expected));
      }
    case Table(step) =>
      if !step.Begin? {
        TableKeepsTransactions(w.table, step);
        T.DoKeepsConsistent(w.table, step);
      }
  }

  predicate InFlight(w: World, t: T.TxID) {
    t in w.table.txs && t in w.drawn && (w.table.txs[t].phase.Fresh? || T.Registered(w.table.txs[t].phase))
  }

  /** Another registered transaction stands a multiple of MAX places away. */
  predicate Laps(w: World, t: T.TxID, u: T.TxID) {
    && t in w.drawn && InFlight(w, u) && u != t && T.Registered(w.table.txs[u].phase)
    && (w.drawn[t] - w.drawn[u]) % S.MAX == 0
  }

  /** Registration is refused as a duplicate exactly when a registered transaction has been
      lapped: its number was handed out again meanwhile. */
  lemma CollidesIff(w: World, t: T.TxID)
    requires Numbered(w) && t in w.table.txs && w.table.txs[t].phase.Fresh?
    ensures T.Registration(w.table, w.table.txs[t]) == Some(T.DuplicateSequence) <==>
            !w.table.closed && exists u :: Laps(w, t, u)
  {
    hide S.Chained;
    var tx := w.table.txs[t];
    if tx.sequence in w.table.pending && !w.table.closed {
      var u := w.table.pending[tx.sequence];
      SameNumberIff(w, t, u);
      assert Laps(w, t, u);
    }
    if !w.table.closed {
      forall u | Laps(w, t, u) ensures tx.sequence in w.table.pending {
        SameNumberIff(w, t, u);
        assert T.TxConsistent(w.table, u, w.table.txs[u]);
      }
    }
  }

  lemma SameNumberIff(w: World, t: T.TxID, u: T.TxID)
    requires Numbered(w) && t in w.drawn && u in w.drawn
    ensures w.table.txs[t].sequence == w.table.txs[u].sequence <==> (w.drawn[t] - w.drawn[u]) % S.MAX == 0
  {
    hide S.Chained, T.Consistent;
    var i, j := w.drawn[t], w.drawn[u];
    if i <= j {
      S.ChainRepeatsExactly(w.numbers, i, j);
      Mirrored(j - i);
    } else {
      S.ChainRepeatsExactly(w.numbers, j, i);
    }
  }

  lemma Mirrored(d: int)
    ensures (-d) % (S.MAX as int) == 0 <==> d % (S.MAX as int) == 0
  {
    var m: int := S.MAX;
    var q, q' := d / m, (-d) / m;
    if d % m == 0 {
      assert -d == (-q) * m;
    }
    if (-d) % m == 0 {
      assert d == (-q') * m;
    }
  }

  /** Every transaction in flight has seen fewer than MAX further numbers handed out. */
  predicate Brief(w: World) {
    forall t :: t in w.drawn && InFlight(w, t) ==> |w.numbers.handed| - w.drawn[t] <= S.MAX
  }

  predicate AlwaysBrief(w: World, steps: seq<Step>)
    decreases |steps|
  {
    Brief(w) && (steps == [] || AlwaysBrief(Do(w, steps[0]), steps[1..]))
  }

  lemma BriefNeverCollides(w: World, t: T.TxID)
    requires Numbered(w) && Brief(w) && t in w.table.txs && w.table.txs[t].phase.Fresh?
    ensures T.Registration(w.table, w.table.txs[t]) != Some(T.DuplicateSequence)
  {
    hide S.Chained, T.Consistent;
    CollidesIff(w, t);
    if u :| Laps(w, t, u) {
      assert InFlight(w, t);
      Close(w.drawn[t] - w.drawn[u]);
    }
  }

  lemma Close(d: int)
    requires d % S.MAX == 0 && -(S.MAX as int) < d < S.MAX
    ensures d == 0
  {
  }

  /** Nobody was told, or is about to be told, that its number is in use. */
  predicate NoDuplicates(w: T.World) {
    forall t :: t in w.txs ==> w.txs[t].err != Some(T.DuplicateSequence) && NoDuplicate(w.txs[t].phase)
  }

  predicate NoDuplicate(p: T.Phase) {
    p.Leaving? || p.Returned? ==> p.outcome != Err(T.DuplicateSequence)
  }

  lemma TableKeepsNoDuplicates(w: T.World, step: T.Step, t: T.TxID)
    requires NoDuplicates(w) && t in w.txs
    requires step.Register? && step.tx in w.txs && w.txs[step.tx].phase.Fresh? ==>
               T.Registration(w, w.txs[step.tx]) != Some(T.DuplicateSequence)
    ensures var tx := T.Do(w, step).txs[t];
            tx.err != Some(T.DuplicateSequence) && NoDuplicate(tx.phase)
  {
  }

  lemma DoKeepsNoDuplicates(w: World, step: Step)
    requires Numbered(w) && Brief(w) && NoDuplicates(w.table)
    ensures NoDuplicates(Do(w, step).table)
  {
    hide S.Chained, S.Do, T.Consistent, Brief, T.Do;
    if step.Table? && !step.step.Begin? {
      TableKeepsTransactions(w.table, step.step);
      if step.step.Register? && step.step.tx in w.table.txs && w.table.txs[step.step.tx].phase.Fresh? {
        BriefNeverCollides(w, step.step.tx);
      }
      forall t | t in w.table.txs
        ensures var tx := T.Do(w.table, step.step).txs[t]; tx.err != Some(T.DuplicateSequence) && NoDuplicate(tx.phase)
      {
        TableKeepsNoDuplicates(w.table, step.step, t);
      }
    } else if step.Swap? {
      var numbers := S.Do(w.numbers, S.Swap(step.tx));
      if |numbers.handed| > |w.numbers.handed| {
        BegunAfresh(w.table, step.tx, numbers.handed[|w.numbers.handed|], step.expected);
      } else {
        NumbersGrow(w.numbers, S.Swap(step.tx));
      }
    }
  }

  lemma BegunAfresh(w: T.World, t: T.TxID, n: nat, expected: nat)
    requires NoDuplicates(w)
    ensures NoDuplicates(T.Do(w, T.Begin(t, n, expected)))
  {
  }

  lemma {:induction false} RunNeverCollides(w: World, steps: seq<Step>)
    requires Numbered(w) && NoDuplicates(w.table) && AlwaysBrief(w, steps)
    ensures Numbered(Run(w, steps)) && NoDuplicates(Run(w, steps).table) && Brief(Run(w, steps))
    decreases |steps|
  {
    hide Numbered, NoDuplicates, Brief, Do;
    if steps != [] {
      DoKeepsNumbered(w, steps[0]);
      DoKeepsNoDuplicates(w, steps[0]);
      RunNeverCollides(Do(w, steps[0]), steps[1..]);
    }
  }

  /** Under any interleaving of callers, reader, timeouts and Close: as long as every request in
      flight sees fewer than MAX further numbers handed out, no caller ever gets a number that
      is still in use. */
  lemma NoCallerCollides(start: S.Word, steps: seq<Step>, t: T.TxID)
    requires AlwaysBrief(Begin(start), steps) && t in Run(Begin(start), steps).table.txs
    ensures var tx := Run(Begin(start), steps).table.txs[t];
            && tx.phase != T.Returned(Err(T.DuplicateSequence))
            && (tx.phase.Fresh? ==> T.Registration(Run(Begin(start), steps).table, tx) != Some(T.DuplicateSequence))
  {
    RunNeverCollides(Begin(start), steps);
    var w := Run(Begin(start), steps);
    if w.table.txs[t].phase.Fresh? {
      BriefNeverCollides(w, t);
    }
  }
}
