/** The limiter in front of recovery attaches: per subscriber at most one at a time, a pause
    after each, and a bound per minute. The records compact their attempt lists in place. */
module RecoveryLimiter {
  import opened Sessions

  /** A reading of the clock, in nanoseconds; it is never the zero time. */
  type Clock = n: nat | 0 < n witness 1

  const MINUTE: nat := 60_000_000_000

  datatype Phase = Fresh | InFlight | Cooldown

  datatype Limits = Limits(enabled: bool, cooldown: nat, maxPerMinute: int)

  datatype Key = Key(mac: string, imsi: string, apn: string)

  /** What is kept per subscriber. A lastAt of zero says that there was no attempt yet. */
  datatype Rec = Rec(phase: Phase, lastAt: Time, attempts: seq<Clock>)

  const NoRec: Rec := Rec(Fresh, 0, [])

  function RecoveryKey(mac: string, imsi: string, apn: string): Key {
    Key(mac, imsi, Lower(apn))
  }

  /** The attempts of the last minute, the oldest instant of which is excluded. */
  function Recent(attempts: seq<Clock>, now: int): seq<Clock> {
    if attempts == [] then []
    else
      var rest := Recent(attempts[..|attempts| - 1], now);
      var at := attempts[|attempts| - 1];
      if at > now - MINUTE then rest + [at] else rest
  }

  /** Neither in flight nor cooling down. A refusal for the rate compacts, these do not. */
  predicate MayTry(limits: Limits, rec: Rec, now: Clock) {
    rec.phase != InFlight && (rec.lastAt == 0 || now - rec.lastAt >= limits.cooldown)
  }

  predicate Accepts(limits: Limits, rec: Rec, now: Clock) {
    MayTry(limits, rec, now) && |Recent(rec.attempts, now)| < limits.maxPerMinute
  }

  function Begun(limits: Limits, rec: Rec, now: Clock): Rec {
    if !MayTry(limits, rec, now) then rec
    else if Accepts(limits, rec, now) then Rec(InFlight, now, Recent(rec.attempts, now) + [now])
    else rec.(attempts := Recent(rec.attempts, now))
  }

  function Finished(rec: Rec, now: Clock): Rec {
    rec.(phase := Cooldown, lastAt := now)
  }

  function At(table: map<Key, Rec>, key: Key): Rec {
    if key in table then table[key] else NoRec
  }

  /** One subscriber's record. The attempts are the first count slots of a backing array. */
  class Record {
    ghost const key: Key
    var phase: Phase
    var lastAt: Time
    var slots: array<Clock>
    var count: nat

    constructor (ghost key: Key)
      ensures Valid() && View() == NoRec && this.key == key && fresh(slots)
    {
      this.key := key;
      phase, lastAt, count := Fresh, 0, 0;
      slots := new Clock[0];
    }

    ghost predicate Valid()
      reads this
    {
      count <= slots.Length
    }

    ghost function View(): Rec
      requires Valid()
      reads this, slots
    {
      Rec(phase, lastAt, slots[..count])
    }

    /** Moves the attempts that still count to the front of the same backing array. */
    method Compact(now: Clock)
      requires Valid()
      modifies this`count, slots
      ensures Valid() && count <= old(count)
      ensures View() == old(View()).(attempts := Recent(old(View()).attempts, now))
      ensures forall j :: old(count) <= j < slots.Length ==> slots[j] == old(slots[j])
    {
      ghost var was := slots[..count];
      var kept := 0;
      for i := 0 to count
        invariant kept <= i <= count == |was| <= slots.Length
        invariant slots[..kept] == Recent(was[..i], now)
        invariant forall j :: i <= j < slots.Length ==> slots[j] == old(slots[j])
      {
        assert was[..i + 1][..i] == was[..i] && slots[i] == was[i];
        if slots[i] > now - MINUTE {
          slots[kept] := slots[i];
          kept := kept + 1;
        }
      }
      assert was[..count] == was;
      count := kept;
    }

    /** Adds an attempt in the next slot, and in a larger array when all slots are taken. */
    method Append(now: Clock)
      requires Valid()
      modifies this`count, this`slots, slots
      ensures Valid() && View() == old(View()).(attempts := old(View()).attempts + [now])
      ensures slots == old(slots) || fresh(slots)
      ensures old(slots).Length == old(count) ==> fresh(slots) && old(slots)[..] == old(slots[..])
    {
      if count == slots.Length {
        var was := slots;
        var larger := new Clock[2 * count + 1](_ => 1);
        forall i | 0 <= i < count {
          larger[i] := was[i];
        }
        assert larger[..count] == was[..count];
        slots := larger;
      }
      slots[count] := now;
      count := count + 1;
    }

    /** One request for a recovery of this subscriber. */
    method Begin(limits: Limits, now: Clock) returns (ok: bool)
      requires Valid()
      modifies this, slots
      ensures Valid() && (slots == old(slots) || fresh(slots))
      ensures (ok <==> Accepts(limits, old(View()), now)) && View() == Begun(limits, old(View()), now)
    {
      ok := false;
      if phase == InFlight {
        return;
      }
      if lastAt != 0 && now - lastAt < limits.cooldown {
        return;
      }
      Compact(now);
      if count >= limits.maxPerMinute {
        return;
      }
      Append(now);
      phase := InFlight;
      lastAt := now;
      ok := true;
    }
  }

  class Limiter {
    const limits: Limits
    var records: map<Key, Record>

    constructor (limits: Limits)
      ensures Valid() && View() == map[] && this.limits == limits
    {
      this.limits := limits;
      records := map[];
    }

    /** Every subscriber has a record of its own, and every record an array of its own. */
    ghost predicate Valid()
      reads this, records.Values
    {
      && (forall k :: k in records ==> records[k].key == k && records[k].Valid())
      && (forall k, l :: k in records && l in records && k != l ==> records[k].slots != records[l].slots)
    }

    ghost function Slots(): set<array<Clock>>
      reads this, records.Values
    {
      set k | k in records :: records[k].slots
    }

    ghost function View(): map<Key, Rec>
      requires Valid()
      reads this, records.Values, Slots()
    {
      map k | k in records :: records[k].View()
    }

    /** The record of key, a new one if there is none. */
    method RecordOf(key: Key) returns (rec: Record)
      requires Valid()
      modifies this`records
      ensures Valid() && key in records && records[key] == rec && (rec in old(records.Values) || fresh(rec))
      ensures rec.slots in old(Slots()) || fresh(rec.slots)
      ensures records == old(records)[key := rec] && View() == old(View())[key := At(old(View()), key)]
    {
      if key in records {
        rec := records[key];
      } else {
        rec := new Record(key);
        records := records[key := rec];
      }
    }

    /** A recovery asked of one stored record leaves the others alone. */
    method BeginOf(rec: Record, ghost key: Key, now: Clock) returns (ok: bool)
      requires Valid() && key in records && records[key] == rec
      modifies rec, rec.slots
      ensures Valid() && (rec.slots == old(rec.slots) || fresh(rec.slots))
      ensures (ok <==> Accepts(limits, old(View())[key], now)) && View() == old(View())[key := Begun(limits, old(View())[key], now)]
    {
      hide Begun, Accepts, Record.View;
      assert forall k :: k in records && k != key ==> records[k] != rec && records[k].slots != rec.slots;
      label Before:
      ok := rec.Begin(limits, now);
      forall k | k in records && k != key ensures records[k].Valid() && records[k].View() == old@Before(records[k].View()) {
        assert unchanged@Before(records[k]) && unchanged@Before(records[k].slots);
      }
    }

    /** Asks for a recovery of the subscriber of a cache entry. */
    method BeginRecovery(mac: string, imsi: string, apn: string, now: Clock) returns (ok: bool)
      requires Valid()
      modifies this, records.Values, Slots()
      ensures Valid() && fresh(records.Values - old(records.Values)) && fresh(Slots() - old(Slots()))
      ensures ok <==> limits.enabled && Accepts(limits, At(old(View()), RecoveryKey(mac, imsi, apn)), now)
      ensures View() == if limits.enabled
                        then old(View())[RecoveryKey(mac, imsi, apn) := Begun(limits, At(old(View()), RecoveryKey(mac, imsi, apn)), now)]
                        else old(View())
    {
      hide Begun, Accepts, RecoveryKey, View, Valid;
      if !limits.enabled {
        return false;
      }
      var key := RecoveryKey(mac, imsi, apn);
      var rec := RecordOf(key);
      ok := BeginOf(rec, key, now);
    }

    /** The recovery is over, however it ended. */
    method FinishRecovery(mac: string, imsi: string, apn: string, now: Clock)
      requires Valid()
      modifies records.Values
      ensures Valid()
      ensures var key := RecoveryKey(mac, imsi, apn);
              View() == if key in old(View()) then old(View())[key := Finished(old(View())[key], now)] else old(View())
    {
      hide RecoveryKey;
      var key := RecoveryKey(mac, imsi, apn);
      if key in records {
        records[key].phase := Cooldown;
        records[key].lastAt := now;
      }
    }
  }

  // --- whole runs ---

  datatype Call = BeginCall(key: Key, now: Clock) | FinishCall(key: Key, now: Clock)

  /** A recovery that was let through, or one that ended. */
  datatype Mark = Started(key: Key, at: Clock) | Ended(key: Key, at: Clock)

  datatype World = World(table: map<Key, Rec>, log: seq<Mark>)

  const Nothing: World := World(map[], [])

  function Step(limits: Limits, w: World, c: Call): World {
    match c
    case BeginCall(key, now) =>
      var rec := At(w.table, key);
      World(w.table[key := Begun(limits, rec, now)],
            if Accepts(limits, rec, now) then w.log + [Started(key, now)] else w.log)
    case FinishCall(key, now) =>
      World(if key in w.table then w.table[key := Finished(w.table[key], now)] else w.table,
            w.log + [Ended(key, now)])
  }

  function Play(limits: Limits, w: World, calls: seq<Call>): World
    decreases |calls|
  {
    if calls == [] then w else Play(limits, Step(limits, w, calls[0]), calls[1..])
  }

  /** The clock does not go back, and a recovery that ends had been let through. */
  predicate Orderly(limits: Limits, w: World, calls: seq<Call>, clock: nat)
    decreases |calls|
  {
    calls != [] ==>
      && clock <= calls[0].now
      && (calls[0].FinishCall? ==> At(w.table, calls[0].key).phase == InFlight)
      && Orderly(limits, Step(limits, w, calls[0]), calls[1..], calls[0].now)
  }

  function LastReading(clock: nat, calls: seq<Call>): nat {
    if calls == [] then clock else calls[|calls| - 1].now
  }

  predicate EndedBetween(log: seq<Mark>, i: int, j: int, key: Key) {
    exists m :: 0 <= i < m < j && m < |log| && log[m].Ended? && log[m].key == key
  }

  /** The instants at which a recovery of key was let through. */
  function Starts(log: seq<Mark>, key: Key): seq<Clock> {
    if log == [] then []
    else
      var rest := Starts(log[..|log| - 1], key);
      var last := log[|log| - 1];
      if last.Started? && last.key == key then rest + [last.at] else rest
  }

  /** How many of some instants lie in the minute that ends at t, t included. */
  function InMinute(times: seq<Clock>, t: int): nat {
    if times == [] then 0
    else
      InMinute(times[..|times| - 1], t) + if t - MINUTE < times[|times| - 1] <= t then 1 else 0
  }

  lemma {:induction false} RecentOfRecent(s: seq<Clock>, now: int, later: int)
    requires now <= later
    ensures Recent(Recent(s, now), later) == Recent(s, later)
  {
    if s != [] {
      RecentOfRecent(s[..|s| - 1], now, later);
      var rest := Recent(s[..|s| - 1], now);
      assert (rest + [s[|s| - 1]])[..|rest|] == rest;
    }
  }

  lemma RecentAppend(s: seq<Clock>, at: Clock, now: int)
    ensures Recent(s + [at], now) == Recent(s, now) + if at > now - MINUTE then [at] else []
  {
    assert (s + [at])[..|s|] == s;
  }

  /** The list kept for a subscriber is compacted, but it still gives the right answer to
      every later question. */
  ghost predicate Faithful(kept: seq<Clock>, all: seq<Clock>, clock: nat) {
    forall t :: clock <= t ==> Recent(kept, t) == Recent(all, t)
  }

  /** Times in order, and at each of them the minute that ends there is within the bound. */
  predicate Spaced(times: seq<Clock>, max: int, clock: nat) {
    && (forall i :: 0 <= i < |times| ==> times[i] <= clock)
    && (forall i, j :: 0 <= i < j < |times| ==> times[i] <= times[j])
    && (forall j :: 0 <= j < |times| ==> |Recent(times[..j + 1], times[j])| <= max)
  }

  ghost predicate InOrder(limits: Limits, w: World, clock: nat, key: Key) {
    var rec := At(w.table, key);
    && rec.lastAt <= clock
    && Spaced(Starts(w.log, key), limits.maxPerMinute, clock)
    && Faithful(rec.attempts, Starts(w.log, key), clock)
    && Marked(limits.cooldown, w.log, rec.lastAt, rec.phase == InFlight, key)
  }

  /** Starts of key are a cooldown after everything before them, and each is ended before the
      next; the last one too, unless it is in flight. */
  predicate Marked(cooldown: nat, log: seq<Mark>, lastAt: Time, inFlight: bool, key: Key) {
    && (forall i :: 0 <= i < |log| && log[i].key == key ==> log[i].at <= lastAt)
    && (forall i :: 0 <= i < |log| && log[i].key == key && log[i].Started? && !inFlight ==> EndedBetween(log, i, |log|, key))
    && (forall i, j :: 0 <= i < j < |log| && log[i].key == key && log[j].key == key && log[j].Started? ==>
          && log[j].at >= log[i].at + cooldown
          && (log[i].Started? ==> EndedBetween(log, i, j, key)))
  }

  lemma MarkedAppend(cooldown: nat, log: seq<Mark>, lastAt: Time, inFlight: bool, key: Key, m: Mark)
    requires Marked(cooldown, log, lastAt, inFlight, key)
    requires m.key == key ==> m.at >= lastAt
    requires m.key == key && m.Started? ==> !inFlight && (lastAt == 0 || m.at - lastAt >= cooldown)
    ensures if m.key == key then Marked(cooldown, log + [m], m.at, m.Started?, key)
            else Marked(cooldown, log + [m], lastAt, inFlight, key)
  {
    hide EndedBetween;
    LogAppend(log, m, key);
    var log' := log + [m];
    forall i, j | 0 <= i < j < |log'| && log'[i].key == key && log'[j].key == key && log'[j].Started?
      ensures log'[j].at >= log'[i].at + cooldown && (log'[i].Started? ==> EndedBetween(log', i, j, key))
    {
      if j < |log| {
        assert log'[i] == log[i] && log'[j] == log[j];
      } else {
        assert log'[i] == log[i] && log[i].at <= lastAt;
        assert log[i].Started? ==> EndedBetween(log, i, |log|, key);
      }
    }
  }

  lemma SpacedLater(times: seq<Clock>, max: int, clock: nat, now: nat)
    requires Spaced(times, max, clock) && clock <= now
    ensures Spaced(times, max, now)
  {
  }

  lemma SpacedAppend(times: seq<Clock>, max: int, clock: nat, now: Clock)
    requires Spaced(times, max, clock) && clock <= now && |Recent(times, now)| < max
    ensures Spaced(times + [now], max, now)
  {
    hide Recent;
    RecentAppend(times, now, now);
    forall j | 0 <= j < |times + [now]| ensures |Recent((times + [now])[..j + 1], (times + [now])[j])| <= max {
      if j < |times| {
        assert (times + [now])[..j + 1] == times[..j + 1];
      } else {
        assert (times + [now])[..j + 1] == times + [now];
      }
    }
  }

  lemma FaithfulStep(kept: seq<Clock>, all: seq<Clock>, clock: nat, now: Clock)
    requires Faithful(kept, all, clock) && clock <= now
    ensures Faithful(kept, all, now) && Faithful(Recent(kept, now), all, now)
    ensures Faithful(Recent(kept, now) + [now], all + [now], now)
    ensures |Recent(kept, now)| == |Recent(all, now)|
  {
    forall t: nat | now <= t
      ensures Recent(Recent(kept, now), t) == Recent(all, t)
      ensures Recent(Recent(kept, now) + [now], t) == Recent(all + [now], t)
    {
      RecentOfRecent(kept, now, t);
      RecentAppend(Recent(kept, now), now, t);
      RecentAppend(all, now, t);
    }
  }

  lemma LogAppend(log: seq<Mark>, m: Mark, key: Key)
    ensures Starts(log + [m], key) == if m.Started? && m.key == key then Starts(log, key) + [m.at] else Starts(log, key)
    ensures forall i, j :: EndedBetween(log, i, j, key) ==> EndedBetween(log + [m], i, j, key)
    ensures forall i :: EndedBetween(log, i, |log|, key) ==> EndedBetween(log + [m], i, |log| + 1, key)
    ensures m == Ended(key, m.at) ==>
              forall i :: 0 <= i < |log| && log[i].key == key ==> EndedBetween(log + [m], i, |log| + 1, key)
  {
    assert (log + [m])[..|log|] == log;
    forall i, j | EndedBetween(log, i, j, key) ensures EndedBetween(log + [m], i, j, key) {
      var e :| 0 <= i < e < j && e < |log| && log[e].Ended? && log[e].key == key;
      assert (log + [m])[e] == log[e];
    }
    forall i | EndedBetween(log, i, |log|, key) ensures EndedBetween(log + [m], i, |log| + 1, key) {
      var e :| 0 <= i < e < |log| && log[e].Ended? && log[e].key == key;
      assert (log + [m])[e] == log[e];
    }
    if m == Ended(key, m.at) {
      forall i | 0 <= i < |log| && log[i].key == key ensures EndedBetween(log + [m], i, |log| + 1, key) {
        assert (log + [m])[|log|] == m;
      }
    }
  }

  lemma StepInOrder(limits: Limits, w: World, clock: nat, c: Call, key: Key)
    requires InOrder(limits, w, clock, key) && clock <= c.now
    requires c.FinishCall? ==> At(w.table, c.key).phase == InFlight
    ensures InOrder(limits, Step(limits, w, c), c.now, key)
  {
    hide Recent, Starts, Marked, Spaced, Faithful;
    var rec := At(w.table, key);
    var times := Starts(w.log, key);
    SpacedLater(times, limits.maxPerMinute, clock, c.now);
    FaithfulStep(rec.attempts, times, clock, c.now);
    var m := if c.BeginCall? then Started(c.key, c.now) else Ended(c.key, c.now);
    if Step(limits, w, c).log != w.log {
      LogAppend(w.log, m, key);
      MarkedAppend(limits.cooldown, w.log, rec.lastAt, rec.phase == InFlight, key, m);
    }
    if c.BeginCall? && c.key == key && Accepts(limits, rec, c.now) {
      SpacedAppend(times, limits.maxPerMinute, clock, c.now);
    }
  }

  lemma {:induction false} PlayInOrder(limits: Limits, w: World, clock: nat, calls: seq<Call>, key: Key)
    requires InOrder(limits, w, clock, key) && Orderly(limits, w, calls, clock)
    ensures InOrder(limits, Play(limits, w, calls), LastReading(clock, calls), key)
    decreases |calls|
  {
    hide InOrder, Step;
    if calls != [] {
      StepInOrder(limits, w, clock, calls[0], key);
      PlayInOrder(limits, Step(limits, w, calls[0]), calls[0].now, calls[1..], key);
    }
  }

  lemma SpacedPrefix(times: seq<Clock>, n: nat, max: int, clock: nat)
    requires n <= |times| && Spaced(times, max, clock)
    ensures Spaced(times[..n], max, clock)
  {
    hide Recent;
    forall j | 0 <= j < n ensures |Recent(times[..n][..j + 1], times[..n][j])| <= max {
      assert times[..n][..j + 1] == times[..j + 1];
    }
  }

  lemma {:induction false} MinuteBound(times: seq<Clock>, max: int, clock: nat, t: int)
    requires Spaced(times, max, clock)
    ensures InMinute(times, t) <= if max < 0 then 0 else max
  {
    hide Recent;
    if times != [] {
      var n := |times| - 1;
      if times[n] > t {
        SpacedPrefix(times, n, max, clock);
        MinuteBound(times[..n], max, clock, t);
      } else {
        assert times[..n + 1] == times;
        MinuteWithinRecent(times, times[n], t);
      }
    }
  }

  lemma {:induction false} MinuteWithinRecent(times: seq<Clock>, now: int, t: int)
    requires now <= t
    ensures InMinute(times, t) <= |Recent(times, now)|
  {
    if times != [] {
      MinuteWithinRecent(times[..|times| - 1], now, t);
    }
  }

  lemma StartInOrder(limits: Limits, key: Key)
    ensures InOrder(limits, Nothing, 0, key)
  {
  }

  /** Over every orderly run: one recovery per subscriber at a time, each starts at least the
      cooldown after anything that happened for the subscriber before, and no minute sees
      more than the bound. */
  lemma LimiterIsSafe(limits: Limits, calls: seq<Call>, key: Key)
    requires Orderly(limits, Nothing, calls, 0)
    ensures var log := Play(limits, Nothing, calls).log;
            && (forall i, j :: 0 <= i < j < |log| && log[i].key == key && log[j].key == key && log[j].Started? ==>
                  && log[j].at >= log[i].at + limits.cooldown
                  && (log[i].Started? ==> EndedBetween(log, i, j, key)))
            && (forall t :: InMinute(Starts(log, key), t) <= if limits.maxPerMinute < 0 then 0 else limits.maxPerMinute)
  {
    hide Spaced, InMinute, Recent, Faithful;
    var w := Play(limits, Nothing, calls);
    StartInOrder(limits, key);
    PlayInOrder(limits, Nothing, 0, calls, key);
    forall t ensures InMinute(Starts(w.log, key), t) <= if limits.maxPerMinute < 0 then 0 else limits.maxPerMinute {
      MinuteBound(Starts(w.log, key), limits.maxPerMinute, LastReading(0, calls), t);
    }
  }

  // --- and it refuses no more than that ---

  /** The record of a subscriber says of its marks what is needed: the last instant, and whether
      a recovery is still going on. */
  ghost predicate Recalls(rec: Rec, log: seq<Mark>, key: Key) {
    && (rec.lastAt == 0 <==> forall i :: 0 <= i < |log| ==> log[i].key != key)
    && (rec.lastAt != 0 ==> exists i :: 0 <= i < |log| && log[i].key == key && log[i].at == rec.lastAt)
    && (rec.phase == InFlight <==> Ongoing(log, key))
  }

  /** A recovery of key was let through and has not ended. */
  predicate Ongoing(log: seq<Mark>, key: Key) {
    exists i :: 0 <= i < |log| && log[i] == Started(key, log[i].at) && !EndedBetween(log, i, |log|, key)
  }

  lemma OngoingAppend(log: seq<Mark>, m: Mark, key: Key)
    ensures Ongoing(log + [m], key) <==> m == Started(key, m.at) || (m != Ended(key, m.at) && Ongoing(log, key))
  {
    var log' := log + [m];
    LogAppend(log, m, key);
    if m == Started(key, m.at) {
      assert log'[|log|] == m && !EndedBetween(log', |log|, |log'|, key);
    }
    if Ongoing(log, key) && m != Ended(key, m.at) {
      var i :| 0 <= i < |log| && log[i] == Started(key, log[i].at) && !EndedBetween(log, i, |log|, key);
      assert log'[i] == log[i];
      EndedNoLater(log, m, i, key);
    }
    if Ongoing(log', key) && m != Started(key, m.at) {
      var i :| 0 <= i < |log'| && log'[i] == Started(key, log'[i].at) && !EndedBetween(log', i, |log'|, key);
      assert i < |log| && log[i] == log'[i];
      assert !EndedBetween(log, i, |log|, key);
    }
  }

  lemma EndedNoLater(log: seq<Mark>, m: Mark, i: int, key: Key)
    requires m != Ended(key, m.at)
    ensures EndedBetween(log + [m], i, |log| + 1, key) ==> EndedBetween(log, i, |log|, key)
  {
    if EndedBetween(log + [m], i, |log| + 1, key) {
      var e :| 0 <= i < e < |log| + 1 && (log + [m])[e].Ended? && (log + [m])[e].key == key;
      assert e < |log| && log[e] == (log + [m])[e];
    }
  }

  lemma RecallsAppend(rec: Rec, log: seq<Mark>, key: Key, m: Mark, attempts: seq<Clock>)
    requires Recalls(rec, log, key)
    ensures m.key != key ==> Recalls(rec, log + [m], key)
    ensures m.key == key ==>
              Recalls(Rec(if m.Started? then InFlight else Cooldown, m.at, attempts), log + [m], key)
  {
    var log' := log + [m];
    OngoingAppend(log, m, key);
    if m.key != key {
      if rec.lastAt != 0 {
        var i :| 0 <= i < |log| && log[i].key == key && log[i].at == rec.lastAt;
        assert log'[i].key == key && log'[i].at == rec.lastAt;
      }
      assert forall i :: 0 <= i < |log| ==> log'[i] == log[i];
    } else {
      assert log'[|log|] == m;
    }
  }

  lemma StepRecalls(limits: Limits, w: World, c: Call, key: Key)
    requires Recalls(At(w.table, key), w.log, key)
    requires c.FinishCall? ==> At(w.table, c.key).phase == InFlight
    ensures Recalls(At(Step(limits, w, c).table, key), Step(limits, w, c).log, key)
  {
    hide Recalls, Recent;
    var rec := At(w.table, key);
    var m := if c.BeginCall? then Started(c.key, c.now) else Ended(c.key, c.now);
    RecallsAppend(rec, w.log, key, m, At(Step(limits, w, c).table, key).attempts);
    SameMemory(rec, Begun(limits, rec, c.now), w.log, key);
  }

  lemma SameMemory(rec: Rec, rec': Rec, log: seq<Mark>, key: Key)
    requires Recalls(rec, log, key)
    ensures rec'.phase == rec.phase && rec'.lastAt == rec.lastAt ==> Recalls(rec', log, key)
  {
  }

  lemma {:induction false} PlayRecalls(limits: Limits, w: World, clock: nat, calls: seq<Call>, key: Key)
    requires Recalls(At(w.table, key), w.log, key) && Orderly(limits, w, calls, clock)
    ensures Recalls(At(Play(limits, w, calls).table, key), Play(limits, w, calls).log, key)
    decreases |calls|
  {
    hide Recalls, Step;
    if calls != [] {
      StepRecalls(limits, w, calls[0], key);
      PlayRecalls(limits, Step(limits, w, calls[0]), calls[0].now, calls[1..], key);
    }
  }

  lemma {:induction false} RecentIsInMinute(times: seq<Clock>, now: int)
    requires forall i :: 0 <= i < |times| ==> times[i] <= now
    ensures |Recent(times, now)| == InMinute(times, now)
  {
    if times != [] {
      RecentIsInMinute(times[..|times| - 1], now);
    }
  }

  /** After every orderly run a request is let through exactly when no recovery of the subscriber
      is going on, everything that happened for it is a cooldown ago, and the minute up to now
      has seen fewer than the bound. */
  lemma LimiterIsExact(limits: Limits, calls: seq<Call>, key: Key, now: Clock)
    requires Orderly(limits, Nothing, calls, 0) && LastReading(0, calls) <= now
    ensures var w := Play(limits, Nothing, calls);
            Accepts(limits, At(w.table, key), now) <==>
            && !Ongoing(w.log, key)
            && (forall i :: 0 <= i < |w.log| && w.log[i].key == key ==> now - w.log[i].at >= limits.cooldown)
            && InMinute(Starts(w.log, key), now) < limits.maxPerMinute
  {
    hide InMinute, Recent, Starts, Ongoing, Play;
    var w := Play(limits, Nothing, calls);
    var rec := At(w.table, key);
    StartInOrder(limits, key);
    PlayInOrder(limits, Nothing, 0, calls, key);
    NothingRecalled(key);
    PlayRecalls(limits, Nothing, 0, calls, key);
    FaithfulStep(rec.attempts, Starts(w.log, key), LastReading(0, calls), now);
    RecentIsInMinute(Starts(w.log, key), now);
  }

  lemma NothingRecalled(key: Key)
    ensures Recalls(NoRec, [], key)
  {
  }
}
