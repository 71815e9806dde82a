/** The operations taken apart into steps do what the methods of the service do: a goroutine
    that nobody interrupts ends just where the contract of the method says. */
module SoloRuns {
  import opened Wrappers
  import opened Sessions
  import opened SessionStore
  import opened CallLedger
  import opened Lifecycle
  import opened AttachFlow
  import opened LockedRuns
  import OwnerGuard

  type Turn = LockedRuns.Step

  /** One step of goroutine t. */
  function Went(cfg: Config, w: World, t: ThreadID, c: Choice): World {
    LockedRuns.Do(cfg, w, Turn.Go(t, c))
  }

  /** Goroutine t makes one step for each choice, and nobody else makes any. */
  function Along(cfg: Config, w: World, t: ThreadID, path: seq<Choice>): World
    decreases |path|
  {
    if path == [] then w else Along(cfg, Went(cfg, w, t, path[0]), t, path[1..])
  }

  /** Nobody who waits for a lock gives up. */
  predicate Patient(path: seq<Choice>) {
    forall i :: 0 <= i < |path| ==> !path[i].giveUp
  }

  /** Goroutine t is through, and has given its lock back. */
  predicate Finished(w: World, w': World, t: ThreadID) {
    && t in w.threads && w'.threads == w.threads[t := Thread(Gone, None)]
    && w'.locks == match w.threads[t].key case None => w.locks case Some(k) => w.locks - {k}
  }

  lemma {:induction false} GoneStays(cfg: Config, w: World, t: ThreadID, path: seq<Choice>)
    requires t in w.threads && w.threads[t] == Thread(Gone, None)
    ensures Along(cfg, w, t, path) == w
    decreases |path|
  {
    if path != [] {
      assert w.threads[t := Thread(Gone, None)] == w.threads;
      assert Went(cfg, w, t, path[0]) == w;
      GoneStays(cfg, w, t, path[1..]);
    }
  }

  lemma EndingLeaves(cfg: Config, w: World, t: ThreadID, path: seq<Choice>)
    requires t in w.threads && w.threads[t].phase == Ending && |path| >= 1
    ensures var w' := Along(cfg, w, t, path); Finished(w, w', t) && w'.guard == w.guard && w'.calls == w.calls
  {
    hide Along, Went;
    Unrolled(cfg, w, t, path);
    RestStep(cfg, w, t, path[0]);
    GoneStays(cfg, Went(cfg, w, t, path[0]), t, path[1..]);
  }

  lemma Unrolled(cfg: Config, w: World, t: ThreadID, path: seq<Choice>)
    requires path != []
    ensures Along(cfg, w, t, path) == Along(cfg, Went(cfg, w, t, path[0]), t, path[1..])
    ensures Patient(path) ==> !path[0].giveUp && Patient(path[1..])
  {
  }

  /** A step is what the next move of its phase says. */
  lemma StepOf(cfg: Config, w: World, t: ThreadID, c: Choice)
    requires t in w.threads
    ensures Went(cfg, w, t, c) == Apply(w, t, w.threads[t], Next(cfg, w.guard, w.locks, w.threads[t], c))
  {
    hide Next, Apply;
  }

  lemma RestStep(cfg: Config, w: World, t: ThreadID, c: Choice)
    requires t in w.threads
    requires var p := w.threads[t].phase;
             p.Undoing? || p.Ousting? || p.Cleaning? || p.Counting? || p.Accounting? || p.Rechecking? || p.Suspending? || p.Ending?
    ensures Went(cfg, w, t, c) == Apply(w, t, w.threads[t], NextOfRest(cfg, w.guard.store, w.threads[t], c))
  {
    hide NextOfRest, Apply, NextOfAttach, NextBeforePGW, NextAfterPGW;
  }

  // --- takedowns ---

  /** From w to w' the calls es were made. */
  predicate Called(w: World, w': World, es: seq<Event>) {
    w'.calls == w.calls + es
  }

  lemma Deletes(st: Store, s: Session)
    requires Stored(st, s) && s.state == State.Terminating
    ensures Exec(st, Delete(s.id)).byID == st.byID - {s.id}
  {
    ExecOnTable(st, Delete(s.id), s, Edited(Delete(s.id), s));
  }

  lemma DeletingLeaves(cfg: Config, w: World, t: ThreadID, path: seq<Choice>, s: Session)
    requires t in w.threads && w.threads[t].phase.Cleaning? && w.threads[t].phase.kinds == [] && w.threads[t].phase.after.None?
    requires w.threads[t].phase.s == s && s.id in w.guard.store.byID && w.guard.store.byID[s.id] == s && s.state == State.Terminating
    requires |path| >= 2
    ensures var w' := Along(cfg, w, t, path);
            Finished(w, w', t) && w'.guard.store.byID == w.guard.store.byID - {s.id} && w'.calls == w.calls
  {
    hide Along, Went, Edited, Exec, ValidTransition, DetachOrder, Fatal;
    Unrolled(cfg, w, t, path);
    RestStep(cfg, w, t, path[0]);
    var w1 := Went(cfg, w, t, path[0]);
    Deletes(w.guard.store, s);
    assert w1.threads[t] == Thread(Ending, w.threads[t].key);
    EndingLeaves(cfg, w1, t, path[1..]);
  }

  lemma {:induction false} CleaningLeaves(cfg: Config, w: World, t: ThreadID, path: seq<Choice>, s: Session) returns (es: seq<Event>)
    requires t in w.threads && w.threads[t].phase.Cleaning? && w.threads[t].phase.after.None?
    requires w.threads[t].phase.s == s && s.id in w.guard.store.byID && w.guard.store.byID[s.id] == s && s.state == State.Terminating
    requires |path| >= |w.threads[t].phase.kinds| + 2
    ensures var w' := Along(cfg, w, t, path);
            && Finished(w, w', t) && w'.guard.store.byID == w.guard.store.byID - {s.id}
            && Called(w, w', es) && Kinds(es) == w.threads[t].phase.kinds && forall e :: e in es ==> e.sess == s
    decreases |path|
  {
    hide Along, Went, Exec, Fatal;
    var kinds := w.threads[t].phase.kinds;
    if kinds == [] {
      DeletingLeaves(cfg, w, t, path, s);
      es := [];
    } else {
      Unrolled(cfg, w, t, path);
      RestStep(cfg, w, t, path[0]);
      var w1 := Went(cfg, w, t, path[0]);
      var e := Event(kinds[0], s, path[0].err);
      assert w1.calls == w.calls + [e];
      var rest := CleaningLeaves(cfg, w1, t, path[1..], s);
      es := [e] + rest;
      assert w.calls + es == w.calls + [e] + rest;
      assert Kinds(es) == [kinds[0]] + Kinds(rest) == kinds;
    }
  }

  /** A takedown drops the session and makes the calls that detachSessionLocked makes. */
  lemma OustingLeaves(cfg: Config, w: World, t: ThreadID, path: seq<Choice>, s: Session) returns (es: seq<Event>)
    requires t in w.threads && w.threads[t].phase == Ousting(s.id, None)
    requires Stored(w.guard.store, s) && s.state != Terminated && s.state != Failed
    requires |path| >= |DetachOrder(cfg)| + 3
    ensures var w' := Along(cfg, w, t, path);
            && Finished(w, w', t) && w'.guard.store.byID == w.guard.store.byID - {s.id}
            && Called(w, w', es) && TakesDown(cfg, s, es)
  {
    hide Along, Went, Exec, DetachOrder, Kinds, Edited;
    Unrolled(cfg, w, t, path);
    RestStep(cfg, w, t, path[0]);
    MayEnd(w.guard.store, s);
    Terminates(w.guard.store, s);
    var w1 := Went(cfg, w, t, path[0]);
    var s1 := s.(state := State.Terminating);
    es := CleaningLeaves(cfg, w1, t, path[1..], s1);
    assert w.guard.store.byID[s.id := s1] - {s.id} == w.guard.store.byID - {s.id};
  }

  lemma Terminates(st: Store, s: Session)
    requires Stored(st, s) && Enabled(st, MarkTerminating(s.id))
    ensures Edited(MarkTerminating(s.id), st.byID[s.id]) == s.(state := State.Terminating)
    ensures Exec(st, MarkTerminating(s.id)).byID == st.byID[s.id := s.(state := State.Terminating)]
  {
    ExecOnTable(st, MarkTerminating(s.id), s, Edited(MarkTerminating(s.id), s));
  }

  // --- the operations that take down ---

  /** The session that an operation is about to take down. */
  predicate Names(st: Store, job: Job, found: Session) {
    match job
    case DetachRequest(id, imsi, mac) =>
      FindDetachSession(st, id, imsi, mac) == Some(found) && found.state != Terminated && found.state != Failed
    case AAADisconnection(id, imsi) =>
      FindDetachSession(st, id, imsi, "") == Some(found) && found.state != Terminated && found.state != Failed
    case PGWDeletion(teid) => LookupByTEID(st, teid) == Some(found) && found.state == Active
    case ErrorIndication(teid, pick) =>
      teid != 0 && pick == found.id && Stored(st, found) && found.remoteGTPUTEID == teid && found.state == Active
    case AccountingStopped(id, _) =>
      id == found.id && Stored(st, found) && found.state !in {State.Terminating, Terminated, Failed}
    case _ => false
  }

  /** Session id was dropped, with all the calls of its takedown made for it. */
  ghost predicate Dropped(cfg: Config, w: World, w': World, t: ThreadID, id: SessionID) {
    && Finished(w, w', t) && w'.guard.store.byID == w.guard.store.byID - {id}
    && |w.calls| <= |w'.calls| && w'.calls[..|w.calls|] == w.calls && Kinds(w'.calls[|w.calls|..]) == DetachOrder(cfg)
    && forall e :: e in w'.calls[|w.calls|..] ==> e.sess.id == id
  }

  lemma OustingDrops(cfg: Config, w: World, t: ThreadID, path: seq<Choice>, s: Session)
    requires t in w.threads && w.threads[t].phase == Ousting(s.id, None)
    requires Stored(w.guard.store, s) && s.state != Terminated && s.state != Failed
    requires |path| >= |DetachOrder(cfg)| + 3
    ensures Dropped(cfg, w, Along(cfg, w, t, path), t, s.id)
  {
    hide Along, DetachOrder, Kinds, Finished;
    var es := OustingLeaves(cfg, w, t, path, s);
    assert Along(cfg, w, t, path).calls[|w.calls|..] == es;
  }

  /** A step that makes no call, and leaves the session stored as s1. */
  lemma DroppedLater(cfg: Config, w: World, w1: World, w': World, t: ThreadID, s1: Session)
    requires t in w.threads && t in w1.threads && w1.threads == w.threads[t := w1.threads[t]] && w1.calls == w.calls
    requires w1.guard.store.byID == w.guard.store.byID[s1.id := s1]
    requires w1.threads[t].key == w.threads[t].key && w1.locks == w.locks
    requires Dropped(cfg, w1, w', t, s1.id)
    ensures Dropped(cfg, w, w', t, s1.id)
  {
    hide DetachOrder, Kinds;
    assert w.guard.store.byID[s1.id := s1] - {s1.id} == w.guard.store.byID - {s1.id};
  }

  lemma StoredAsItIs(st: Store, s: Session)
    requires Stored(st, s)
    ensures st.byID[s.id := s] == st.byID
  {
  }

  /** One store operation on the stored session s, accepted. */
  lemma Rewrites(st: Store, op: Op, s: Session)
    requires !op.Create? && !op.ExpireInactive? && !op.Delete? && Stored(st, s) && op.id == s.id && Enabled(st, op)
    ensures Exec(st, op).byID == st.byID[s.id := Edited(op, s)] && Exec(st, op).next == st.next
    ensures Stored(Exec(st, op), Edited(op, s))
  {
    hide ExecOn, Edit;
    ExecOnTable(st, op, s, Edited(op, s));
  }

  lemma SuspendingDrops(cfg: Config, w: World, t: ThreadID, path: seq<Choice>, s: Session)
    requires t in w.threads && w.threads[t].phase == Suspending(s.id)
    requires Stored(w.guard.store, s) && s.state == Active && |path| >= |DetachOrder(cfg)| + 4
    ensures Dropped(cfg, w, Along(cfg, w, t, path), t, s.id)
  {
    hide Along, Went, DetachOrder, Kinds, Dropped, Edited, Exec, Enabled;
    Unrolled(cfg, w, t, path);
    RestStep(cfg, w, t, path[0]);
    RecoveringEdit(w.guard.store, s, "recovery");
    var op := MarkRecovering(s.id, "recovery");
    Rewrites(w.guard.store, op, s);
    var w1 := Went(cfg, w, t, path[0]);
    OustingDrops(cfg, w1, t, path[1..], Edited(op, s));
    DroppedLater(cfg, w, w1, Along(cfg, w1, t, path[1..]), t, Edited(op, s));
  }

  lemma RecheckingDrops(cfg: Config, w: World, t: ThreadID, path: seq<Choice>, s: Session, activeOnly: bool)
    requires t in w.threads && w.threads[t].phase == Rechecking(s.id, activeOnly) && Stored(w.guard.store, s)
    requires if activeOnly then s.state == Active else s.state !in {State.Terminating, Terminated, Failed}
    requires |path| >= |DetachOrder(cfg)| + 5
    ensures Dropped(cfg, w, Along(cfg, w, t, path), t, s.id)
  {
    hide Along, Went, DetachOrder, Kinds, Dropped;
    Unrolled(cfg, w, t, path);
    RestStep(cfg, w, t, path[0]);
    StoredAsItIs(w.guard.store, s);
    var w1 := Went(cfg, w, t, path[0]);
    if activeOnly {
      SuspendingDrops(cfg, w1, t, path[1..], s);
    } else {
      OustingDrops(cfg, w1, t, path[1..], s);
    }
    DroppedLater(cfg, w, w1, Along(cfg, w1, t, path[1..]), t, s);
  }

  /** A free lock is taken, and nothing else happens. */
  lemma QueuedGoes(cfg: Config, w: World, t: ThreadID, c: Choice, want: LockKey, onward: Phase)
    requires t in w.threads && w.threads[t] == Thread(Queued(want, onward), None) && want !in w.locks && !c.giveUp
    ensures Went(cfg, w, t, c)
         == w.(locks := w.locks[want := t], threads := w.threads[t := Thread(onward, Some(want))])
  {
    StepOf(cfg, w, t, c);
  }

  lemma UnlockedAgain(cfg: Config, w: World, w1: World, w': World, t: ThreadID, id: SessionID, want: LockKey)
    requires t in w.threads && w.threads[t].key.None? && want !in w.locks
    requires w1.locks == w.locks[want := t] && t in w1.threads && w1.threads == w.threads[t := w1.threads[t]]
    requires w1.threads[t].key == Some(want) && w1.calls == w.calls && w1.guard == w.guard
    requires Dropped(cfg, w1, w', t, id)
    ensures Dropped(cfg, w, w', t, id)
  {
    hide DetachOrder, Kinds;
    assert w.locks[want := t] - {want} == w.locks;
  }

  lemma QueuedDrops(cfg: Config, w: World, t: ThreadID, path: seq<Choice>, s: Session, want: LockKey, onward: Phase)
    requires t in w.threads && w.threads[t] == Thread(Queued(want, onward), None) && want !in w.locks
    requires Stored(w.guard.store, s) && Patient(path) && |path| >= |DetachOrder(cfg)| + 6
    requires || (onward == Ousting(s.id, None) && s.state != Terminated && s.state != Failed)
             || (onward == Rechecking(s.id, true) && s.state == Active)
             || (onward == Rechecking(s.id, false) && s.state !in {State.Terminating, Terminated, Failed})
    ensures Dropped(cfg, w, Along(cfg, w, t, path), t, s.id)
  {
    hide Along, Went, DetachOrder, Kinds, Dropped;
    Unrolled(cfg, w, t, path);
    QueuedGoes(cfg, w, t, path[0], want, onward);
    var w1 := Went(cfg, w, t, path[0]);
    if onward.Ousting? {
      OustingDrops(cfg, w1, t, path[1..], s);
    } else {
      RecheckingDrops(cfg, w1, t, path[1..], s, onward.activeOnly);
    }
    UnlockedAgain(cfg, w, w1, Along(cfg, w1, t, path[1..]), t, s.id, want);
  }

  lemma CountingDrops(cfg: Config, w: World, t: ThreadID, path: seq<Choice>, s: Session)
    requires t in w.threads && w.threads[t] == Thread(Counting(s), None) && KeyOf(IdentityOf(s)) !in w.locks
    requires Stored(w.guard.store, s) && s.state == Active && Patient(path) && |path| >= |DetachOrder(cfg)| + 7
    ensures Dropped(cfg, w, Along(cfg, w, t, path), t, s.id)
  {
    hide Along, Went, DetachOrder, Kinds, Dropped, Exec, Edit;
    Unrolled(cfg, w, t, path);
    RestStep(cfg, w, t, path[0]);
    var op := RecordGTPUError(s.id, "GTP-U Error Indication");
    Rewrites(w.guard.store, op, s);
    var s1 := Edited(op, s);
    assert IdentityOf(s1) == IdentityOf(s);
    var w1 := Went(cfg, w, t, path[0]);
    QueuedDrops(cfg, w1, t, path[1..], s1, KeyOf(IdentityOf(s)), Rechecking(s.id, true));
    DroppedLater(cfg, w, w1, Along(cfg, w1, t, path[1..]), t, s1);
  }

  lemma AccountingDrops(cfg: Config, w: World, t: ThreadID, path: seq<Choice>, s: Session, acct: string)
    requires t in w.threads && w.threads[t] == Thread(Accounting(s, acct), None) && KeyOf(IdentityOf(s)) !in w.locks
    requires Stored(w.guard.store, s) && s.state !in {State.Terminating, Terminated, Failed}
    requires Patient(path) && |path| >= |DetachOrder(cfg)| + 7
    ensures Dropped(cfg, w, Along(cfg, w, t, path), t, s.id)
  {
    hide Along, Went, DetachOrder, Kinds, Dropped, Exec, Edit;
    Unrolled(cfg, w, t, path);
    RestStep(cfg, w, t, path[0]);
    var op := ApplyAccounting(s.id, acct);
    Rewrites(w.guard.store, op, s);
    var w1 := Went(cfg, w, t, path[0]);
    QueuedDrops(cfg, w1, t, path[1..], Edited(op, s), KeyOf(IdentityOf(s)), Rechecking(s.id, false));
    DroppedLater(cfg, w, w1, Along(cfg, w1, t, path[1..]), t, Edited(op, s));
  }

  /** Every operation that takes a session down, left alone with its lock free, drops just that
      session, makes the calls of the takedown in their order, and leaves the locks as they were. */
  lemma HandlersTakeDown(cfg: Config, w: World, t: ThreadID, job: Job, found: Session, path: seq<Choice>)
    requires WellFormed(w.guard.store) && t !in w.threads && Names(w.guard.store, job, found)
    requires KeyOf(IdentityOf(found)) !in w.locks && Patient(path) && |path| >= |DetachOrder(cfg)| + 7
    ensures var w' := Along(cfg, LockedRuns.Do(cfg, w, Turn.Begin(t, job)), t, path);
            && w'.guard.store.byID == w.guard.store.byID - {found.id} && w'.locks == w.locks
            && w'.threads == w.threads[t := Thread(Gone, None)]
            && |w.calls| <= |w'.calls| && w'.calls[..|w.calls|] == w.calls && Kinds(w'.calls[|w.calls|..]) == DetachOrder(cfg)
            && forall e :: e in w'.calls[|w.calls|..] ==> e.sess.id == found.id
  {
    hide Along, DetachOrder, Kinds, KeyOf, NextOfAttach, NextBeforePGW, NextAfterPGW, NextOfRest;
    var w0 := LockedRuns.Do(cfg, w, Turn.Begin(t, job));
    match job
    case DetachRequest(_, _, _) => QueuedDrops(cfg, w0, t, path, found, KeyOf(IdentityOf(found)), Ousting(found.id, None));
    case AAADisconnection(_, _) => OustingDrops(cfg, w0, t, path, found);
    case PGWDeletion(_) => SuspendingDrops(cfg, w0, t, path, found);
    case ErrorIndication(_, _) => CountingDrops(cfg, w0, t, path, found);
    case AccountingStopped(_, acct) => AccountingDrops(cfg, w0, t, path, found, acct);
  }

  // --- an attach that comes up ---

  /** Every call succeeds: the lease is ip, and the PGW answers with answer. */
  predicate Smooth(path: seq<Choice>, ip: IPv4, answer: Option<PGWResult>) {
    forall i :: 0 <= i < |path| ==>
      !path[i].giveUp && path[i].err.None? && path[i].ip == ip && path[i].answer == answer && path[i].alive
  }

  lemma SmoothOn(cfg: Config, w: World, t: ThreadID, path: seq<Choice>, ip: IPv4, answer: Option<PGWResult>)
    requires Smooth(path, ip, answer) && path != []
    ensures Along(cfg, w, t, path) == Along(cfg, Went(cfg, w, t, path[0]), t, path[1..]) && Smooth(path[1..], ip, answer)
    ensures !path[0].giveUp && path[0].err.None? && path[0].ip == ip && path[0].answer == answer && path[0].alive
  {
    Unrolled(cfg, w, t, path);
  }

  /** Goroutine t is through, session s' is stored, and calls of these kinds were made. */
  ghost predicate Came(w: World, w': World, t: ThreadID, s': Session, kinds: seq<Kind>) {
    && Finished(w, w', t) && w'.guard.store.byID == w.guard.store.byID[s'.id := s']
    && |w.calls| <= |w'.calls| && w'.calls[..|w.calls|] == w.calls && Kinds(w'.calls[|w.calls|..]) == kinds
  }

  /** One step further: the session is stored as s1, and at most one call was made. */
  ghost predicate Further1(w: World, w1: World, t: ThreadID, s1: Session, kinds: seq<Kind>) {
    && t in w.threads && t in w1.threads && w1.threads == w.threads[t := w1.threads[t]]
    && w1.threads[t].key == w.threads[t].key && w1.locks == w.locks
    && w1.guard.store.byID == w.guard.store.byID[s1.id := s1]
    && |w.calls| <= |w1.calls| && w1.calls[..|w.calls|] == w.calls && Kinds(w1.calls[|w.calls|..]) == kinds
  }

  lemma CameLater(w: World, w1: World, w': World, t: ThreadID, s1: Session, s': Session, now: seq<Kind>, then': seq<Kind>)
    requires Further1(w, w1, t, s1, now) && Came(w1, w', t, s', then') && s1.id == s'.id
    ensures Came(w, w', t, s', now + then')
  {
    assert w'.calls[|w.calls|..] == w1.calls[|w.calls|..] + w'.calls[|w1.calls|..];
    assert w'.calls[..|w.calls|] == w'.calls[..|w1.calls|][..|w.calls|];
    assert w.guard.store.byID[s1.id := s1][s'.id := s'] == w.guard.store.byID[s'.id := s'];
  }

  /** A step without a call, or with one. */
  lemma Quietly(w: World, w1: World, t: ThreadID, th: Thread, m: Move, s1: Session)
    requires t in w.threads && w.threads[t] == th && w1 == Apply(w, t, th, m) && m.key == th.key && m.call.None?
    requires w1.guard.store.byID == w.guard.store.byID[s1.id := s1]
    ensures Further1(w, w1, t, s1, []) && w1.threads[t] == Thread(m.phase, th.key)
  {
    assert w1.calls[|w.calls|..] == [];
  }

  lemma Calling(w: World, w1: World, t: ThreadID, th: Thread, m: Move, s: Session)
    requires t in w.threads && w.threads[t] == th && w1 == Apply(w, t, th, m) && m.key == th.key && m.call.Some? && m.act.None?
    requires Stored(w.guard.store, s)
    ensures Further1(w, w1, t, s, [m.call.value.kind]) && w1.threads[t] == Thread(m.phase, th.key) && w1.guard == w.guard
  {
    assert w1.calls[|w.calls|..] == [m.call.value];
    StoredAsItIs(w.guard.store, s);
  }

  lemma AfterStep(cfg: Config, w: World, t: ThreadID, c: Choice)
    requires t in w.threads
    requires var p := w.threads[t].phase;
             p.Readdressing? || p.Tunnelling? || p.Taken? || p.Building? || p.Activating? || p.Binding? || p.Validating?
    ensures Went(cfg, w, t, c) == Apply(w, t, w.threads[t], NextAfterPGW(cfg, w.guard.store, w.threads[t], c))
  {
    hide NextOfRest, Apply, NextOfAttach, NextBeforePGW, NextAfterPGW;
  }

  lemma BeforeStep(cfg: Config, w: World, t: ThreadID, c: Choice)
    requires t in w.threads
    requires var p := w.threads[t].phase;
             p.Leasing? || p.Addressing? || p.Marking? || p.ReadingIMSI? || p.ReadingMAC? || p.Deciding? || p.Opening?
    ensures Went(cfg, w, t, c) == Apply(w, t, w.threads[t], NextBeforePGW(cfg, w.guard, w.threads[t], c))
  {
    hide NextOfRest, Apply, NextOfAttach, NextBeforePGW, NextAfterPGW;
  }

  lemma AttachStep(cfg: Config, w: World, t: ThreadID, c: Choice)
    requires t in w.threads
    requires var p := w.threads[t].phase; p.Looking? || p.Creating? || p.Begun? || p.Authenticating? || p.Authorizing?
    ensures Went(cfg, w, t, c) == Apply(w, t, w.threads[t], NextOfAttach(cfg, w.guard.store, w.threads[t], c))
  {
    hide NextOfRest, Apply, NextOfAttach, NextBeforePGW, NextAfterPGW;
  }

  lemma EndingComes(cfg: Config, w: World, t: ThreadID, path: seq<Choice>, s: Session)
    requires t in w.threads && w.threads[t].phase == Ending && Stored(w.guard.store, s) && |path| >= 1
    ensures Came(w, Along(cfg, w, t, path), t, s, [])
  {
    hide Along, Went, Finished;
    EndingLeaves(cfg, w, t, path);
    StoredAsItIs(w.guard.store, s);
    assert Along(cfg, w, t, path).calls[|w.calls|..] == [];
  }

  function AccessCall(cfg: Config): seq<Kind> {
    if cfg.hasAccessBinder then [BindAccess] else []
  }

  function DatapathCalls(cfg: Config): seq<Kind> {
    [InstallRoute] + (if cfg.hasUserPlane then [BindUser] else [])
  }

  lemma ValidatingComes(cfg: Config, w: World, t: ThreadID, path: seq<Choice>, s: Session, ip: IPv4, answer: Option<PGWResult>)
    requires t in w.threads && w.threads[t].phase == Validating(s) && Stored(w.guard.store, s) && !TurnedDown(cfg, true, s)
    requires Smooth(path, ip, answer) && |path| >= 2
    ensures Came(w, Along(cfg, w, t, path), t, s, [])
  {
    hide Along, Went, Came, Further1;
    SmoothOn(cfg, w, t, path, ip, answer);
    AfterStep(cfg, w, t, path[0]);
    var w1 := Went(cfg, w, t, path[0]);
    StoredAsItIs(w.guard.store, s);
    Quietly(w, w1, t, w.threads[t], NextAfterPGW(cfg, w.guard.store, w.threads[t], path[0]), s);
    EndingComes(cfg, w1, t, path[1..], s);
    CameLater(w, w1, Along(cfg, w, t, path), t, s, s, [], []);
  }

  lemma BindingComes(cfg: Config, w: World, t: ThreadID, path: seq<Choice>, s: Session, ip: IPv4, answer: Option<PGWResult>)
    requires t in w.threads && w.threads[t].phase == Binding(s) && Stored(w.guard.store, s) && !TurnedDown(cfg, true, s)
    requires Smooth(path, ip, answer) && |path| >= 3
    ensures Came(w, Along(cfg, w, t, path), t, s, [BindAccess])
  {
    hide Along, Went, Came, Further1, TurnedDown;
    SmoothOn(cfg, w, t, path, ip, answer);
    AfterStep(cfg, w, t, path[0]);
    var w1 := Went(cfg, w, t, path[0]);
    Calling(w, w1, t, w.threads[t], NextAfterPGW(cfg, w.guard.store, w.threads[t], path[0]), s);
    ValidatingComes(cfg, w1, t, path[1..], s, ip, answer);
    CameLater(w, w1, Along(cfg, w, t, path), t, s, s, [BindAccess], []);
    assert [BindAccess] + [] == [BindAccess];
  }

  lemma Activates(st: Store, s: Session)
    requires Stored(st, s) && s.state == PGWPending
    ensures Enabled(st, MarkActive(s.id)) && Edited(MarkActive(s.id), s) == s.(state := Active)
  {
  }

  lemma ActivatingComes(cfg: Config, w: World, t: ThreadID, path: seq<Choice>, s: Session, ip: IPv4, answer: Option<PGWResult>)
    requires t in w.threads && w.threads[t].phase == Activating(s) && Stored(w.guard.store, s) && s.state == PGWPending
    requires !TurnedDown(cfg, true, s.(state := Active)) && Smooth(path, ip, answer) && |path| >= 4
    ensures Came(w, Along(cfg, w, t, path), t, s.(state := Active), AccessCall(cfg))
  {
    hide Along, Went, Came, Further1, TurnedDown, Exec, Enabled, Edited;
    var s1 := s.(state := Active);
    SmoothOn(cfg, w, t, path, ip, answer);
    AfterStep(cfg, w, t, path[0]);
    Activates(w.guard.store, s);
    Rewrites(w.guard.store, MarkActive(s.id), s);
    var w1 := Went(cfg, w, t, path[0]);
    Quietly(w, w1, t, w.threads[t], NextAfterPGW(cfg, w.guard.store, w.threads[t], path[0]), s1);
    if cfg.hasAccessBinder {
      BindingComes(cfg, w1, t, path[1..], s1, ip, answer);
    } else {
      ValidatingComes(cfg, w1, t, path[1..], s1, ip, answer);
    }
    CameLater(w, w1, Along(cfg, w, t, path), t, s1, s1, [], AccessCall(cfg));
    assert [] + AccessCall(cfg) == AccessCall(cfg);
  }

  lemma {:induction false} BuildingComes(cfg: Config, w: World, t: ThreadID, path: seq<Choice>, s: Session, todo: seq<Kind>, undo: seq<Kind>,
                                         ip: IPv4, answer: Option<PGWResult>)
    requires t in w.threads && w.threads[t].phase == Building(s, todo, undo) && Stored(w.guard.store, s) && s.state == PGWPending
    requires !TurnedDown(cfg, true, s.(state := Active)) && Smooth(path, ip, answer) && |path| >= |todo| + 5
    ensures Came(w, Along(cfg, w, t, path), t, s.(state := Active), todo + AccessCall(cfg))
    decreases |todo|
  {
    hide Along, Went, Came, Further1, TurnedDown, AccessCall;
    var s1 := s.(state := Active);
    SmoothOn(cfg, w, t, path, ip, answer);
    AfterStep(cfg, w, t, path[0]);
    var w1 := Went(cfg, w, t, path[0]);
    var m := NextAfterPGW(cfg, w.guard.store, w.threads[t], path[0]);
    if todo == [] {
      StoredAsItIs(w.guard.store, s);
      Quietly(w, w1, t, w.threads[t], m, s);
      ActivatingComes(cfg, w1, t, path[1..], s, ip, answer);
      CameLater(w, w1, Along(cfg, w, t, path), t, s, s1, [], AccessCall(cfg));
      assert [] + AccessCall(cfg) == todo + AccessCall(cfg);
    } else {
      Calling(w, w1, t, w.threads[t], m, s);
      BuildingComes(cfg, w1, t, path[1..], s, todo[1..], [Undoes(todo[0])] + undo, ip, answer);
      CameLater(w, w1, Along(cfg, w, t, path), t, s, s1, [todo[0]], todo[1..] + AccessCall(cfg));
      assert [todo[0]] + (todo[1..] + AccessCall(cfg)) == todo + AccessCall(cfg);
    }
  }

  lemma TakenComes(cfg: Config, w: World, t: ThreadID, path: seq<Choice>, s: Session, ip: IPv4, answer: Option<PGWResult>)
    requires t in w.threads && w.threads[t].phase == Taken(s) && Stored(w.guard.store, s) && s.state == PGWPending
    requires s.subscriberIP.Some? && !TurnedDown(cfg, true, s.(state := Active)) && Smooth(path, ip, answer) && |path| >= 8
    ensures Came(w, Along(cfg, w, t, path), t, s.(state := Active), DatapathCalls(cfg) + AccessCall(cfg))
  {
    hide Along, Went, Came, Further1, TurnedDown, AccessCall;
    SmoothOn(cfg, w, t, path, ip, answer);
    AfterStep(cfg, w, t, path[0]);
    var w1 := Went(cfg, w, t, path[0]);
    StoredAsItIs(w.guard.store, s);
    Quietly(w, w1, t, w.threads[t], NextAfterPGW(cfg, w.guard.store, w.threads[t], path[0]), s);
    BuildingComes(cfg, w1, t, path[1..], s, DatapathCalls(cfg), [], ip, answer);
    CameLater(w, w1, Along(cfg, w, t, path), t, s, s.(state := Active), [], DatapathCalls(cfg) + AccessCall(cfg));
    assert [] + (DatapathCalls(cfg) + AccessCall(cfg)) == DatapathCalls(cfg) + AccessCall(cfg);
  }

  /** The record with the tunnel data of an answer that has any. */
  function Tunnelled(s: Session, res: PGWResult): Session {
    if !SentTunnel(res) then s
    else s.(pgwControlIP := res.controlIP, pgwUserIP := res.userIP, gtpcTEID := res.gtpcTEID,
            localGTPUTEID := res.localGTPUTEID, remoteGTPUTEID := res.remoteGTPUTEID)
  }

  lemma TunnellingComes(cfg: Config, w: World, t: ThreadID, path: seq<Choice>, s: Session, res: PGWResult,
                        ip: IPv4, answer: Option<PGWResult>)
    requires t in w.threads && w.threads[t].phase == Tunnelling(s, res) && Stored(w.guard.store, s) && s.state == PGWPending
    requires s.subscriberIP.Some? && !TurnedDown(cfg, true, Tunnelled(s, res).(state := Active))
    requires Smooth(path, ip, answer) && |path| >= 9
    ensures Came(w, Along(cfg, w, t, path), t, Tunnelled(s, res).(state := Active), DatapathCalls(cfg) + AccessCall(cfg))
  {
    hide Along, Went, Came, Further1, TurnedDown, AccessCall, DatapathCalls, Exec;
    var s1 := Tunnelled(s, res);
    SmoothOn(cfg, w, t, path, ip, answer);
    AfterStep(cfg, w, t, path[0]);
    StoredAsItIs(w.guard.store, s);
    if SentTunnel(res) {
      var op := ApplyPGWResult(s.id, res.controlIP, res.userIP, res.gtpcTEID, res.localGTPUTEID, res.remoteGTPUTEID);
      Rewrites(w.guard.store, op, s);
      assert Edited(op, s) == s1;
    }
    var w1 := Went(cfg, w, t, path[0]);
    Quietly(w, w1, t, w.threads[t], NextAfterPGW(cfg, w.guard.store, w.threads[t], path[0]), s1);
    TakenComes(cfg, w1, t, path[1..], s1, ip, answer);
    CameLater(w, w1, Along(cfg, w, t, path), t, s1, s1.(state := Active), [], DatapathCalls(cfg) + AccessCall(cfg));
    assert [] + (DatapathCalls(cfg) + AccessCall(cfg)) == DatapathCalls(cfg) + AccessCall(cfg);
  }

  /** The record with the address of an answer that has one. */
  function Readdressed(s: Session, res: PGWResult): Session {
    if res.subscriberIP.Some? then s.(subscriberIP := res.subscriberIP) else s
  }

  lemma AnswerInParts(s: Session, res: PGWResult)
    ensures Answered(s, res) == Tunnelled(Readdressed(s, res), res)
  {
  }

  lemma {:induction false} ReaddressingComes(cfg: Config, w: World, t: ThreadID, path: seq<Choice>, s: Session, kinds: seq<Kind>, res: PGWResult,
                                             ip: IPv4, answer: Option<PGWResult>)
    requires t in w.threads && w.threads[t].phase == Phase.Readdressing(s, kinds, res)
    requires Stored(w.guard.store, s) && s.state == PGWPending && res.subscriberIP.Some?
    requires !TurnedDown(cfg, true, Answered(s, res).(state := Active)) && Smooth(path, ip, answer) && |path| >= |kinds| + 10
    ensures Came(w, Along(cfg, w, t, path), t, Answered(s, res).(state := Active), kinds + (DatapathCalls(cfg) + AccessCall(cfg)))
    decreases |kinds|
  {
    hide Along, Went, Came, Further1, TurnedDown, AccessCall, DatapathCalls, Exec, Answered, Tunnelled;
    var s' := Answered(s, res).(state := Active);
    var rest := DatapathCalls(cfg) + AccessCall(cfg);
    SmoothOn(cfg, w, t, path, ip, answer);
    AfterStep(cfg, w, t, path[0]);
    AnswerInParts(s, res);
    SameID(s, res);
    var w1 := Went(cfg, w, t, path[0]);
    var m := NextAfterPGW(cfg, w.guard.store, w.threads[t], path[0]);
    if kinds == [] {
      var s1 := Readdressed(s, res);
      var op := UpdateSubscriberIP(s.id, res.subscriberIP);
      Rewrites(w.guard.store, op, s);
      assert Edited(op, s) == s1;
      Quietly(w, w1, t, w.threads[t], m, s1);
      TunnellingComes(cfg, w1, t, path[1..], s1, res, ip, answer);
      CameLater(w, w1, Along(cfg, w, t, path), t, s1, s', [], rest);
      assert [] + rest == kinds + rest;
    } else {
      Calling(w, w1, t, w.threads[t], m, s);
      ReaddressingComes(cfg, w1, t, path[1..], s, kinds[1..], res, ip, answer);
      CameLater(w, w1, Along(cfg, w, t, path), t, s, s', [kinds[0]], kinds[1..] + rest);
      assert [kinds[0]] + (kinds[1..] + rest) == kinds + rest;
    }
  }

  lemma SameID(s: Session, res: PGWResult)
    ensures Answered(s, res).id == s.id && Answered(s, res).state == s.state
  {
  }

  /** What an activation has after the PGW answered. */
  function Settling(s: Session, answer: Option<PGWResult>): Session {
    if answer.Some? then Answered(s, answer.value) else s
  }

  /** The lease goes back early when the PGW assigns another address. */
  function EarlyCall(cfg: Config, s: Session, answer: Option<PGWResult>): seq<Kind> {
    if s.subscriberIP.Some? && answer.Some? && answer.value.subscriberIP.Some? && answer.value.subscriberIP != s.subscriberIP && cfg.hasIPAM
    then [ReleaseLease] else []
  }

  function CallsFromPGW(cfg: Config, s: Session, answer: Option<PGWResult>): seq<Kind> {
    [CreatePGW] + EarlyCall(cfg, s, answer) + (DatapathCalls(cfg) + AccessCall(cfg))
  }

  lemma OpeningComes(cfg: Config, w: World, t: ThreadID, path: seq<Choice>, s: Session, ip: IPv4, answer: Option<PGWResult>)
    requires t in w.threads && w.threads[t].phase == Opening(s) && Stored(w.guard.store, s) && s.state == PGWPending
    requires Settling(s, answer).subscriberIP.Some? && !TurnedDown(cfg, true, Settling(s, answer).(state := Active))
    requires Smooth(path, ip, answer) && |path| >= 12
    ensures Came(w, Along(cfg, w, t, path), t, Settling(s, answer).(state := Active), CallsFromPGW(cfg, s, answer))
  {
    hide Along, Went, Came, Further1, TurnedDown, AccessCall, DatapathCalls, Answered, Tunnelled;
    var s' := Settling(s, answer).(state := Active);
    var rest := DatapathCalls(cfg) + AccessCall(cfg);
    SmoothOn(cfg, w, t, path, ip, answer);
    BeforeStep(cfg, w, t, path[0]);
    var w1 := Went(cfg, w, t, path[0]);
    Calling(w, w1, t, w.threads[t], NextBeforePGW(cfg, w.guard, w.threads[t], path[0]), s);
    if answer.None? {
      TakenComes(cfg, w1, t, path[1..], s, ip, answer);
    } else {
      var res := answer.value;
      AnswerInParts(s, res);
      SameID(s, res);
      AnsweredIs(s, answer);
      if res.subscriberIP.None? || res.subscriberIP == s.subscriberIP {
        assert Readdressed(s, res) == s;
        TunnellingComes(cfg, w1, t, path[1..], s, res, ip, answer);
      } else {
        ReaddressingComes(cfg, w1, t, path[1..], s, EarlyCall(cfg, s, answer), res, ip, answer);
      }
    }
    assert EarlyCall(cfg, s, answer) == [] ==> [] + rest == rest;
    CameLater(w, w1, Along(cfg, w, t, path), t, s, s', [CreatePGW], EarlyCall(cfg, s, answer) + rest);
    assert [CreatePGW] + (EarlyCall(cfg, s, answer) + rest) == CallsFromPGW(cfg, s, answer);
  }

  // --- the guard, with nobody else of the same subscriber in the store ---

  predicate NoOther(st: Store, s: Session) {
    WellFormed(st) && forall k :: k in st.byID && k != s.id ==> !SubscriberSame(st.byID[k], s)
  }

  predicate Unopposed(g: OwnerGuard.Guard, s: Session, phase: OwnerGuard.Phase) {
    && s.id in g.activations && g.activations[s.id].pending == s && g.activations[s.id].phase == phase
    && forall c :: c in g.activations[s.id].candidates ==> c.id == s.id || !SubscriberSame(c, s)
  }

  lemma ReadsFindNobody(st: Store, s: Session)
    requires NoOther(st, s)
    ensures forall c :: c in OwnerGuard.Read1(st, s) + OwnerGuard.Read2(st, s) ==> c.id == s.id || !SubscriberSame(c, s)
  {
    hide SubscriberSame, FoundByIMSIAPN, FoundByMAC;
  }

  /** What OpeningComes gives, for the phases before. */
  ghost predicate ComesUp(cfg: Config, w: World, t: ThreadID, path: seq<Choice>, s: Session, answer: Option<PGWResult>) {
    Came(w, Along(cfg, w, t, path), t, Settling(s, answer).(state := Active), CallsFromPGW(cfg, s, answer))
  }

  predicate CanComeUp(cfg: Config, s: Session, answer: Option<PGWResult>) {
    Settling(s, answer).subscriberIP.Some? && !TurnedDown(cfg, true, Settling(s, answer).(state := Active))
  }

  lemma ComesUpLater(cfg: Config, w: World, t: ThreadID, path: seq<Choice>, s: Session, answer: Option<PGWResult>, w1: World)
    requires path != [] && w1 == Went(cfg, w, t, path[0]) && Further1(w, w1, t, s, []) && ComesUp(cfg, w1, t, path[1..], s, answer)
    ensures ComesUp(cfg, w, t, path, s, answer)
  {
    hide Went, Came, Further1, CallsFromPGW, Answered;
    Unrolled(cfg, w, t, path);
    if answer.Some? {
      SameID(s, answer.value);
    }
    CameLater(w, w1, Along(cfg, w, t, path), t, s, Settling(s, answer).(state := Active), [], CallsFromPGW(cfg, s, answer));
    assert [] + CallsFromPGW(cfg, s, answer) == CallsFromPGW(cfg, s, answer);
  }

  lemma DecidingComes(cfg: Config, w: World, t: ThreadID, path: seq<Choice>, s: Session, ip: IPv4, answer: Option<PGWResult>)
    requires t in w.threads && w.threads[t].phase == Deciding(s) && Stored(w.guard.store, s) && s.state == PGWPending
    requires Unopposed(w.guard, s, OwnerGuard.ReadBoth) && CanComeUp(cfg, s, answer) && Smooth(path, ip, answer) && |path| >= 13
    ensures ComesUp(cfg, w, t, path, s, answer)
  {
    hide Along, Went, Came, Further1, TurnedDown, CallsFromPGW, Settling, SubscriberSame;
    SmoothOn(cfg, w, t, path, ip, answer);
    BeforeStep(cfg, w, t, path[0]);
    var w1 := Went(cfg, w, t, path[0]);
    StoredAsItIs(w.guard.store, s);
    Quietly(w, w1, t, w.threads[t], NextBeforePGW(cfg, w.guard, w.threads[t], path[0]), s);
    OpeningComes(cfg, w1, t, path[1..], s, ip, answer);
    ComesUpLater(cfg, w, t, path, s, answer, w1);
  }

  lemma ReadingMACComes(cfg: Config, w: World, t: ThreadID, path: seq<Choice>, s: Session, ip: IPv4, answer: Option<PGWResult>)
    requires t in w.threads && w.threads[t].phase == ReadingMAC(s) && Stored(w.guard.store, s) && s.state == PGWPending
    requires NoOther(w.guard.store, s) && Unopposed(w.guard, s, OwnerGuard.ReadIMSI)
    requires CanComeUp(cfg, s, answer) && Smooth(path, ip, answer) && |path| >= 14
    ensures ComesUp(cfg, w, t, path, s, answer)
  {
    hide Along, Went, Came, Further1, TurnedDown, CallsFromPGW, Settling, SubscriberSame, CanComeUp, ComesUp;
    SmoothOn(cfg, w, t, path, ip, answer);
    BeforeStep(cfg, w, t, path[0]);
    ReadsFindNobody(w.guard.store, s);
    var w1 := Went(cfg, w, t, path[0]);
    StoredAsItIs(w.guard.store, s);
    Quietly(w, w1, t, w.threads[t], NextBeforePGW(cfg, w.guard, w.threads[t], path[0]), s);
    DecidingComes(cfg, w1, t, path[1..], s, ip, answer);
    ComesUpLater(cfg, w, t, path, s, answer, w1);
  }

  lemma ReadingIMSIComes(cfg: Config, w: World, t: ThreadID, path: seq<Choice>, s: Session, ip: IPv4, answer: Option<PGWResult>)
    requires t in w.threads && w.threads[t].phase == ReadingIMSI(s) && Stored(w.guard.store, s) && s.state == PGWPending
    requires NoOther(w.guard.store, s) && Unopposed(w.guard, s, OwnerGuard.Marked)
    requires CanComeUp(cfg, s, answer) && Smooth(path, ip, answer) && |path| >= 15
    ensures ComesUp(cfg, w, t, path, s, answer)
  {
    hide Along, Went, Came, Further1, TurnedDown, CallsFromPGW, Settling, SubscriberSame, CanComeUp, ComesUp;
    SmoothOn(cfg, w, t, path, ip, answer);
    BeforeStep(cfg, w, t, path[0]);
    ReadsFindNobody(w.guard.store, s);
    var w1 := Went(cfg, w, t, path[0]);
    StoredAsItIs(w.guard.store, s);
    Quietly(w, w1, t, w.threads[t], NextBeforePGW(cfg, w.guard, w.threads[t], path[0]), s);
    ReadingMACComes(cfg, w1, t, path[1..], s, ip, answer);
    ComesUpLater(cfg, w, t, path, s, answer, w1);
  }

  /** Marking a session is a rewrite of its record, and starts its activation at the guard. */
  lemma Marks(g: OwnerGuard.Guard, s: Session)
    requires Stored(g.store, s) && (s.state == Authorized || s.state == IPAllocated) && NoOther(g.store, s)
    ensures var g' := OwnerGuard.Do(g, OwnerGuard.MarkPending(s.id));
            var s1 := s.(state := PGWPending);
            && Enabled(g.store, MarkPGWPending(s.id)) && Edited(MarkPGWPending(s.id), s) == s1
            && g'.store.byID == g.store.byID[s.id := s1] && Stored(g'.store, s1) && NoOther(g'.store, s1)
            && Unopposed(g', s1, OwnerGuard.Marked)
  {
    hide Exec, SubscriberSame;
    Rewrites(g.store, MarkPGWPending(s.id), s);
    SameOthers(g.store, OwnerGuard.Do(g, OwnerGuard.MarkPending(s.id)).store, s, s.(state := PGWPending));
  }

  lemma SameOthers(st: Store, st': Store, s: Session, s': Session)
    requires NoOther(st, s) && SameIdentity(s, s') && s'.id == s.id && st'.byID == st.byID[s.id := s'] && st'.next == st.next
    requires s.id in st.byID
    ensures NoOther(st', s')
  {
    forall k | k in st'.byID && k != s.id ensures !SubscriberSame(st'.byID[k], s') {
      assert !SubscriberSame(st.byID[k], s);
    }
  }

  lemma MarkingComes(cfg: Config, w: World, t: ThreadID, path: seq<Choice>, s: Session, ip: IPv4, answer: Option<PGWResult>)
    requires t in w.threads && w.threads[t].phase == Marking(s) && Stored(w.guard.store, s)
    requires (s.state == Authorized || s.state == IPAllocated) && NoOther(w.guard.store, s)
    requires CanComeUp(cfg, s.(state := PGWPending), answer) && Smooth(path, ip, answer) && |path| >= 16
    ensures ComesUp(cfg, w, t, path, s.(state := PGWPending), answer)
  {
    hide Along, Went, Came, Further1, TurnedDown, CallsFromPGW, Settling, SubscriberSame, CanComeUp, ComesUp, NoOther, Unopposed,
         OwnerGuard.Do, Enabled, Edited;
    var s1 := s.(state := PGWPending);
    SmoothOn(cfg, w, t, path, ip, answer);
    BeforeStep(cfg, w, t, path[0]);
    Marks(w.guard, s);
    var w1 := Went(cfg, w, t, path[0]);
    Quietly(w, w1, t, w.threads[t], NextBeforePGW(cfg, w.guard, w.threads[t], path[0]), s1);
    ReadingIMSIComes(cfg, w1, t, path[1..], s1, ip, answer);
    ComesUpLater(cfg, w, t, path, s1, answer, w1);
  }

  /** The record when it is marked PGWPending: with the leased address, unless the PGW assigns them. */
  function Marked(cfg: Config, s: Session, ip: IPv4): Session {
    (if cfg.gtpMode then s else s.(subscriberIP := Some(ip))).(state := PGWPending)
  }

  function LeaseCall(cfg: Config): seq<Kind> {
    if cfg.gtpMode then [] else [AllocateLease]
  }

  /** From an authorized session with record s on. */
  ghost predicate Establishes(cfg: Config, w: World, t: ThreadID, path: seq<Choice>, s: Session, ip: IPv4, answer: Option<PGWResult>,
                              kinds: seq<Kind>) {
    Came(w, Along(cfg, w, t, path), t, Settling(Marked(cfg, s, ip), answer).(state := Active),
         kinds + CallsFromPGW(cfg, Marked(cfg, s, ip), answer))
  }

  lemma MarkedID(cfg: Config, s: Session, ip: IPv4, answer: Option<PGWResult>)
    ensures Settling(Marked(cfg, s, ip), answer).id == s.id
  {
  }

  lemma EstablishesLater(cfg: Config, w: World, t: ThreadID, path: seq<Choice>, s: Session, ip: IPv4, answer: Option<PGWResult>,
                         w1: World, s1: Session, now: seq<Kind>, kinds: seq<Kind>)
    requires path != [] && w1 == Went(cfg, w, t, path[0]) && s1.id == s.id && Further1(w, w1, t, s1, now)
    requires Establishes(cfg, w1, t, path[1..], s, ip, answer, kinds)
    ensures Establishes(cfg, w, t, path, s, ip, answer, now + kinds)
  {
    hide Went, Came, Further1, CallsFromPGW, Settling, Marked;
    var p := Marked(cfg, s, ip);
    Unrolled(cfg, w, t, path);
    MarkedID(cfg, s, ip, answer);
    CameLater(w, w1, Along(cfg, w, t, path), t, s1, Settling(p, answer).(state := Active), now, kinds + CallsFromPGW(cfg, p, answer));
    assert now + (kinds + CallsFromPGW(cfg, p, answer)) == (now + kinds) + CallsFromPGW(cfg, p, answer);
  }

  lemma AddressingComes(cfg: Config, w: World, t: ThreadID, path: seq<Choice>, s: Session, ip: IPv4, answer: Option<PGWResult>)
    requires t in w.threads && w.threads[t].phase == Addressing(s, ip) && Stored(w.guard.store, s) && !cfg.gtpMode
    requires s.state == Authorized && NoOther(w.guard.store, s) && CanComeUp(cfg, Marked(cfg, s, ip), answer)
    requires Smooth(path, ip, answer) && |path| >= 17
    ensures Establishes(cfg, w, t, path, s, ip, answer, [])
  {
    hide Along, Went, Came, Further1, TurnedDown, CallsFromPGW, Settling, SubscriberSame, CanComeUp, NoOther, Exec;
    var op := SetSubscriberIP(s.id, Some(ip));
    var s1 := s.(subscriberIP := Some(ip), state := IPAllocated);
    SmoothOn(cfg, w, t, path, ip, answer);
    BeforeStep(cfg, w, t, path[0]);
    Rewrites(w.guard.store, op, s);
    assert Edited(op, s) == s1;
    SameOthers(w.guard.store, Exec(w.guard.store, op), s, s1);
    var w1 := Went(cfg, w, t, path[0]);
    Quietly(w, w1, t, w.threads[t], NextBeforePGW(cfg, w.guard, w.threads[t], path[0]), s1);
    assert s1.(state := PGWPending) == Marked(cfg, s, ip);
    MarkingComes(cfg, w1, t, path[1..], s1, ip, answer);
    assert [] + CallsFromPGW(cfg, Marked(cfg, s, ip), answer) == CallsFromPGW(cfg, Marked(cfg, s, ip), answer);
    var none: seq<Kind> := [];
    EstablishesLater(cfg, w, t, path, s, ip, answer, w1, s1, none, none);
    assert none + none == none;
  }

  lemma LeasingComes(cfg: Config, w: World, t: ThreadID, path: seq<Choice>, s: Session, ip: IPv4, answer: Option<PGWResult>)
    requires t in w.threads && w.threads[t].phase == (if cfg.gtpMode then Marking(s) else Leasing(s)) && Stored(w.guard.store, s)
    requires s.state == Authorized && NoOther(w.guard.store, s) && CanComeUp(cfg, Marked(cfg, s, ip), answer)
    requires Smooth(path, ip, answer) && |path| >= 18
    ensures Establishes(cfg, w, t, path, s, ip, answer, LeaseCall(cfg))
  {
    hide Along, Went, Came, Further1, TurnedDown, CallsFromPGW, Settling, SubscriberSame, CanComeUp, NoOther;
    if cfg.gtpMode {
      MarkingComes(cfg, w, t, path, s, ip, answer);
      assert [] + CallsFromPGW(cfg, Marked(cfg, s, ip), answer) == CallsFromPGW(cfg, Marked(cfg, s, ip), answer);
    } else {
      SmoothOn(cfg, w, t, path, ip, answer);
      BeforeStep(cfg, w, t, path[0]);
      var w1 := Went(cfg, w, t, path[0]);
      Calling(w, w1, t, w.threads[t], NextBeforePGW(cfg, w.guard, w.threads[t], path[0]), s);
      AddressingComes(cfg, w1, t, path[1..], s, ip, answer);
      EstablishesLater(cfg, w, t, path, s, ip, answer, w1, s, [AllocateLease], []);
      assert [AllocateLease] + [] == LeaseCall(cfg);
    }
  }

  lemma Authorizes(st: Store, r: Session, auth: AuthResult)
    requires Stored(st, r) && r.state == AuthPending
    ensures var op := ApplyAuthResult(r.id, auth.imsi, auth.msisdn, auth.apn, auth.reason);
            && Enabled(st, op) && Edited(op, r) == Admitted(r, auth)
            && Exec(st, op).byID == st.byID[r.id := Admitted(r, auth)] && Exec(st, op).next == st.next
  {
    hide Exec;
    Rewrites(st, ApplyAuthResult(r.id, auth.imsi, auth.msisdn, auth.apn, auth.reason), r);
  }

  /** Nobody in the store is the same subscriber, before and after the authentication. */
  predicate NobodyElse(st: Store, r: Session, auth: AuthResult) {
    NoOther(st, r) && NoOther(st, Identified(r, auth))
  }

  lemma NobodyElseStays(st: Store, st': Store, r: Session, r': Session, auth: AuthResult)
    requires NobodyElse(st, r, auth) && SameIdentity(r, r') && r'.id == r.id && st'.byID == st.byID[r.id := r']
    requires st.next <= st'.next && r.id <= st'.next
    ensures NobodyElse(st', r', auth)
  {
    forall k | k in st'.byID && k != r.id ensures !SubscriberSame(st'.byID[k], r') && !SubscriberSame(st'.byID[k], Identified(r', auth)) {
      assert !SubscriberSame(st.byID[k], r) && !SubscriberSame(st.byID[k], Identified(r, auth));
    }
  }

  lemma AdmittedAlone(st: Store, st': Store, r: Session, auth: AuthResult)
    requires NobodyElse(st, r, auth) && st'.byID == st.byID[r.id := Admitted(r, auth)] && st'.next == st.next && r.id in st.byID
    ensures NoOther(st', Admitted(r, auth))
  {
    forall k | k in st'.byID && k != r.id ensures !SubscriberSame(st'.byID[k], Admitted(r, auth)) {
      assert !SubscriberSame(st.byID[k], Identified(r, auth));
    }
  }

  lemma AuthorizingComes(cfg: Config, w: World, t: ThreadID, path: seq<Choice>, r: Session, auth: AuthResult,
                         ip: IPv4, answer: Option<PGWResult>)
    requires t in w.threads && w.threads[t].phase == Authorizing(r.id, auth) && Stored(w.guard.store, r) && r.state == AuthPending
    requires NobodyElse(w.guard.store, r, auth) && CanComeUp(cfg, Marked(cfg, Admitted(r, auth), ip), answer)
    requires Smooth(path, ip, answer) && |path| >= 19
    ensures Establishes(cfg, w, t, path, Admitted(r, auth), ip, answer, LeaseCall(cfg))
  {
    hide Along, Went, Came, Further1, TurnedDown, CallsFromPGW, Settling, SubscriberSame, CanComeUp, NoOther, Exec, Enabled, Edited,
         NobodyElse, LeaseCall;
    var s := Admitted(r, auth);
    var op := ApplyAuthResult(r.id, auth.imsi, auth.msisdn, auth.apn, auth.reason);
    SmoothOn(cfg, w, t, path, ip, answer);
    AttachStep(cfg, w, t, path[0]);
    Authorizes(w.guard.store, r, auth);
    AdmittedAlone(w.guard.store, Exec(w.guard.store, op), r, auth);
    var w1 := Went(cfg, w, t, path[0]);
    Quietly(w, w1, t, w.threads[t], NextOfAttach(cfg, w.guard.store, w.threads[t], path[0]), s);
    LeasingComes(cfg, w1, t, path[1..], s, ip, answer);
    EstablishesLater(cfg, w, t, path, s, ip, answer, w1, s, [], LeaseCall(cfg));
    assert [] + LeaseCall(cfg) == LeaseCall(cfg);
  }

  /** The authorization an attach goes by is there already, or the authentication will say so
      without naming another lock. */
  predicate WillBe(a: Attach, auth: AuthResult, path: seq<Choice>) {
    && a.own.None?
    && (a.auth == Some(auth)
        || (a.auth.None? && KeyOf(Completed(a.who, auth)) == KeyOf(a.who) && forall i :: 0 <= i < |path| ==> path[i].auth == Some(auth)))
  }

  lemma AuthenticatingComes(cfg: Config, w: World, t: ThreadID, path: seq<Choice>, a: Attach, r: Session, auth: AuthResult,
                            ip: IPv4, answer: Option<PGWResult>)
    requires t in w.threads && Stored(w.guard.store, r) && r.state == AuthPending
    requires w.threads[t].phase == if a.auth.Some? then Authorizing(r.id, auth) else Authenticating(a, r.id)
    requires NobodyElse(w.guard.store, r, auth) && CanComeUp(cfg, Marked(cfg, Admitted(r, auth), ip), answer)
    requires WillBe(a, auth, path) && Smooth(path, ip, answer) && |path| >= 20
    ensures Establishes(cfg, w, t, path, Admitted(r, auth), ip, answer, LeaseCall(cfg))
  {
    hide Along, Went, Came, Further1, TurnedDown, CallsFromPGW, Settling, CanComeUp, NobodyElse, LeaseCall, KeyOf, Admitted, Establishes,
         Completed;
    if a.auth.Some? {
      AuthorizingComes(cfg, w, t, path, r, auth, ip, answer);
    } else {
      SmoothOn(cfg, w, t, path, ip, answer);
      AttachStep(cfg, w, t, path[0]);
      StoredAsItIs(w.guard.store, r);
      var w1 := Went(cfg, w, t, path[0]);
      Quietly(w, w1, t, w.threads[t], NextOfAttach(cfg, w.guard.store, w.threads[t], path[0]), r);
      AuthorizingComes(cfg, w1, t, path[1..], r, auth, ip, answer);
      AdmittedID(r, auth);
      EstablishesLater(cfg, w, t, path, Admitted(r, auth), ip, answer, w1, r, [], LeaseCall(cfg));
      assert [] + LeaseCall(cfg) == LeaseCall(cfg);
    }
  }

  lemma AdmittedID(r: Session, auth: AuthResult)
    ensures Admitted(r, auth).id == r.id && Admitted(r.(state := AuthPending), auth) == Admitted(r, auth)
  {
  }

  lemma BegunComes(cfg: Config, w: World, t: ThreadID, path: seq<Choice>, a: Attach, r: Session, auth: AuthResult,
                   ip: IPv4, answer: Option<PGWResult>)
    requires t in w.threads && Stored(w.guard.store, r) && r.state == Pending && w.threads[t].phase == Phase.Begun(a, r.id)
    requires NobodyElse(w.guard.store, r, auth) && CanComeUp(cfg, Marked(cfg, Admitted(r, auth), ip), answer)
    requires WillBe(a, auth, path) && Smooth(path, ip, answer) && |path| >= 21
    ensures Establishes(cfg, w, t, path, Admitted(r, auth), ip, answer, LeaseCall(cfg))
  {
    hide Along, Went, Came, Further1, TurnedDown, CallsFromPGW, Settling, CanComeUp, NobodyElse, LeaseCall, KeyOf, Admitted, Establishes,
         Completed, Exec;
    var op := MarkAuthPending(r.id);
    var r1 := r.(state := AuthPending);
    SmoothOn(cfg, w, t, path, ip, answer);
    AttachStep(cfg, w, t, path[0]);
    Rewrites(w.guard.store, op, r);
    assert Edited(op, r) == r1;
    NobodyElseKnown(w.guard.store, r, auth);
    NobodyElseStays(w.guard.store, Exec(w.guard.store, op), r, r1, auth);
    var w1 := Went(cfg, w, t, path[0]);
    Quietly(w, w1, t, w.threads[t], NextOfAttach(cfg, w.guard.store, w.threads[t], path[0]), r1);
    AdmittedID(r, auth);
    AuthenticatingComes(cfg, w1, t, path[1..], a, r1, auth, ip, answer);
    EstablishesLater(cfg, w, t, path, Admitted(r, auth), ip, answer, w1, r1, [], LeaseCall(cfg));
    assert [] + LeaseCall(cfg) == LeaseCall(cfg);
  }

  lemma NobodyElseKnown(st: Store, r: Session, auth: AuthResult)
    requires NobodyElse(st, r, auth) && r.id in st.byID
    ensures r.id <= st.next
  {
  }

  lemma CreatingComes(cfg: Config, w: World, t: ThreadID, path: seq<Choice>, a: Attach, auth: AuthResult,
                      ip: IPv4, answer: Option<PGWResult>)
    requires t in w.threads && w.threads[t].phase == Creating(a)
    requires var r := NewSession(w.guard.store.next + 1, a.input);
             NobodyElse(w.guard.store, r, auth) && CanComeUp(cfg, Marked(cfg, Admitted(r, auth), ip), answer)
    requires WillBe(a, auth, path) && Smooth(path, ip, answer) && |path| >= 22
    ensures Establishes(cfg, w, t, path, Admitted(NewSession(w.guard.store.next + 1, a.input), auth), ip, answer, LeaseCall(cfg))
  {
    hide Along, Went, Came, Further1, TurnedDown, CallsFromPGW, Settling, CanComeUp, NobodyElse, LeaseCall, KeyOf, Admitted, Establishes,
         Completed;
    var r := NewSession(w.guard.store.next + 1, a.input);
    SmoothOn(cfg, w, t, path, ip, answer);
    AttachStep(cfg, w, t, path[0]);
    var w1 := Went(cfg, w, t, path[0]);
    Quietly(w, w1, t, w.threads[t], NextOfAttach(cfg, w.guard.store, w.threads[t], path[0]), r);
    NobodyElseStays(w.guard.store, w1.guard.store, r, r, auth);
    BegunComes(cfg, w1, t, path[1..], a, r, auth, ip, answer);
    AdmittedID(r, auth);
    EstablishesLater(cfg, w, t, path, Admitted(r, auth), ip, answer, w1, r, [], LeaseCall(cfg));
    assert [] + LeaseCall(cfg) == LeaseCall(cfg);
  }

  /** A lookup that has nobody to find, and then a session of its own. */
  lemma LookingComes(cfg: Config, w: World, t: ThreadID, path: seq<Choice>, a: Attach, auth: AuthResult,
                     ip: IPv4, answer: Option<PGWResult>)
    requires t in w.threads && w.threads[t].phase == Looking(a) && a.who == InputIdentity(a.input)
    requires var r := NewSession(w.guard.store.next + 1, a.input);
             NobodyElse(w.guard.store, r, auth) && CanComeUp(cfg, Marked(cfg, Admitted(r, auth), ip), answer)
    requires WillBe(a, auth, path) && Smooth(path, ip, answer) && |path| >= 23
    ensures Establishes(cfg, w, t, path, Admitted(NewSession(w.guard.store.next + 1, a.input), auth), ip, answer, LeaseCall(cfg))
  {
    hide Along, Went, Came, TurnedDown, CallsFromPGW, Settling, CanComeUp, NobodyElse, LeaseCall, KeyOf, Admitted, Completed, Finished;
    var r := NewSession(w.guard.store.next + 1, a.input);
    SmoothOn(cfg, w, t, path, ip, answer);
    AttachStep(cfg, w, t, path[0]);
    NobodyMatches(w.guard.store, a, r, auth);
    var w1 := Went(cfg, w, t, path[0]);
    assert w1.threads == w.threads[t := Thread(Creating(a), w.threads[t].key)] && w1.guard == w.guard && w1.locks == w.locks;
    CreatingComes(cfg, w1, t, path[1..], a, auth, ip, answer);
    CameUnmoved(w, w1, Along(cfg, w, t, path), t, Settling(Marked(cfg, Admitted(r, auth), ip), answer).(state := Active),
                LeaseCall(cfg) + CallsFromPGW(cfg, Marked(cfg, Admitted(r, auth), ip), answer));
  }

  lemma NobodyMatches(st: Store, a: Attach, r: Session, auth: AuthResult)
    requires NobodyElse(st, r, auth) && r == NewSession(st.next + 1, a.input) && a.who == InputIdentity(a.input)
    ensures Matching(st, a.who.imsi, a.who.mac, a.who.apn) == {}
  {
    forall id | id in st.byID ensures !SubscriberMatches(st.byID[id], a.who.imsi, a.who.mac, a.who.apn) {
      MatchesAreSame(st.byID[id], r);
    }
  }

  /** A step that leaves everything but the goroutine as it was. */
  lemma CameUnmoved(w: World, w1: World, w': World, t: ThreadID, s': Session, kinds: seq<Kind>)
    requires t in w.threads && t in w1.threads && w1.threads == w.threads[t := w1.threads[t]] && w1.guard == w.guard && w1.calls == w.calls
    requires w1.threads[t].key == w.threads[t].key && w1.locks == w.locks && Came(w1, w', t, s', kinds)
    ensures Came(w, w', t, s', kinds)
  {
  }

  lemma CameUnlocked(w: World, w1: World, w': World, t: ThreadID, want: LockKey, s': Session, kinds: seq<Kind>)
    requires t in w.threads && w.threads[t].key.None? && want !in w.locks && w1.locks == w.locks[want := t]
    requires t in w1.threads && w1.threads == w.threads[t := w1.threads[t]] && w1.threads[t].key == Some(want)
    requires w1.calls == w.calls && w1.guard == w.guard && Came(w1, w', t, s', kinds)
    ensures Came(w, w', t, s', kinds)
  {
    assert w.locks[want := t] - {want} == w.locks;
  }

  /** The session record and the authorization that an attach works with. */
  predicate AttachesWith(cfg: Config, job: Job, input: CreateInput, auth: AuthResult, path: seq<Choice>) {
    match job
    case AuthorizedAttach(request, given) =>
      var req := WithDefaults(cfg, request);
      auth == Granted(req, given) && auth.allowed && input == AuthorizedInput(req, auth)
    case PlainAttach(request) =>
      && input == RequestedInput(WithDefaults(cfg, request))
      && KeyOf(Completed(InputIdentity(input), auth)) == KeyOf(InputIdentity(input))
      && forall i :: 0 <= i < |path| ==> path[i].auth == Some(auth)
    case _ => false
  }

  function AttachOf(cfg: Config, job: Job, input: CreateInput, auth: AuthResult): Attach
    requires job.AuthorizedAttach? || job.PlainAttach?
  {
    Attach(InputIdentity(input), WithDefaults(cfg, job.request).apn, input, if job.AuthorizedAttach? then Some(auth) else None, None)
  }

  /** An attach begins by waiting for its lock. */
  lemma AttachWaits(cfg: Config, w: World, t: ThreadID, job: Job, input: CreateInput, auth: AuthResult, path: seq<Choice>)
    requires t !in w.threads && AttachesWith(cfg, job, input, auth, path)
    ensures job.AuthorizedAttach? || job.PlainAttach?
    ensures var a := AttachOf(cfg, job, input, auth);
            && LockedRuns.Do(cfg, w, Turn.Begin(t, job))
               == w.(threads := w.threads[t := Thread(Queued(KeyOf(InputIdentity(input)), Looking(a)), None)])
            && WillBe(a, auth, path) && (path != [] ==> WillBe(a, auth, path[1..]))
  {
    hide KeyOf, Next;
  }

  /** What the calls of a smooth attach hand back. */
  function SmoothTally(cfg: Config, ip: IPv4, answer: Option<PGWResult>): Tally {
    Tally(true, if cfg.gtpMode then None else Some(ip), true, answer)
  }

  lemma BroughtInSteps(cfg: Config, r: Session, auth: AuthResult, ip: IPv4, answer: Option<PGWResult>)
    requires r.subscriberIP.None?
    ensures Settling(Marked(cfg, Admitted(r, auth), ip), answer).(state := Active) == Brought(r, auth, SmoothTally(cfg, ip, answer))
  {
    BroughtIs(r, auth, SmoothTally(cfg, ip, answer));
    assert Marked(cfg, Admitted(r, auth), ip) == Housed(Admitted(r, auth), SmoothTally(cfg, ip, answer)).(state := PGWPending);
  }

  /** An attach left alone, with its lock free, nobody else of its subscriber in the store, and
      calls that succeed, comes up: its session has the record that the method of the service
      ends with, and the calls are those of an activation, in their order. */
  lemma AttachComesUp(cfg: Config, w: World, t: ThreadID, job: Job, input: CreateInput, auth: AuthResult, path: seq<Choice>,
                      ip: IPv4, answer: Option<PGWResult>)
    requires t !in w.threads && AttachesWith(cfg, job, input, auth, path) && KeyOf(InputIdentity(input)) !in w.locks
    requires NobodyElse(w.guard.store, NewSession(w.guard.store.next + 1, input), auth)
    requires var s := Brought(NewSession(w.guard.store.next + 1, input), auth, SmoothTally(cfg, ip, answer));
             s.subscriberIP.Some? && !TurnedDown(cfg, true, s)
    requires Smooth(path, ip, answer) && |path| >= 24
    ensures var w' := Along(cfg, LockedRuns.Do(cfg, w, Turn.Begin(t, job)), t, path);
            var s := Brought(NewSession(w.guard.store.next + 1, input), auth, SmoothTally(cfg, ip, answer));
            && w'.guard.store.byID == w.guard.store.byID[s.id := s] && w'.locks == w.locks
            && w'.threads == w.threads[t := Thread(Gone, None)]
            && |w.calls| <= |w'.calls| && w'.calls[..|w.calls|] == w.calls
            && Kinds(w'.calls[|w.calls|..])
               == (if cfg.gtpMode then [] else [AllocateLease]) + ([CreatePGW]
                  + (if !cfg.gtpMode && answer.Some? && answer.value.subscriberIP !in [None, Some(ip)] && cfg.hasIPAM then [ReleaseLease] else [])
                  + ([InstallRoute] + (if cfg.hasUserPlane then [BindUser] else []) + (if cfg.hasAccessBinder then [BindAccess] else [])))
  {
    hide Along, Went, Came, TurnedDown, Settling, NobodyElse, KeyOf, Admitted, Completed, Brought, Kinds, Next, LockedRuns.Do, WillBe,
         AttachesWith, Answered, Smooth;
    var r := NewSession(w.guard.store.next + 1, input);
    BroughtInSteps(cfg, r, auth, ip, answer);
    var w0 := LockedRuns.Do(cfg, w, Turn.Begin(t, job));
    AttachWaits(cfg, w, t, job, input, auth, path);
    var a := AttachOf(cfg, job, input, auth);
    SmoothOn(cfg, w0, t, path, ip, answer);
    QueuedGoes(cfg, w0, t, path[0], KeyOf(InputIdentity(input)), Looking(a));
    var w1 := Went(cfg, w0, t, path[0]);
    LookingComes(cfg, w1, t, path[1..], a, auth, ip, answer);
    CameUnlocked(w0, w1, Along(cfg, w0, t, path), t, KeyOf(InputIdentity(input)), Brought(r, auth, SmoothTally(cfg, ip, answer)),
                 LeaseCall(cfg) + CallsFromPGW(cfg, Marked(cfg, Admitted(r, auth), ip), answer));
    AttachUnfolds(w, w0, Along(cfg, w0, t, path), t, Brought(r, auth, SmoothTally(cfg, ip, answer)),
                  LeaseCall(cfg) + CallsFromPGW(cfg, Marked(cfg, Admitted(r, auth), ip), answer));
    AdmittedUnhoused(r, auth);
  }

  lemma AdmittedUnhoused(r: Session, auth: AuthResult)
    ensures Admitted(r, auth).subscriberIP == r.subscriberIP
  {
  }

  lemma AttachUnfolds(w: World, w0: World, w': World, t: ThreadID, s: Session, kinds: seq<Kind>)
    requires t !in w.threads && t in w0.threads && w0.threads == w.threads[t := w0.threads[t]] && w0.threads[t].key.None?
    requires w0.guard == w.guard && w0.calls == w.calls && w0.locks == w.locks && Came(w0, w', t, s, kinds)
    ensures w'.guard.store.byID == w.guard.store.byID[s.id := s] && w'.locks == w.locks && w'.threads == w.threads[t := Thread(Gone, None)]
    ensures |w.calls| <= |w'.calls| && w'.calls[..|w.calls|] == w.calls && Kinds(w'.calls[|w.calls|..]) == kinds
  {
  }

  /** An attach whose lookup picks a session in use ends with nothing done. */
  lemma AttachReuses(cfg: Config, w: World, t: ThreadID, job: Job, input: CreateInput, auth: AuthResult, path: seq<Choice>, h: SessionID)
    requires t !in w.threads && AttachesWith(cfg, job, input, auth, path) && KeyOf(InputIdentity(input)) !in w.locks
    requires Patient(path) && |path| >= 3 && path[1].pick == h
    requires h in Matching(w.guard.store, input.imsi, input.mac, input.apn)
    requires InUse(cfg, w.guard.store.byID[h], WithDefaults(cfg, job.request).apn)
    ensures var w' := Along(cfg, LockedRuns.Do(cfg, w, Turn.Begin(t, job)), t, path);
            w' == w.(threads := w.threads[t := Thread(Gone, None)])
  {
    hide Along, Went, KeyOf, Completed, Next, LockedRuns.Do, Matching, WillBe, AttachesWith, InUse;
    var key := KeyOf(InputIdentity(input));
    var w0 := LockedRuns.Do(cfg, w, Turn.Begin(t, job));
    AttachWaits(cfg, w, t, job, input, auth, path);
    var a := AttachOf(cfg, job, input, auth);
    Unrolled(cfg, w0, t, path);
    QueuedGoes(cfg, w0, t, path[0], key, Looking(a));
    var w1 := Went(cfg, w0, t, path[0]);
    Unrolled(cfg, w1, t, path[1..]);
    LookingEnds(cfg, w1, t, path[1], a);
    var w2 := Went(cfg, w1, t, path[1]);
    EndingLeaves(cfg, w2, t, path[1..][1..]);
    assert w.locks[key := t] - {key} == w.locks;
  }

  lemma LookingEnds(cfg: Config, w: World, t: ThreadID, c: Choice, a: Attach)
    requires t in w.threads && w.threads[t].phase == Looking(a) && a.own.None?
    requires c.pick in Matching(w.guard.store, a.who.imsi, a.who.mac, a.who.apn)
    requires InUse(cfg, w.guard.store.byID[c.pick], a.reqAPN)
    ensures Went(cfg, w, t, c) == w.(threads := w.threads[t := Thread(Ending, w.threads[t].key)])
  {
    hide Went;
    AttachStep(cfg, w, t, c);
    InUseIffKept(cfg, w.guard.store.byID[c.pick], a.reqAPN);
  }
}
