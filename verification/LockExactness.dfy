/** For which subscribers the locks are enough, exactly: attaches under a set of identities,
    detaches and locked handlers keep the alternation of PGW sessions in every interleaving if
    and only if identities that match name the same lock. */
module LockExactness {
  import opened Wrappers
  import opened Sessions
  import opened SessionStore
  import opened CallLedger
  import opened Lifecycle
  import opened AttachFlow
  import opened LockedRuns
  import OwnerGuard

  type Turn = LockedRuns.Step

  /** A session that is known by an identity. */
  function Bearer(who: Identity): Session {
    NewSession(0, CreateInput(who.imsi, "", who.mac, who.apn, "", 0))
  }

  /** Identities of which one takes the other's session for its own name the same lock. */
  ghost predicate LocksAgree(S: iset<Identity>) {
    forall x, y :: x in S && y in S && Matches(Bearer(x), y) ==> KeyOf(x) == KeyOf(y)
  }

  /** The identity an authorized attach goes by. */
  function IdentityOfAttach(cfg: Config, request: AttachRequest, given: Option<AuthResult>): Identity {
    var req := WithDefaults(cfg, request);
    InputIdentity(AuthorizedInput(req, Granted(req, given)))
  }

  /** Authorized attaches under the identities S, and the operations that take the lock of the
      session they end or end an Active one. */
  ghost predicate Within(cfg: Config, S: iset<Identity>, job: Job) {
    match job
    case AuthorizedAttach(request, given) => IdentityOfAttach(cfg, request, given) in S
    case PlainAttach(_) => false
    case AAADisconnection(_, _) => false
    case _ => true
  }

  /** The operations of a run. */
  ghost predicate Only(jobs: iset<Job>, steps: seq<Turn>) {
    forall i :: 0 <= i < |steps| && steps[i].Begin? ==> steps[i].job in jobs
  }

  ghost predicate AllWithin(cfg: Config, S: iset<Identity>, steps: seq<Turn>) {
    Only((iset job | Within(cfg, S, job)), steps)
  }

  // --- agreeing locks cover every step ---

  /** Past the point where a takedown could lose a PGW session. */
  predicate Past(st: Store, id: SessionID) {
    id in st.byID ==> Rank(st.byID[id].state) >= Rank(Active)
  }

  predicate Under(st: Store, key: Option<LockKey>, id: SessionID) {
    id in st.byID ==> key == Some(KeyOf(IdentityOf(st.byID[id])))
  }

  ghost predicate AttachTame(S: iset<Identity>, key: Option<LockKey>, a: Attach) {
    && a.own.None? && a.auth.Some? && a.who in S && InputIdentity(a.input) == a.who
    && Completed(a.who, a.auth.value) == a.who && key == Some(KeyOf(a.who))
  }

  /** What a goroutine of such a run knows of the sessions it names. */
  ghost predicate PhaseTame(S: iset<Identity>, st: Store, key: Option<LockKey>, p: Phase)
    decreases p
  {
    match p
    case Queued(want, onward) => PhaseTame(S, st, Some(want), onward)
    case Looking(a) => AttachTame(S, key, a)
    case Creating(a) => AttachTame(S, key, a)
    case Begun(a, id) => AttachTame(S, key, a) && id <= st.next && KnownAs(st, id, a.who)
    case Authenticating(_, _) => false
    case Authorizing(id, auth) =>
      id <= st.next && (id in st.byID ==> Completed(IdentityOf(st.byID[id]), auth) == IdentityOf(st.byID[id]))
    case Binding(s) => s.id <= st.next && Past(st, s.id)
    case Validating(s) => s.id <= st.next && Past(st, s.id)
    case Ousting(id, after) =>
      && id <= st.next && (Past(st, id) || Under(st, key, id))
      && (after.Some? ==> AttachTame(S, key, after.value))
    case Cleaning(_, _, _, after) => after.Some? ==> AttachTame(S, key, after.value)
    case Counting(s) => s.id <= st.next && KnownAs(st, s.id, IdentityOf(s))
    case Accounting(s, _) => s.id <= st.next && KnownAs(st, s.id, IdentityOf(s))
    case Rechecking(id, _) => id <= st.next && Under(st, key, id)
    case Suspending(id) => id <= st.next && Past(st, id)
    case _ => true
  }

  ghost predicate Tame(S: iset<Identity>, w: World) {
    && (forall id :: id in w.guard.store.byID ==> IdentityOf(w.guard.store.byID[id]) in S)
    && (forall t :: t in w.threads ==> PhaseTame(S, w.guard.store, w.threads[t].key, w.threads[t].phase))
  }

  /** Identities stay, ranks only rise, ids are not reused. */
  ghost predicate Settling(st: Store, st': Store) {
    && st.next <= st'.next
    && forall id: SessionID :: id <= st.next && id in st'.byID ==>
         id in st.byID && SameIdentity(st'.byID[id], st.byID[id]) && Rank(st'.byID[id].state) >= Rank(st.byID[id].state)
  }

  lemma StaysPast(st: Store, st': Store, key: Option<LockKey>, id: SessionID)
    requires Settling(st, st') && id <= st.next
    ensures id <= st'.next
    ensures Past(st, id) ==> Past(st', id)
    ensures Under(st, key, id) ==> Under(st', key, id)
    ensures forall who :: KnownAs(st, id, who) ==> KnownAs(st', id, who)
    ensures id in st'.byID ==> id in st.byID && IdentityOf(st'.byID[id]) == IdentityOf(st.byID[id])
  {
    hide KeyOf, Rank;
  }

  lemma SessionStaysTame(S: iset<Identity>, st: Store, st': Store, key: Option<LockKey>, p: Phase)
    requires Settling(st, st') && PhaseTame(S, st, key, p) && (p.Binding? || p.Validating? || p.Counting? || p.Accounting?)
    ensures PhaseTame(S, st', key, p)
  {
    hide KeyOf, Completed, Past, Under, KnownAs, AttachTame, IdentityOf, Settling, SameIdentity;
    StaysPast(st, st', key, p.s.id);
  }

  lemma NamedStaysTame(S: iset<Identity>, st: Store, st': Store, key: Option<LockKey>, p: Phase)
    requires Settling(st, st') && PhaseTame(S, st, key, p)
    requires p.Begun? || p.Authorizing? || p.Ousting? || p.Rechecking? || p.Suspending?
    ensures PhaseTame(S, st', key, p)
  {
    hide KeyOf, Completed, Past, Under, KnownAs, AttachTame, IdentityOf, Settling, SameIdentity;
    StaysPast(st, st', key, p.id);
  }

  lemma {:induction false} StaysTame(S: iset<Identity>, st: Store, st': Store, key: Option<LockKey>, p: Phase)
    requires Settling(st, st') && PhaseTame(S, st, key, p)
    ensures PhaseTame(S, st', key, p)
    decreases p
  {
    hide KeyOf, Completed, Past, Under, KnownAs, AttachTame, IdentityOf, Settling, SameIdentity;
    if p.Queued? {
      StaysTame(S, st, st', Some(p.want), p.onward);
    } else if p.Binding? || p.Validating? || p.Counting? || p.Accounting? {
      SessionStaysTame(S, st, st', key, p);
    } else if p.Begun? || p.Authorizing? || p.Ousting? || p.Rechecking? || p.Suspending? {
      NamedStaysTame(S, st, st', key, p);
    }
  }

  lemma TameIsCovered(S: iset<Identity>, w: World, step: Turn)
    requires Tame(S, w)
    ensures CoveredStep(w, step)
  {
    hide KeyOf, AttachTame;
  }

  /** What a move does to the store. */
  function StoreAfter(st: Store, act: Option<OwnerGuard.Step>): Store {
    match act
    case None => st
    case Some(Call(op)) => Exec(st, op)
    case Some(MarkPending(id)) => Exec(st, MarkPGWPending(id))
    case Some(_) => st
  }

  lemma ActedStore(g: OwnerGuard.Guard, m: Move)
    ensures Acted(g, m).store == StoreAfter(g.store, m.act)
  {
  }

  lemma OpSettles(st: Store, op: Op)
    requires WellFormed(st)
    requires op.ApplyAuthResult? && op.id in st.byID ==> SameIdentity(Edited(op, st.byID[op.id]), st.byID[op.id])
    ensures Settling(st, Exec(st, op))
  {
    hide Exec, Rank;
    OwnerGuard.NextGrows(st, op);
    forall id: SessionID | id <= st.next && id in Exec(st, op).byID
      ensures id in st.byID && SameIdentity(Exec(st, op).byID[id], st.byID[id])
      ensures Rank(Exec(st, op).byID[id].state) >= Rank(st.byID[id].state)
    {
      RecordStep(st, op, id);
      RecordAfter(st, op, id);
    }
  }

  /** The identities in a store after an operation. */
  lemma OpKeepsIdentities(S: iset<Identity>, st: Store, op: Op)
    requires WellFormed(st) && (op.Create? ==> InputIdentity(op.input) in S)
    requires op.ApplyAuthResult? && op.id in st.byID ==> SameIdentity(Edited(op, st.byID[op.id]), st.byID[op.id])
    requires forall id :: id in st.byID ==> IdentityOf(st.byID[id]) in S
    ensures forall id :: id in Exec(st, op).byID ==> IdentityOf(Exec(st, op).byID[id]) in S
  {
    hide Exec;
    forall id | id in Exec(st, op).byID ensures IdentityOf(Exec(st, op).byID[id]) in S {
      RecordStep(st, op, id);
    }
  }

  /** The new place of the goroutine that moved, and what its operation leaves as it was. */
  ghost predicate TameMove(S: iset<Identity>, st: Store, m: Move) {
    && PhaseTame(S, StoreAfter(st, m.act), m.key, m.phase)
    && Settling(st, StoreAfter(st, m.act))
    && forall id :: id in StoreAfter(st, m.act).byID ==> IdentityOf(StoreAfter(st, m.act).byID[id]) in S
  }

  ghost predicate Known(S: iset<Identity>, g: OwnerGuard.Guard, calls: seq<Event>) {
    Sane(g, calls) && forall id :: id in g.store.byID ==> IdentityOf(g.store.byID[id]) in S
  }

  lemma NoOpIsTame(S: iset<Identity>, g: OwnerGuard.Guard, calls: seq<Event>, m: Move)
    requires Known(S, g, calls) && (m.act.None? || !(m.act.value.Call? || m.act.value.MarkPending?))
    requires PhaseTame(S, g.store, m.key, m.phase)
    ensures TameMove(S, g.store, m)
  {
    hide PhaseTame, Rank;
  }

  lemma OpIsTame(S: iset<Identity>, g: OwnerGuard.Guard, calls: seq<Event>, op: Op, m: Move)
    requires Known(S, g, calls) && (op.Create? ==> InputIdentity(op.input) in S)
    requires m.act == Some(OwnerGuard.Call(op)) || (op.MarkPGWPending? && m.act == Some(OwnerGuard.MarkPending(op.id)))
    requires op.ApplyAuthResult? && op.id in g.store.byID ==> SameIdentity(Edited(op, g.store.byID[op.id]), g.store.byID[op.id])
    requires PhaseTame(S, Exec(g.store, op), m.key, m.phase)
    ensures TameMove(S, g.store, m)
  {
    hide PhaseTame, Exec, Settling, Edit, Edited, Ledger, OwnerGuard.LaterSeesEarlier, AllPassed;
    OpSettles(g.store, op);
    OpKeepsIdentities(S, g.store, op);
  }

  lemma MatchesBearer(s: Session, who: Identity)
    ensures Matches(s, who) <==> Matches(Bearer(IdentityOf(s)), who)
  {
  }

  /** The takedown of an earlier session, where locks agree, is under that session's lock. */
  lemma LookedTame(cfg: Config, S: iset<Identity>, st: Store, key: Option<LockKey>, a: Attach, pick: SessionID)
    requires LocksAgree(S) && WellFormed(st) && AttachTame(S, key, a)
    requires forall id :: id in st.byID ==> IdentityOf(st.byID[id]) in S
    requires pick in Matching(st, a.who.imsi, a.who.mac, a.who.apn)
    ensures PhaseTame(S, st, key, Looked(cfg, st, a, pick))
  {
    hide KeyOf, Completed, ShouldReplaceExisting, IsLivePGWOwner, SubscriberMatches;
    MatchesBearer(st.byID[pick], a.who);
  }

  lemma AttachTameMoves(cfg: Config, S: iset<Identity>, g: OwnerGuard.Guard, calls: seq<Event>, th: Thread, c: Choice)
    requires LocksAgree(S) && Known(S, g, calls) && PhaseTame(S, g.store, th.key, th.phase)
    requires th.phase.Looking? || th.phase.Creating? || th.phase.Begun? || th.phase.Authorizing?
    ensures TameMove(S, g.store, NextOfAttach(cfg, g.store, th, c))
  {
    hide TameMove, Sane, LocksAgree, KeyOf, Exec, Matches, Looked, Matching;
    var m := NextOfAttach(cfg, g.store, th, c);
    match th.phase
    case Looking(a) =>
      if Matching(g.store, a.who.imsi, a.who.mac, a.who.apn) != {} && c.pick in Matching(g.store, a.who.imsi, a.who.mac, a.who.apn) {
        StoredWell(g, calls);
        LookedTame(cfg, S, g.store, th.key, a, c.pick);
      }
      NoOpIsTame(S, g, calls, m);
    case Creating(a) =>
      CreatedRecord(g.store, a.input);
      OpIsTame(S, g, calls, Create(a.input), m);
    case Begun(a, id) =>
      Wrote(g, calls, MarkAuthPending(id));
      OpIsTame(S, g, calls, MarkAuthPending(id), m);
    case Authorizing(id, auth) =>
      var op := ApplyAuthResult(id, auth.imsi, auth.msisdn, auth.apn, auth.reason);
      Wrote(g, calls, op);
      OpIsTame(S, g, calls, op, m);
  }

  lemma StoredWell(g: OwnerGuard.Guard, calls: seq<Event>)
    requires Sane(g, calls)
    ensures WellFormed(g.store)
  {
  }

  lemma BeforePGWTame(cfg: Config, S: iset<Identity>, g: OwnerGuard.Guard, calls: seq<Event>, th: Thread, c: Choice)
    requires Known(S, g, calls) && PhaseTame(S, g.store, th.key, th.phase)
    requires th.phase.Leasing? || th.phase.Addressing? || th.phase.Marking? || th.phase.ReadingIMSI? || th.phase.ReadingMAC?
             || th.phase.Deciding? || th.phase.Opening?
    ensures TameMove(S, g.store, NextBeforePGW(cfg, g, th, c))
  {
    hide TameMove, Sane, KeyOf, Exec, Edited, OwnerGuard.RivalFound;
    var m := NextBeforePGW(cfg, g, th, c);
    match m.act
    case Some(Call(op)) => OpIsTame(S, g, calls, op, m);
    case Some(MarkPending(id)) => OpIsTame(S, g, calls, MarkPGWPending(id), m);
    case _ => NoOpIsTame(S, g, calls, m);
  }

  lemma AfterPGWTame(cfg: Config, S: iset<Identity>, g: OwnerGuard.Guard, calls: seq<Event>, th: Thread, c: Choice)
    requires Known(S, g, calls) && PhaseTame(S, g.store, th.key, th.phase)
    requires th.phase.Readdressing? || th.phase.Tunnelling? || th.phase.Taken? || th.phase.Building? || th.phase.Binding? || th.phase.Validating?
    ensures TameMove(S, g.store, NextAfterPGW(cfg, g.store, th, c))
  {
    hide TameMove, Sane, KeyOf, Exec, Edited, Past, Enabled;
    var m := NextAfterPGW(cfg, g.store, th, c);
    match m.act
    case Some(Call(op)) => OpIsTame(S, g, calls, op, m);
    case _ => NoOpIsTame(S, g, calls, m);
  }

  lemma ActivatingTame(cfg: Config, S: iset<Identity>, g: OwnerGuard.Guard, calls: seq<Event>, th: Thread, c: Choice)
    requires Known(S, g, calls) && th.phase.Activating?
    ensures TameMove(S, g.store, NextAfterPGW(cfg, g.store, th, c))
  {
    hide TameMove, Sane, KeyOf, Exec, Edit;
    var op := MarkActive(th.phase.s.id);
    Wrote(g, calls, op);
    OpIsTame(S, g, calls, op, NextAfterPGW(cfg, g.store, th, c));
  }

  lemma TakedownTame(cfg: Config, S: iset<Identity>, g: OwnerGuard.Guard, calls: seq<Event>, th: Thread, c: Choice)
    requires Known(S, g, calls) && PhaseTame(S, g.store, th.key, th.phase)
    requires th.phase.Undoing? || th.phase.Ousting? || th.phase.Cleaning? || th.phase.Discarding? || th.phase.Discarded?
    ensures TameMove(S, g.store, NextOfRest(cfg, g.store, th, c))
  {
    hide TameMove, Sane, KeyOf, Exec, Edited, Settling, Enabled, DetachOrder, Fatal;
    var m := NextOfRest(cfg, g.store, th, c);
    match m.act
    case Some(Call(op)) => OpIsTame(S, g, calls, op, m);
    case _ => NoOpIsTame(S, g, calls, m);
  }

  lemma CountingTame(cfg: Config, S: iset<Identity>, g: OwnerGuard.Guard, calls: seq<Event>, th: Thread, c: Choice)
    requires Known(S, g, calls) && PhaseTame(S, g.store, th.key, th.phase) && th.phase.Counting?
    ensures TameMove(S, g.store, NextOfRest(cfg, g.store, th, c))
  {
    hide TameMove, Sane, KeyOf, Exec, Edit, DetachOrder, Fatal, Enabled, ValidTransition;
    var op := RecordGTPUError(th.phase.s.id, "GTP-U Error Indication");
    Wrote(g, calls, op);
    OpIsTame(S, g, calls, op, NextOfRest(cfg, g.store, th, c));
  }

  lemma AccountingTame(cfg: Config, S: iset<Identity>, g: OwnerGuard.Guard, calls: seq<Event>, th: Thread, c: Choice)
    requires Known(S, g, calls) && PhaseTame(S, g.store, th.key, th.phase) && th.phase.Accounting?
    ensures TameMove(S, g.store, NextOfRest(cfg, g.store, th, c))
  {
    hide TameMove, Sane, KeyOf, Exec, Edit, DetachOrder, Fatal, Enabled, ValidTransition;
    var op := ApplyAccounting(th.phase.s.id, th.phase.acct);
    Wrote(g, calls, op);
    OpIsTame(S, g, calls, op, NextOfRest(cfg, g.store, th, c));
  }

  lemma HandlerTame(cfg: Config, S: iset<Identity>, g: OwnerGuard.Guard, calls: seq<Event>, th: Thread, c: Choice)
    requires Known(S, g, calls) && PhaseTame(S, g.store, th.key, th.phase)
    requires th.phase.Rechecking? || th.phase.Suspending? || th.phase.Ending? || th.phase.Gone?
    ensures TameMove(S, g.store, NextOfRest(cfg, g.store, th, c))
  {
    hide TameMove, Sane, KeyOf, Exec, Edit, DetachOrder, Fatal, ValidTransition;
    var m := NextOfRest(cfg, g.store, th, c);
    if th.phase.Suspending? {
      var op := MarkRecovering(th.phase.id, "recovery");
      StoredWell(g, calls);
      OpSettles(g.store, op);
      OpIsTame(S, g, calls, op, m);
    } else {
      NoOpIsTame(S, g, calls, m);
    }
  }

  lemma EveryTameMove(cfg: Config, S: iset<Identity>, g: OwnerGuard.Guard, calls: seq<Event>, locks: map<LockKey, ThreadID>,
                      th: Thread, c: Choice)
    requires LocksAgree(S) && Known(S, g, calls) && PhaseTame(S, g.store, th.key, th.phase) && !th.phase.Lost?
    ensures TameMove(S, g.store, Next(cfg, g, locks, th, c))
  {
    hide TameMove, Sane, LocksAgree, KeyOf, NextOfAttach, NextBeforePGW, NextAfterPGW, NextOfRest, AttachTame;
    var p := th.phase;
    if p.Queued? {
      NoOpIsTame(S, g, calls, Next(cfg, g, locks, th, c));
    } else if p.Looking? || p.Creating? || p.Begun? || p.Authorizing? {
      AttachTameMoves(cfg, S, g, calls, th, c);
    } else if p.Leasing? || p.Addressing? || p.Marking? || p.ReadingIMSI? || p.ReadingMAC? || p.Deciding? || p.Opening? {
      BeforePGWTame(cfg, S, g, calls, th, c);
    } else if p.Activating? {
      ActivatingTame(cfg, S, g, calls, th, c);
    } else if p.Readdressing? || p.Tunnelling? || p.Taken? || p.Building? || p.Binding? || p.Validating? {
      AfterPGWTame(cfg, S, g, calls, th, c);
    } else if p.Undoing? || p.Ousting? || p.Cleaning? || p.Discarding? || p.Discarded? {
      TakedownTame(cfg, S, g, calls, th, c);
    } else if p.Counting? {
      CountingTame(cfg, S, g, calls, th, c);
    } else if p.Accounting? {
      AccountingTame(cfg, S, g, calls, th, c);
    } else {
      HandlerTame(cfg, S, g, calls, th, c);
    }
  }

  lemma FirstPhaseTame(cfg: Config, S: iset<Identity>, g: OwnerGuard.Guard, calls: seq<Event>, job: Job)
    requires Known(S, g, calls) && Within(cfg, S, job)
    ensures PhaseTame(S, g.store, None, FirstPhase(cfg, g.store, job))
  {
    hide KeyOf, OwnerGuard.LaterSeesEarlier, Ledger, AllPassed;
  }

  lemma StepTame(cfg: Config, S: iset<Identity>, w: World, step: Turn)
    requires LocksAgree(S) && Inv(w) && Tame(S, w) && (step.Begin? ==> Within(cfg, S, step.job))
    ensures CoveredStep(w, step) && Tame(S, LockedRuns.Do(cfg, w, step))
  {
    hide LocksAgree, Sane, PhaseTame, Next, FirstPhase, KeyOf, PhaseOK, Settling;
    TameIsCovered(S, w, step);
    var w' := LockedRuns.Do(cfg, w, step);
    match step
    case Begin(t, job) => FirstPhaseTame(cfg, S, w.guard, w.calls, job);
    case Go(t, c) =>
      if t in w.threads {
        LostIsNot(w, t);
        var m := Next(cfg, w.guard, w.locks, w.threads[t], c);
        EveryTameMove(cfg, S, w.guard, w.calls, w.locks, w.threads[t], c);
        ActedStore(w.guard, m);
        forall u | u in w'.threads && u != t ensures PhaseTame(S, w'.guard.store, w'.threads[u].key, w'.threads[u].phase) {
          StaysTame(S, w.guard.store, w'.guard.store, w.threads[u].key, w.threads[u].phase);
        }
      }
  }

  lemma {:induction false} RunsAreCovered(cfg: Config, S: iset<Identity>, w: World, steps: seq<Turn>)
    requires LocksAgree(S) && Inv(w) && Tame(S, w) && AllWithin(cfg, S, steps)
    ensures Covered(cfg, w, steps)
    decreases |steps|
  {
    hide LocksAgree, Inv, Tame, CoveredStep, LockedRuns.Do;
    if steps != [] {
      assert steps[0].Begin? ==> Within(cfg, S, steps[0].job);
      StepTame(cfg, S, w, steps[0]);
      match steps[0] {
        case Begin(t, job) => BeginKeepsInv(cfg, w, t, job);
        case Go(t, c) => GoKeepsInv(cfg, w, t, c);
      }
      RunsAreCovered(cfg, S, LockedRuns.Do(cfg, w, steps[0]), steps[1..]);
    }
  }

  /** Where locks agree, PGW sessions alternate in every interleaving. */
  lemma AgreeingLocksSuffice(cfg: Config, S: iset<Identity>, steps: seq<Turn>)
    requires LocksAgree(S) && AllWithin(cfg, S, steps)
    ensures var w := LockedRuns.Run(cfg, Nobody, steps); Alternates(w.calls) && NobodyLost(w)
  {
    hide LocksAgree, Inv, Alternates, Covered;
    NobodyInv();
    RunsAreCovered(cfg, S, Nobody, steps);
    CoveredRunsAlternate(cfg, steps);
  }

  // --- disagreeing locks do not ---

  /** Tunnel mode with nothing else configured. */
  const Bare: Config := Config(true, false, false, false, false, Off, "")

  const Quiet: Choice := Choice(false, 0, None, 0, None, None, true)

  /** The PGW answers with an address of its own. */
  const Answer: Choice := Quiet.(answer := Some(PGWResult(Some(1), None, None, 0, 0, 0)))

  function AttachOf(who: Identity): Job {
    AuthorizedAttach(AttachRequest(who.imsi, "", who.mac, who.apn, "", 0), None)
  }

  ghost predicate Reaches(jobs: iset<Job>, w: World) {
    exists steps :: Only(jobs, steps) && LockedRuns.Run(Bare, Nobody, steps) == w
  }

  lemma {:induction false} RunAppend(w: World, steps: seq<Turn>, step: Turn)
    ensures LockedRuns.Run(Bare, w, steps + [step]) == LockedRuns.Do(Bare, LockedRuns.Run(Bare, w, steps), step)
    decreases |steps|
  {
    hide LockedRuns.Do;
    if steps == [] {
      assert ([] + [step])[1..] == [];
    } else {
      assert (steps + [step])[0] == steps[0] && (steps + [step])[1..] == steps[1..] + [step];
      RunAppend(LockedRuns.Do(Bare, w, steps[0]), steps[1..], step);
    }
  }

  lemma OneMore(jobs: iset<Job>, w: World, step: Turn)
    requires Reaches(jobs, w) && (step.Begin? ==> step.job in jobs)
    ensures Reaches(jobs, LockedRuns.Do(Bare, w, step))
  {
    hide LockedRuns.Do;
    var steps :| Only(jobs, steps) && LockedRuns.Run(Bare, Nobody, steps) == w;
    RunAppend(Nobody, steps, step);
    assert Only(jobs, steps + [step]);
  }

  function Moved(w: World, t: ThreadID, c: Choice): World {
    LockedRuns.Do(Bare, w, Turn.Go(t, c))
  }

  function MovedOn(w: World, t: ThreadID, n: nat): World {
    if n == 0 then w else Moved(MovedOn(w, t, n - 1), t, Quiet)
  }

  lemma {:induction false} ReachesOn(jobs: iset<Job>, w: World, t: ThreadID, n: nat)
    requires Reaches(jobs, w)
    ensures Reaches(jobs, MovedOn(w, t, n))
  {
    hide LockedRuns.Do, Reaches;
    if n > 0 {
      ReachesOn(jobs, w, t, n - 1);
      OneMore(jobs, MovedOn(w, t, n - 1), Turn.Go(t, Quiet));
    }
  }

  /** A goroutine at the PGW with a session of its identity, under its lock. */
  predicate AtOpening(w: World, t: ThreadID, s: Session) {
    && t in w.threads && w.threads[t] == Thread(Opening(s), Some(KeyOf(IdentityOf(s))))
    && s.subscriberIP.None? && s.state == PGWPending
  }

  function Begun1(w: World, t: ThreadID, job: Job): World {
    LockedRuns.Do(Bare, w, Turn.Begin(t, job))
  }

  function AttachFor(x: Identity): Attach {
    var input := CreateInput(x.imsi, "", x.mac, x.apn, "", 0);
    Attach(x, x.apn, input, Some(AuthResult(true, x.imsi, "", x.apn, "authorized")), None)
  }

  /** A fresh attach under the identity x, and the operation it stands for. */
  ghost predicate StartsAs(job: Job, a: Attach, x: Identity) {
    && (forall st :: FirstPhase(Bare, st, job) == Queued(KeyOf(x), Looking(a)))
    && a.who == x && a.own.None? && InputIdentity(a.input) == x
  }

  lemma AttachStarts(x: Identity)
    ensures StartsAs(AttachOf(x), AttachFor(x), x)
  {
  }

  /** Attach, lock, and a lookup that finds nothing. */
  lemma LoneCreates(w: World, t: ThreadID, x: Identity, job: Job, a: Attach)
    requires w.guard.store.byID == map[] && t !in w.threads && KeyOf(x) !in w.locks && StartsAs(job, a, x)
    ensures var w' := MovedOn(Begun1(w, t, job), t, 2);
            w' == World(w.guard, w.locks[KeyOf(x) := t], w.threads[t := Thread(Creating(a), Some(KeyOf(x)))], w.calls)
  {
    hide KeyOf, FirstPhase, NextBeforePGW, NextAfterPGW, NextOfRest;
    var w0 := Begun1(w, t, job);
    assert w0.threads[t] == Thread(Queued(KeyOf(x), Looking(a)), None);
    var w1 := Moved(w0, t, Quiet);
    assert w1.threads[t] == Thread(Looking(a), Some(KeyOf(x)));
    assert Matching(w1.guard.store, x.imsi, x.mac, x.apn) == {};
    assert MovedOn(w0, t, 1) == w1;
  }

  /** One goroutine at phase p with the only stored session, under its lock. */
  predicate Stage(w: World, w': World, t: ThreadID, x: Identity, p: Phase, rec: Session) {
    && w'.threads == w.threads[t := Thread(p, Some(KeyOf(x)))] && w'.locks == w.locks[KeyOf(x) := t]
    && w'.calls == w.calls && w'.guard.store.byID == map[rec.id := rec] && rec.id <= w'.guard.store.next
    && IdentityOf(rec) == x && rec.subscriberIP.None?
  }

  /** The guard has the activation of this session, with nobody but it among the candidates. */
  predicate Unrivalled(g: OwnerGuard.Guard, s: Session, phase: OwnerGuard.Phase) {
    && s.id in g.activations && g.activations[s.id].pending == s && g.activations[s.id].phase == phase
    && s.state == PGWPending && forall k :: k in g.activations[s.id].candidates ==> k == s
  }

  lemma ExecOne(st: Store, op: Op)
    requires !op.Create? && !op.ExpireInactive? && !op.Delete? && Enabled(st, op) && st.byID[op.id].id == op.id
    ensures Exec(st, op).byID == st.byID[op.id := Edited(op, st.byID[op.id])] && Exec(st, op).next == st.next
  {
    ExecOnTable(st, op, st.byID[op.id], Edited(op, st.byID[op.id]));
  }

  lemma LoneBegins(w: World, w': World, t: ThreadID, x: Identity, a: Attach)
    requires w'.threads == w.threads[t := Thread(Creating(a), Some(KeyOf(x)))] && w'.locks == w.locks[KeyOf(x) := t]
    requires w'.calls == w.calls && w'.guard.store.byID == map[] && InputIdentity(a.input) == x
    ensures var id := w'.guard.store.next + 1;
            Stage(w, Moved(w', t, Quiet), t, x, Phase.Begun(a, id), NewSession(id, a.input))
  {
    hide KeyOf, NextBeforePGW, NextAfterPGW, NextOfRest;
    CreatedRecord(w'.guard.store, a.input);
  }

  lemma LoneAuthorizes(w: World, w': World, t: ThreadID, x: Identity, a: Attach, id: SessionID)
    requires Stage(w, w', t, x, Phase.Begun(a, id), NewSession(id, a.input))
    ensures Stage(w, Moved(w', t, Quiet), t, x, if a.auth.Some? then Authorizing(id, a.auth.value) else Authenticating(a, id),
                  NewSession(id, a.input).(state := AuthPending))
  {
    hide KeyOf, Exec, NextBeforePGW, NextAfterPGW, NextOfRest;
    ExecOne(w'.guard.store, MarkAuthPending(id));
  }

  /** The record of the only session, from AuthPending to Authorized under the identity x. */
  lemma IdentifyOne(st: Store, r: Session, auth: AuthResult)
    requires st.byID == map[r.id := r] && r.state == AuthPending
    ensures var op := ApplyAuthResult(r.id, auth.imsi, auth.msisdn, auth.apn, auth.reason);
            var s := Edited(op, r);
            && Enabled(st, op) && Exec(st, op).byID == map[r.id := s] && Exec(st, op).next == st.next
            && s.state == Authorized && s.subscriberIP == r.subscriberIP && IdentityOf(s) == Completed(IdentityOf(r), auth)
  {
    hide Exec;
    ExecOne(st, ApplyAuthResult(r.id, auth.imsi, auth.msisdn, auth.apn, auth.reason));
  }

  lemma LoneIdentifies(w: World, w': World, t: ThreadID, x: Identity, r: Session, auth: AuthResult) returns (s: Session)
    requires w'.threads == w.threads[t := Thread(Authorizing(r.id, auth), Some(KeyOf(x)))] && w'.locks == w.locks[KeyOf(x) := t]
    requires w'.calls == w.calls && w'.guard.store.byID == map[r.id := r] && r.id <= w'.guard.store.next
    requires r.state == AuthPending && r.subscriberIP.None? && Completed(IdentityOf(r), auth) == x
    ensures s.id == r.id && s.state == Authorized && Stage(w, Moved(w', t, Quiet), t, x, Marking(s), s)
  {
    hide KeyOf, Exec, Edit, Completed, NextBeforePGW, NextAfterPGW, NextOfRest;
    IdentifyOne(w'.guard.store, r, auth);
    s := Edited(ApplyAuthResult(r.id, auth.imsi, auth.msisdn, auth.apn, auth.reason), r);
  }

  lemma MarkOne(g: OwnerGuard.Guard, s: Session)
    requires g.store.byID == map[s.id := s] && s.state == Authorized
    ensures var g' := OwnerGuard.Do(g, OwnerGuard.MarkPending(s.id));
            var s' := Edited(MarkPGWPending(s.id), s);
            && Enabled(g.store, MarkPGWPending(s.id)) && s'.subscriberIP == s.subscriberIP
            && g'.store.byID == map[s.id := s'] && g'.store.next == g.store.next && Unrivalled(g', s', OwnerGuard.Marked)
  {
    hide Exec;
    ExecOne(g.store, MarkPGWPending(s.id));
  }

  lemma LoneMarks(w: World, w': World, t: ThreadID, x: Identity, s: Session) returns (s': Session)
    requires Stage(w, w', t, x, Marking(s), s) && s.state == Authorized
    ensures s'.id == s.id && s'.state == PGWPending && Stage(w, Moved(w', t, Quiet), t, x, ReadingIMSI(s'), s')
    ensures Unrivalled(Moved(w', t, Quiet).guard, s', OwnerGuard.Marked)
  {
    hide KeyOf, Exec, Edit, Enabled, Unrivalled, OwnerGuard.Do, NextOfAttach, NextAfterPGW, NextOfRest;
    MarkOne(w'.guard, s);
    s' := Edited(MarkPGWPending(s.id), s);
  }

  lemma LoneReads(w: World, w': World, t: ThreadID, x: Identity, s: Session)
    requires Stage(w, w', t, x, ReadingIMSI(s), s) && Unrivalled(w'.guard, s, OwnerGuard.Marked)
    ensures Stage(w, Moved(w', t, Quiet), t, x, ReadingMAC(s), s) && Unrivalled(Moved(w', t, Quiet).guard, s, OwnerGuard.ReadIMSI)
  {
    hide KeyOf, NextOfAttach, NextAfterPGW, NextOfRest;
  }

  lemma LoneReadsAgain(w: World, w': World, t: ThreadID, x: Identity, s: Session)
    requires Stage(w, w', t, x, ReadingMAC(s), s) && Unrivalled(w'.guard, s, OwnerGuard.ReadIMSI)
    ensures Stage(w, Moved(w', t, Quiet), t, x, Deciding(s), s) && Unrivalled(Moved(w', t, Quiet).guard, s, OwnerGuard.ReadBoth)
  {
    hide KeyOf, NextOfAttach, NextAfterPGW, NextOfRest;
  }

  lemma LoneDecides(w: World, w': World, t: ThreadID, x: Identity, s: Session)
    requires Stage(w, w', t, x, Deciding(s), s) && Unrivalled(w'.guard, s, OwnerGuard.ReadBoth)
    ensures Stage(w, Moved(w', t, Quiet), t, x, Opening(s), s)
  {
    hide KeyOf, NextOfAttach, NextAfterPGW, NextOfRest;
  }

  /** From an authorized session that is alone in the store to the PGW. */
  lemma LoneOnward(jobs: iset<Job>, w: World, w1: World, t: ThreadID, x: Identity, s1: Session) returns (w': World, s: Session)
    requires Reaches(jobs, w1) && Stage(w, w1, t, x, Marking(s1), s1) && s1.state == Authorized
    ensures Reaches(jobs, w') && Stage(w, w', t, x, Opening(s), s) && s.state == PGWPending && s.id == s1.id
  {
    hide Reaches, Stage, KeyOf, LockedRuns.Do, Unrivalled;
    ReachesOn(jobs, w1, t, 4);
    s := LoneMarks(w, MovedOn(w1, t, 0), t, x, s1);
    LoneReads(w, MovedOn(w1, t, 1), t, x, s);
    LoneReadsAgain(w, MovedOn(w1, t, 2), t, x, s);
    LoneDecides(w, MovedOn(w1, t, 3), t, x, s);
    w' := MovedOn(w1, t, 4);
  }

  lemma StageAt(w: World, w': World, t: ThreadID, x: Identity, p: Phase, rec: Session)
    requires Stage(w, w', t, x, p, rec)
    ensures w'.threads == w.threads[t := Thread(p, Some(KeyOf(x)))] && w'.locks == w.locks[KeyOf(x) := t] && w'.calls == w.calls
    ensures w'.guard.store.byID == map[rec.id := rec] && rec.id <= w'.guard.store.next
    ensures IdentityOf(rec) == x && rec.subscriberIP.None?
  {
  }

  /** From an empty store and with its lock free, an attach gets to the PGW. */
  lemma LoneAttach(jobs: iset<Job>, w: World, t: ThreadID, x: Identity) returns (w': World, s: Session)
    requires Reaches(jobs, w) && AttachOf(x) in jobs
    requires w.guard.store.byID == map[] && t !in w.threads && KeyOf(x) !in w.locks
    ensures Reaches(jobs, w') && Stage(w, w', t, x, Opening(s), s) && s.state == PGWPending && s.id == w.guard.store.next + 1
  {
    hide Reaches, Stage, KeyOf, LockedRuns.Do, Unrivalled, StartsAs;
    var a := AttachFor(x);
    AttachStarts(x);
    var w0 := Begun1(w, t, AttachOf(x));
    OneMore(jobs, w, Turn.Begin(t, AttachOf(x)));
    ReachesOn(jobs, w0, t, 5);
    LoneCreates(w, t, x, AttachOf(x), a);
    LoneBegins(w, MovedOn(w0, t, 2), t, x, a);
    var id := w.guard.store.next + 1;
    LoneAuthorizes(w, MovedOn(w0, t, 3), t, x, a, id);
    var r := NewSession(id, a.input).(state := AuthPending);
    StageAt(w, MovedOn(w0, t, 4), t, x, Authorizing(id, a.auth.value), r);
    var s1 := LoneIdentifies(w, MovedOn(w0, t, 4), t, x, r, a.auth.value);
    w', s := LoneOnward(jobs, w, MovedOn(w0, t, 5), t, x, s1);
  }

  /** Thread t has the only stored session under takedown; the others are as in w. */
  predicate Clearing(w: World, w': World, t: ThreadID, s: Session, kinds: seq<Kind>) {
    && w'.threads.Keys == w.threads.Keys && t in w.threads
    && (forall u :: u in w.threads && u != t ==> w'.threads[u] == w.threads[u])
    && w'.threads[t].phase.Cleaning? && w'.threads[t].phase.s == s && w'.threads[t].phase.kinds == kinds
    && w'.guard.store.byID == map[s.id := s] && s.state == State.Terminating
  }

  lemma BareDetach()
    ensures DetachOrder(Bare) == [DeletePGW, RemoveRoute]
  {
  }

  lemma OustNext(st: Store, th: Thread, s: Session)
    requires th.phase.Ousting? && th.phase.id == s.id && st.byID == map[s.id := s] && s.state == PGWPending
    ensures var op := MarkTerminating(s.id);
            NextOfRest(Bare, st, th, Quiet) == Store1(th, op, Cleaning(Edited(op, s), [DeletePGW, RemoveRoute], [], th.phase.after))
  {
    hide KeyOf, Exec, Edit, Fatal, Proceed;
    BareDetach();
  }

  /** A move of one of the later phases, carried out. */
  lemma RestMoves(w: World, t: ThreadID)
    requires t in w.threads && (w.threads[t].phase.Ousting? || w.threads[t].phase.Cleaning?)
    ensures Moved(w, t, Quiet) == Apply(w, t, w.threads[t], NextOfRest(Bare, w.guard.store, w.threads[t], Quiet))
  {
    hide NextOfRest, Apply;
  }

  lemma OustBegins(w: World, t: ThreadID, s: Session)
    requires t in w.threads && w.threads[t].phase.Ousting? && w.threads[t].phase.id == s.id
    requires w.guard.store.byID == map[s.id := s] && s.state == PGWPending
    ensures Clearing(w, Moved(w, t, Quiet), t, Edited(MarkTerminating(s.id), s), [DeletePGW, RemoveRoute])
  {
    hide KeyOf, Exec, Edited, Moved, NextOfRest;
    RestMoves(w, t);
    OustNext(w.guard.store, w.threads[t], s);
    ExecOne(w.guard.store, MarkTerminating(s.id));
  }

  lemma OustGoesOn(w: World, w': World, t: ThreadID, s: Session, kinds: seq<Kind>)
    requires Clearing(w, w', t, s, kinds) && kinds != []
    ensures Clearing(w, Moved(w', t, Quiet), t, s, kinds[1..])
  {
    hide KeyOf, Exec, Moved;
    RestMoves(w', t);
  }

  lemma OustEnds(w: World, w': World, t: ThreadID, s: Session)
    requires Clearing(w, w', t, s, [])
    ensures var w'' := Moved(w', t, Quiet);
            w''.guard.store.byID == map[] && w''.threads.Keys == w.threads.Keys
            && forall u :: u in w.threads && u != t ==> w''.threads[u] == w.threads[u]
  {
    hide KeyOf, Moved, Fatal, Proceed, Edited;
    RestMoves(w', t);
  }

  /** A takedown of the only session, which somebody else has brought to the PGW. */
  lemma OustedMeanwhile(w: World, t: ThreadID, s: Session)
    requires t in w.threads && w.threads[t].phase.Ousting? && w.threads[t].phase.id == s.id
    requires w.guard.store.byID == map[s.id := s] && s.state == PGWPending
    ensures var w' := MovedOn(w, t, 4);
            && w'.guard.store.byID == map[] && w'.threads.Keys == w.threads.Keys
            && forall u :: u in w.threads && u != t ==> w'.threads[u] == w.threads[u]
  {
    hide Clearing, LockedRuns.Do, Edited;
    var s' := Edited(MarkTerminating(s.id), s);
    OustBegins(w, t, s);
    assert MovedOn(w, t, 1) == Moved(w, t, Quiet);
    OustGoesOn(w, MovedOn(w, t, 1), t, s', [DeletePGW, RemoveRoute]);
    assert [DeletePGW, RemoveRoute][1..] == [RemoveRoute] && [RemoveRoute][1..] == [];
    OustGoesOn(w, MovedOn(w, t, 2), t, s', [RemoveRoute]);
    OustEnds(w, MovedOn(w, t, 3), t, s');
  }

  lemma TwiceOpened(calls: seq<Event>, s: Session, s': Session)
    requires SameIdentity(s, s') && (s.imsi != "" || s.mac != "")
    ensures !Alternates(calls + [Event(CreatePGW, s, None)] + [Event(CreatePGW, s', None)])
  {
    var all := calls + [Event(CreatePGW, s, None)] + [Event(CreatePGW, s', None)];
    var i := |calls|;
    assert Created(all[i]) && Created(all[i + 1]) && Detects(all[i].sess, all[i + 1].sess);
    assert !DeletedBetween(all, i, i + 1, s.id);
  }

  lemma AnswerArrives(w: World, t: ThreadID, s: Session)
    requires t in w.threads && w.threads[t].phase == Opening(s) && s.subscriberIP.None?
    ensures var w' := Moved(w, t, Answer);
            && w'.guard == w.guard && w'.locks == w.locks && w'.calls == w.calls + [Event(CreatePGW, s, None)]
            && w'.threads == w.threads[t := Thread(Readdressing(s, [], Answer.answer.value), w.threads[t].key)]
  {
    hide KeyOf, NextOfAttach, NextAfterPGW, NextOfRest;
  }

  lemma AnswerRefused(w: World, t: ThreadID, s: Session)
    requires t in w.threads && w.threads[t].phase == Readdressing(s, [], Answer.answer.value) && w.guard.store.byID == map[]
    ensures var w' := Moved(w, t, Quiet);
            && w'.guard.store.byID == map[] && w'.locks == w.locks && w'.calls == w.calls
            && w'.threads == w.threads[t := Thread(Lost(s.id), w.threads[t].key)]
  {
    hide KeyOf, NextOfAttach, NextBeforePGW, NextOfRest;
  }

  /** The PGW answers for a session that is gone: the store refuses its data, and the PGW
      session is lost. */
  lemma AnsweredTooLate(w: World, t: ThreadID, s: Session)
    requires AtOpening(w, t, s) && w.guard.store.byID == map[]
    ensures var w' := Moved(Moved(Moved(w, t, Answer), t, Quiet), t, Quiet);
            && w'.guard.store.byID == map[] && w'.calls == w.calls + [Event(CreatePGW, s, None)]
            && w'.threads == w.threads[t := Thread(Gone, None)] && KeyOf(IdentityOf(s)) !in w'.locks
    ensures Moved(Moved(w, t, Answer), t, Quiet).threads[t].phase == Lost(s.id)
  {
    hide KeyOf, Moved;
    AnswerArrives(w, t, s);
    var w1 := Moved(w, t, Answer);
    AnswerRefused(w1, t, s);
    LostLeaves(Moved(w1, t, Quiet), t, s);
  }

  lemma LostLeaves(w: World, t: ThreadID, s: Session)
    requires t in w.threads && w.threads[t].phase == Lost(s.id)
    ensures var w' := Moved(w, t, Quiet);
            && w'.guard == w.guard && w'.calls == w.calls && w'.threads == w.threads[t := Thread(Gone, None)]
            && forall k :: w.threads[t].key == Some(k) ==> k !in w'.locks
  {
    hide KeyOf, NextOfAttach, NextBeforePGW, NextAfterPGW;
  }

  lemma OpensAgain(w: World, t: ThreadID, s: Session)
    requires t in w.threads && w.threads[t].phase == Opening(s)
    ensures Moved(w, t, Answer).calls == w.calls + [Event(CreatePGW, s, None)]
  {
  }

  ghost predicate Breaks(jobs: iset<Job>) {
    exists w :: Reaches(jobs, w) && !Alternates(w.calls)
  }

  /** Once the session is gone that somebody has brought to the PGW, another attach of the same
      subscriber opens a second PGW session beside the first. */
  lemma Robbed(jobs: iset<Job>, w: World, t: ThreadID, s: Session, n: ThreadID)
    requires Reaches(jobs, w) && AtOpening(w, t, s) && w.guard.store.byID == map[] && n !in w.threads
    requires AttachOf(IdentityOf(s)) in jobs && (s.imsi != "" || s.mac != "")
    ensures Breaks(jobs)
  {
    hide Reaches, KeyOf, LockedRuns.Do, Alternates;
    var w1 := Moved(w, t, Answer);
    OneMore(jobs, w, Turn.Go(t, Answer));
    OneMore(jobs, w1, Turn.Go(t, Quiet));
    OneMore(jobs, Moved(w1, t, Quiet), Turn.Go(t, Quiet));
    AnsweredTooLate(w, t, s);
    var w3 := Moved(Moved(w1, t, Quiet), t, Quiet);
    var w4, s' := LoneAttach(jobs, w3, n, IdentityOf(s));
    OneMore(jobs, w4, Turn.Go(n, Answer));
    OpensAgain(w4, n, s');
    TwiceOpened(w.calls, s, s');
    assert Reaches(jobs, Moved(w4, n, Answer)) && !Alternates(Moved(w4, n, Answer).calls);
  }

  /** An attach whose lookup finds the session of somebody at the PGW goes to take it down. */
  lemma FindsOther(jobs: iset<Job>, w: World, t: ThreadID, s: Session, y: Identity) returns (w': World)
    requires Reaches(jobs, w) && AttachOf(y) in jobs && t !in w.threads && KeyOf(y) !in w.locks
    requires w.guard.store.byID == map[s.id := s] && s.state == PGWPending && Matches(s, y)
    ensures Reaches(jobs, w') && w'.guard == w.guard && w'.threads.Keys == w.threads.Keys + {t}
    ensures w'.threads[t].phase == Ousting(s.id, Some(AttachFor(y)))
    ensures forall u :: u in w.threads ==> w'.threads[u] == w.threads[u]
  {
    hide Reaches, KeyOf, SubscriberMatches, NextBeforePGW, NextAfterPGW, NextOfRest;
    var c := Quiet.(pick := s.id);
    var w0 := Begun1(w, t, AttachOf(y));
    OneMore(jobs, w, Turn.Begin(t, AttachOf(y)));
    assert w0.threads[t] == Thread(Queued(KeyOf(y), Looking(AttachFor(y))), None);
    var w1 := Moved(w0, t, Quiet);
    OneMore(jobs, w0, Turn.Go(t, Quiet));
    assert w1.threads[t] == Thread(Looking(AttachFor(y)), Some(KeyOf(y)));
    assert s.id in Matching(w1.guard.store, y.imsi, y.mac, y.apn);
    w' := Moved(w1, t, c);
    OneMore(jobs, w1, Turn.Go(t, c));
  }

  /** Two identities whose locks differ although one takes the session of the other. */
  lemma DisagreeingLocksBreak(jobs: iset<Job>, x: Identity, y: Identity)
    requires Matches(Bearer(x), y) && KeyOf(x) != KeyOf(y) && AttachOf(x) in jobs && AttachOf(y) in jobs
    ensures Breaks(jobs)
  {
    hide Reaches, KeyOf, LockedRuns.Do, Breaks, Stage;
    assert Reaches(jobs, Nobody) by {
      StartsAtNobody(jobs);
    }
    var w, s := LoneAttach(jobs, Nobody, 0, x);
    StageAt(Nobody, w, 0, x, Opening(s), s);
    MatchesBearer(s, y);
    var w1 := FindsOther(jobs, w, 1, s, y);
    OustedMeanwhile(w1, 1, s);
    ReachesOn(jobs, w1, 1, 4);
    Robbed(jobs, MovedOn(w1, 1, 4), 0, s, 2);
  }

  /** One such pair: a subscriber that is known by IMSI and MAC address, and an attach that
      names the MAC address alone. It takes the other lock, finds the session that is on its way
      to the PGW, and takes it down. */
  lemma MACOnlyAttachBreaks(imsi: string, mac: string, apn: string)
    requires imsi != "" && mac != ""
    ensures Breaks(iset{AttachOf(Identity(imsi, mac, apn)), AttachOf(Identity("", mac, apn))})
  {
    hide Breaks;
    var x, y := Identity(imsi, mac, apn), Identity("", mac, apn);
    DisagreeingLocksBreak(iset{AttachOf(x), AttachOf(y)}, x, y);
  }

  lemma StartsAtNobody(jobs: iset<Job>)
    ensures Reaches(jobs, Nobody)
  {
    assert Only(jobs, []);
  }

  lemma AttachIsWithin(S: iset<Identity>, x: Identity)
    requires x in S
    ensures Within(Bare, S, AttachOf(x))
  {
  }

  /** The subscriber locks keep PGW sessions alternating with their deletion in every
      interleaving of attaches under the identities S, whatever the configuration, if and only
      if of any two of them that match both name the same lock. */
  lemma LocksSufficeExactly(S: iset<Identity>)
    ensures (forall cfg, steps :: AllWithin(cfg, S, steps) ==> Alternates(LockedRuns.Run(cfg, Nobody, steps).calls)) <==> LocksAgree(S)
  {
    hide LockedRuns.Run, Alternates, KeyOf, Matches, Within;
    if LocksAgree(S) {
      forall cfg, steps | AllWithin(cfg, S, steps) ensures Alternates(LockedRuns.Run(cfg, Nobody, steps).calls) {
        AgreeingLocksSuffice(cfg, S, steps);
      }
    } else {
      var x, y :| x in S && y in S && Matches(Bearer(x), y) && KeyOf(x) != KeyOf(y);
      AttachIsWithin(S, x);
      AttachIsWithin(S, y);
      var jobs := iset job | Within(Bare, S, job);
      DisagreeingLocksBreak(jobs, x, y);
      var w :| Reaches(jobs, w) && !Alternates(w.calls);
      var steps :| Only(jobs, steps) && LockedRuns.Run(Bare, Nobody, steps) == w;
      assert AllWithin(Bare, S, steps);
    }
  }

  /** When that is: no two of the identities match of which one lacks the IMSI, or the APN,
      that the other has. */
  lemma LocksAgreeWhen(S: iset<Identity>)
    ensures LocksAgree(S) <==>
            forall x, y :: x in S && y in S && Matches(Bearer(x), y) ==> (x.imsi == "" <==> y.imsi == "") && SameAPN(x.apn, y.apn)
  {
    hide KeyOf, SubscriberMatches, SameAPN;
    forall x, y | Matches(Bearer(x), y)
      ensures KeyOf(x) == KeyOf(y) <==> (x.imsi == "" <==> y.imsi == "") && SameAPN(x.apn, y.apn)
    {
      LockCoverage(Bearer(x), y);
    }
  }

  /** The disconnection that takes no lock has to be left out: with it even a single subscriber
      can get a second PGW session. */
  lemma UnlockedDisconnectionBreaks(x: Identity)
    requires x.imsi != "" || x.mac != ""
    ensures Breaks(iset{AttachOf(x), AAADisconnection(Some(1), "")})
  {
    hide Reaches, KeyOf, Breaks, Stage;
    var jobs := iset{AttachOf(x), AAADisconnection(Some(1), "")};
    StartsAtNobody(jobs);
    var w, s := LoneAttach(jobs, Nobody, 0, x);
    StageAt(Nobody, w, 0, x, Opening(s), s);
    var w1 := Begun1(w, 1, AAADisconnection(Some(1), ""));
    OneMore(jobs, w, Turn.Begin(1, AAADisconnection(Some(1), "")));
    OustedMeanwhile(w1, 1, s);
    ReachesOn(jobs, w1, 1, 4);
    Robbed(jobs, MovedOn(w1, 1, 4), 0, s, 2);
  }

  // --- a detach that waits for the lock an attach has left ---

  const OldName: Identity := Identity("1", "m", "a")
  const NewName: Identity := Identity("2", "m", "a")
  const Renaming: AuthResult := AuthResult(true, "2", "", "a", "ok")
  const PlainRequest: AttachRequest := AttachRequest("1", "", "m", "a", "", 0)
  const Unknown: Attach := Attach(OldName, "a", CreateInput("1", "", "m", "a", "", 0), None, None)

  lemma NamesDiffer()
    ensures KeyOf(OldName) != KeyOf(NewName) && Completed(OldName, Renaming) == NewName
    ensures StartsAs(PlainAttach(PlainRequest), Unknown, OldName)
    ensures forall s: Session :: IdentityOf(s) == OldName ==> !Matches(s, NewName)
  {
  }

  /** The attach learns its IMSI, changes locks, finds nobody, and goes on. */
  lemma Renames(jobs: iset<Job>, w: World, r: Session) returns (w': World)
    requires Reaches(jobs, w) && 0 in w.threads && w.threads[0] == Thread(Authenticating(Unknown, r.id), Some(KeyOf(OldName)))
    requires w.locks == map[KeyOf(OldName) := 0] && w.guard.store.byID == map[r.id := r] && IdentityOf(r) == OldName
    ensures Reaches(jobs, w') && w'.guard == w.guard && w'.calls == w.calls && w'.locks == map[KeyOf(NewName) := 0]
    ensures w'.threads == w.threads[0 := Thread(Authorizing(r.id, Renaming), Some(KeyOf(NewName)))]
  {
    hide Reaches, KeyOf, Completed, StartsAs, NextBeforePGW, NextAfterPGW, NextOfRest, Exec;
    NamesDiffer();
    var c := Quiet.(auth := Some(Renaming));
    var second := Unknown.(who := NewName, auth := Some(Renaming), own := Some(r.id));
    OneMore(jobs, w, Turn.Go(0, c));
    var w1 := Moved(w, 0, c);
    assert w1.threads[0] == Thread(Queued(KeyOf(NewName), Looking(second)), None) && w1.locks == map[];
    OneMore(jobs, w1, Turn.Go(0, Quiet));
    var w2 := Moved(w1, 0, Quiet);
    assert w2.threads[0] == Thread(Looking(second), Some(KeyOf(NewName))) && w2.locks == map[KeyOf(NewName) := 0];
    assert Matching(w2.guard.store, "2", "m", "a") == {} by {
      assert !Matches(r, NewName);
    }
    OneMore(jobs, w2, Turn.Go(0, Quiet));
    w' := Moved(w2, 0, Quiet);
    assert w'.threads == w.threads[0 := Thread(Authorizing(r.id, Renaming), Some(KeyOf(NewName)))];
  }

  /** Attaches that authenticate have to be left out: a detach that has found the session under
      its old identity waits for the old lock, and gets it while the attach is at the PGW. */
  lemma DetachAfterRenamingBreaks()
    ensures Breaks(iset{PlainAttach(PlainRequest), DetachRequest(Some(1), "", ""), AttachOf(NewName)})
  {
    hide Reaches, KeyOf, Breaks, Stage, LockedRuns.Do, StartsAs, Completed;
    var detach := DetachRequest(Some(1), "", "");
    var jobs := iset{PlainAttach(PlainRequest), detach, AttachOf(NewName)};
    StartsAtNobody(jobs);
    NamesDiffer();
    var w, r := PlainAuthenticates(jobs);
    OneMore(jobs, w, Turn.Begin(1, detach));
    var w1 := Begun1(w, 1, detach);
    DetachQueues(w, r);
    var w2 := Renames(jobs, w1, r);
    var base := World(w1.guard, map[], w1.threads, w1.calls);
    var s1 := LoneIdentifies(base, w2, 0, NewName, r, Renaming);
    OneMore(jobs, w2, Turn.Go(0, Quiet));
    var w3, s := LoneOnward(jobs, base, Moved(w2, 0, Quiet), 0, NewName, s1);
    StageAt(base, w3, 0, NewName, Opening(s), s);
    DetachEnters(w3);
    OneMore(jobs, w3, Turn.Go(1, Quiet));
    var w4 := Moved(w3, 1, Quiet);
    OustedMeanwhile(w4, 1, s);
    ReachesOn(jobs, w4, 1, 4);
    Robbed(jobs, MovedOn(w4, 1, 4), 0, s, 2);
  }

  lemma PlainAuthenticates(jobs: iset<Job>) returns (w: World, r: Session)
    requires PlainAttach(PlainRequest) in jobs
    ensures Reaches(jobs, w) && r.id == 1 && r.state == AuthPending && Stage(Nobody, w, 0, OldName, Authenticating(Unknown, 1), r)
  {
    hide Reaches, KeyOf, Stage, LockedRuns.Do, StartsAs;
    StartsAtNobody(jobs);
    NamesDiffer();
    var job := PlainAttach(PlainRequest);
    var w0 := Begun1(Nobody, 0, job);
    OneMore(jobs, Nobody, Turn.Begin(0, job));
    ReachesOn(jobs, w0, 0, 4);
    LoneCreates(Nobody, 0, OldName, job, Unknown);
    LoneBegins(Nobody, MovedOn(w0, 0, 2), 0, OldName, Unknown);
    LoneAuthorizes(Nobody, MovedOn(w0, 0, 3), 0, OldName, Unknown, 1);
    w, r := MovedOn(w0, 0, 4), NewSession(1, Unknown.input).(state := AuthPending);
  }

  lemma DetachQueues(w: World, r: Session)
    requires Stage(Nobody, w, 0, OldName, Authenticating(Unknown, 1), r) && r.id == 1
    ensures var w1 := Begun1(w, 1, DetachRequest(Some(1), "", ""));
            w1 == w.(threads := w.threads[1 := Thread(Queued(KeyOf(OldName), Ousting(1, None)), None)])
    ensures w.threads == map[0 := Thread(Authenticating(Unknown, 1), Some(KeyOf(OldName)))]
    ensures w.locks == map[KeyOf(OldName) := 0] && w.guard.store.byID == map[1 := r] && IdentityOf(r) == OldName
    ensures r.subscriberIP.None? && 1 <= w.guard.store.next
  {
    hide KeyOf;
  }

  lemma DetachEnters(w: World)
    requires 1 in w.threads && w.threads[1] == Thread(Queued(KeyOf(OldName), Ousting(1, None)), None)
    requires KeyOf(OldName) !in w.locks
    ensures var w' := Moved(w, 1, Quiet);
            w'.guard == w.guard && w'.threads == w.threads[1 := Thread(Ousting(1, None), Some(KeyOf(OldName)))]
  {
    hide KeyOf, NextOfAttach, NextBeforePGW, NextAfterPGW, NextOfRest;
  }
}
