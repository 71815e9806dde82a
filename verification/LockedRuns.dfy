/** The lifecycle service with its goroutines taken apart: every call of the session manager,
    every foreign call, and every lock and unlock is one step, and the steps of different
    operations come in any order. The subscriber locks are a table. */
module LockedRuns {
  import opened Wrappers
  import opened Sessions
  import opened SessionStore
  import opened CallLedger
  import opened Lifecycle
  import opened AttachFlow
  import OwnerGuard

  type ThreadID = nat

  /** What a subscriber is known by. */
  datatype Identity = Identity(imsi: string, mac: string, apn: string)

  function IdentityOf(s: Session): Identity {
    Identity(s.imsi, s.mac, s.apn)
  }

  function KeyOf(who: Identity): LockKey {
    SubscriberLockKey(who.imsi, who.mac, who.apn)
  }

  /** Does a request under this identity take a session for an earlier one of its subscriber? */
  predicate Matches(s: Session, who: Identity) {
    SubscriberMatches(s, who.imsi, who.mac, who.apn)
  }

  /** A request that matches a session names the lock of that session exactly when both have
      an IMSI or neither has, and the APNs are the same. */
  lemma LockCoverage(s: Session, who: Identity)
    requires Matches(s, who)
    ensures KeyOf(IdentityOf(s)) == KeyOf(who) <==> (s.imsi == "" <==> who.imsi == "") && SameAPN(s.apn, who.apn)
  {
  }

  /** An identity as an authentication completes it. */
  function Completed(who: Identity, auth: AuthResult): Identity {
    Identity(Coalesce(auth.imsi, who.imsi), who.mac, Coalesce(auth.apn, who.apn))
  }

  /** An attach: the identity its lock and its lookup go by, the APN it asked for, and what is
      known so far. With own it has a session already and looks a second time. */
  datatype Attach = Attach(
    who: Identity, reqAPN: string, input: CreateInput, auth: Option<AuthResult>, own: Option<SessionID>)

  /** Where a goroutine is. Sessions are the records that earlier steps handed back. */
  datatype Phase =
    | Queued(want: LockKey, onward: Phase)
    | Looking(a: Attach)
    | Creating(a: Attach)
    | Begun(a: Attach, id: SessionID)
    | Authenticating(a: Attach, id: SessionID)
    | Authorizing(id: SessionID, auth: AuthResult)
    | Leasing(s: Session)
    | Addressing(s: Session, ip: IPv4)
    | Marking(s: Session)
    | ReadingIMSI(s: Session)
    | ReadingMAC(s: Session)
    | Deciding(s: Session)
    | Opening(s: Session)
    | Readdressing(s: Session, kinds: seq<Kind>, res: PGWResult)
    | Tunnelling(s: Session, res: PGWResult)
    | Taken(s: Session)
    | Building(s: Session, todo: seq<Kind>, undo: seq<Kind>)
    | Activating(s: Session)
    | Binding(s: Session)
    | Validating(s: Session)
    | Undoing(s: Session, kinds: seq<Kind>, fail: bool)
    | Ousting(id: SessionID, after: Option<Attach>)
    | Cleaning(s: Session, kinds: seq<Kind>, errs: seq<Failure>, after: Option<Attach>)
    | Discarding(id: SessionID)
    | Discarded(id: SessionID)
    | Counting(s: Session)
    | Accounting(s: Session, acct: string)
    | Rechecking(id: SessionID, activeOnly: bool)
    | Suspending(id: SessionID)
    | Lost(id: SessionID)
    | Ending
    | Gone

  datatype Thread = Thread(phase: Phase, key: Option<LockKey>)

  datatype World = World(
    guard: OwnerGuard.Guard, locks: map<LockKey, ThreadID>, threads: map<ThreadID, Thread>, calls: seq<Event>)

  const Nobody: World := World(OwnerGuard.Start, map[], map[], [])

  /** What the outside decides at a step: whether a wait ends, which match is picked, what a
      foreign call returns. */
  datatype Choice = Choice(
    giveUp: bool, pick: SessionID, err: Option<Failure>, ip: IPv4, auth: Option<AuthResult>,
    answer: Option<PGWResult>, alive: bool)

  /** How an operation begins. */
  datatype Job =
    | AuthorizedAttach(request: AttachRequest, given: Option<AuthResult>)
    | PlainAttach(request: AttachRequest)
    | DetachRequest(id: Option<SessionID>, imsi: string, mac: string)
    | ErrorIndication(teid: nat, pick: SessionID)
    | PGWDeletion(teid: nat)
    | AAADisconnection(id: Option<SessionID>, imsi: string)
    | AccountingStopped(found: SessionID, acct: string)

  datatype Step = Begin(t: ThreadID, job: Job) | Go(t: ThreadID, c: Choice)

  function AttachPhase(who: Identity, req: AttachRequest, input: CreateInput, auth: Option<AuthResult>): Phase {
    Queued(KeyOf(who), Looking(Attach(who, req.apn, input, auth, None)))
  }

  function InputIdentity(input: CreateInput): Identity {
    Identity(input.imsi, input.mac, input.apn)
  }

  /** The lookup an operation starts with, on the store as it is then. */
  function FirstPhase(cfg: Config, st: Store, job: Job): Phase {
    match job
    case AuthorizedAttach(request, given) =>
      var req := WithDefaults(cfg, request);
      var auth := Granted(req, given);
      var input := AuthorizedInput(req, auth);
      if auth.allowed then AttachPhase(InputIdentity(input), req, input, Some(auth)) else Gone
    case PlainAttach(request) =>
      var req := WithDefaults(cfg, request);
      var input := RequestedInput(req);
      AttachPhase(InputIdentity(input), req, input, None)
    case DetachRequest(id, imsi, mac) =>
      (match FindDetachSession(st, id, imsi, mac)
       case None => Gone
       case Some(s) => Queued(KeyOf(IdentityOf(s)), Ousting(s.id, None)))
    case ErrorIndication(teid, pick) =>
      if teid != 0 && pick in st.byID && st.byID[pick].remoteGTPUTEID == teid then Counting(st.byID[pick]) else Gone
    case PGWDeletion(teid) =>
      (match LookupByTEID(st, teid)
       case None => Gone
       case Some(s) => if s.state == Active then Suspending(s.id) else Gone)
    case AAADisconnection(id, imsi) =>
      (match FindDetachSession(st, id, imsi, "")
       case None => Gone
       case Some(s) => Ousting(s.id, None))
    case AccountingStopped(id, acct) =>
      if id in st.byID then Accounting(st.byID[id], acct) else Gone
  }

  /** What one step of a goroutine does to the rest: at most one step of the store or of the
      guard, at most one foreign call, and the lock it holds afterwards. */
  datatype Move = Move(act: Option<OwnerGuard.Step>, call: Option<Event>, key: Option<LockKey>, phase: Phase)

  function Silent(th: Thread, phase: Phase): Move {
    Move(None, None, th.key, phase)
  }

  function Store1(th: Thread, op: Op, phase: Phase): Move {
    Move(Some(OwnerGuard.Call(op)), None, th.key, phase)
  }

  function Ask(th: Thread, kind: Kind, s: Session, c: Choice, phase: Phase): Move {
    Move(None, Some(Event(kind, s, c.err)), th.key, phase)
  }

  function ReleaseOf(cfg: Config): seq<Kind> {
    if cfg.hasIPAM then [ReleaseLease] else []
  }

  function Undoes(k: Kind): Kind {
    if k == BindUser then UnbindUser else RemoveRoute
  }

  /** On from a lookup that leaves nothing in the way. */
  function Proceed(a: Attach): Phase {
    match a.own
    case None => Creating(a)
    case Some(id) => if a.auth.Some? then Authorizing(id, a.auth.value) else Ending
  }

  function Looked(cfg: Config, st: Store, a: Attach, pick: SessionID): Phase
    requires pick in st.byID
  {
    var s := st.byID[pick];
    if !IsLivePGWOwner(s.state) then Proceed(a)
    else if ShouldReplaceExisting(cfg, s, a.reqAPN) then Ousting(pick, Some(a))
    else if a.own.Some? then Discarding(a.own.value)
    else Ending
  }

  /** What a PGW answer calls for first: another address, after the lease is given back. */
  function AfterAnswer(cfg: Config, s: Session, answer: Option<PGWResult>): Phase {
    match answer
    case None => Taken(s)
    case Some(res) =>
      if res.subscriberIP.None? || res.subscriberIP == s.subscriberIP then Tunnelling(s, res)
      else Readdressing(s, if s.subscriberIP.Some? then ReleaseOf(cfg) else [], res)
  }

  function Fatal(kind: Kind, err: Option<Failure>): seq<Failure> {
    if err.Some? && !(kind == DeletePGW && NonFatal(err.value)) then [err.value] else []
  }

  /** The next step of a goroutine that looks for, replaces or creates a session. */
  function NextOfAttach(cfg: Config, st: Store, th: Thread, c: Choice): Move
    requires th.phase.Looking? || th.phase.Creating? || th.phase.Begun? || th.phase.Authenticating? || th.phase.Authorizing?
  {
    match th.phase
    case Looking(a) =>
      var matching := Matching(st, a.who.imsi, a.who.mac, a.who.apn);
      if matching == {} then Silent(th, Proceed(a))
      else if c.pick in matching then Silent(th, Looked(cfg, st, a, c.pick))
      else Silent(th, th.phase)
    case Creating(a) => Store1(th, Create(a.input), Begun(a, st.next + 1))
    case Begun(a, id) =>
      var op := MarkAuthPending(id);
      Store1(th, op, if !Enabled(st, op) then Ending
                     else if a.auth.Some? then Authorizing(id, a.auth.value) else Authenticating(a, id))
    case Authenticating(a, id) =>
      (match c.auth
       case None => Silent(th, Undoing(NewSession(id, a.input), [], true))
       case Some(auth) =>
         var who := Completed(a.who, auth);
         if KeyOf(who) == KeyOf(a.who) then Silent(th, Authorizing(id, auth))
         else Move(None, None, None, Queued(KeyOf(who), Looking(a.(who := who, auth := Some(auth), own := Some(id))))))
    case Authorizing(id, auth) =>
      var op := ApplyAuthResult(id, auth.imsi, auth.msisdn, auth.apn, auth.reason);
      if !Enabled(st, op) then Store1(th, op, Ending)
      else
        var s := Edited(op, st.byID[id]);
        Store1(th, op, if cfg.gtpMode then Marking(s) else Leasing(s))
  }

  /** The next step on the way to the PGW. */
  function NextBeforePGW(cfg: Config, g: OwnerGuard.Guard, th: Thread, c: Choice): Move
    requires th.phase.Leasing? || th.phase.Addressing? || th.phase.Marking? || th.phase.ReadingIMSI? || th.phase.ReadingMAC?
             || th.phase.Deciding? || th.phase.Opening?
  {
    var st := g.store;
    match th.phase
    case Leasing(s) => Ask(th, AllocateLease, s, c, if c.err.Some? then Undoing(s, [], true) else Addressing(s, c.ip))
    case Addressing(s, ip) =>
      var op := SetSubscriberIP(s.id, Some(ip));
      Store1(th, op, if Enabled(st, op) then Marking(Edited(op, st.byID[s.id])) else Undoing(s, ReleaseOf(cfg), false))
    case Marking(s) =>
      var op := MarkPGWPending(s.id);
      Move(Some(OwnerGuard.MarkPending(s.id)), None, th.key,
           if Enabled(st, op) then ReadingIMSI(Edited(op, st.byID[s.id])) else Undoing(s, ReleaseOf(cfg), false))
    case ReadingIMSI(s) => Move(Some(OwnerGuard.FindByIMSIAPN(s.id)), None, th.key, ReadingMAC(s))
    case ReadingMAC(s) => Move(Some(OwnerGuard.FindByMAC(s.id)), None, th.key, Deciding(s))
    case Deciding(s) =>
      if s.id !in g.activations then Silent(th, th.phase)
      else Move(Some(OwnerGuard.Decide(s.id)), None, th.key,
                if OwnerGuard.RivalFound(g.activations[s.id]) then Undoing(s, ReleaseOf(cfg), true) else Opening(s))
    case Opening(s) =>
      Ask(th, CreatePGW, s, c, if c.err.Some? then Undoing(s, ReleaseOf(cfg), true) else AfterAnswer(cfg, s, c.answer))
  }

  /** The next step once the PGW answered. A refused update loses the PGW session. */
  function NextAfterPGW(cfg: Config, st: Store, th: Thread, c: Choice): Move
    requires th.phase.Readdressing? || th.phase.Tunnelling? || th.phase.Taken? || th.phase.Building? || th.phase.Activating? || th.phase.Binding? || th.phase.Validating?
  {
    match th.phase
    case Readdressing(s, kinds, res) =>
      if kinds != [] then Ask(th, kinds[0], s, c, Readdressing(s, kinds[1..], res))
      else
        var op := UpdateSubscriberIP(s.id, res.subscriberIP);
        Store1(th, op, if Enabled(st, op) then Tunnelling(Edited(op, st.byID[s.id]), res) else Lost(s.id))
    case Tunnelling(s, res) =>
      if !SentTunnel(res) then Silent(th, Taken(s))
      else
        var op := ApplyPGWResult(s.id, res.controlIP, res.userIP, res.gtpcTEID, res.localGTPUTEID, res.remoteGTPUTEID);
        Store1(th, op, if Enabled(st, op) then Taken(Edited(op, st.byID[s.id])) else Lost(s.id))
    case Taken(s) =>
      Silent(th, if s.subscriberIP.None? then Undoing(s, [DeletePGW] + ReleaseOf(cfg), true)
                 else Building(s, [InstallRoute] + (if cfg.hasUserPlane then [BindUser] else []), []))
    case Building(s, todo, undo) =>
      if todo == [] then Silent(th, Activating(s))
      else Ask(th, todo[0], s, c, if c.err.Some? then Undoing(s, undo + [DeletePGW] + ReleaseOf(cfg), true)
                                  else Building(s, todo[1..], [Undoes(todo[0])] + undo))
    case Activating(s) =>
      var op := MarkActive(s.id);
      if !Enabled(st, op) then Store1(th, op, Lost(s.id))
      else
        var active := Edited(op, st.byID[s.id]);
        Store1(th, op, if cfg.hasAccessBinder then Binding(active) else Validating(active))
    case Binding(s) =>
      Ask(th, BindAccess, s, c,
          if c.err.Some? then Undoing(s, [UnbindUser, RemoveRoute, DeletePGW] + ReleaseOf(cfg), true) else Validating(s))
    case Validating(s) =>
      Silent(th, if cfg.validation == Reject && !(c.alive && Validated(s)) then Ousting(s.id, None) else Ending)
  }

  /** The next step of undoing, of a takedown, of a handler, or of leaving. */
  function NextOfRest(cfg: Config, st: Store, th: Thread, c: Choice): Move {
    match th.phase
    case Undoing(s, kinds, fail) =>
      if kinds != [] then Ask(th, kinds[0], s, c, Undoing(s, kinds[1..], fail))
      else if fail then Store1(th, MarkFailed(s.id, "attach failed"), Ending)
      else Silent(th, Ending)
    case Ousting(id, after) =>
      var op := MarkTerminating(id);
      Store1(th, op, if Enabled(st, op) then Cleaning(Edited(op, st.byID[id]), DetachOrder(cfg), [], after) else Ending)
    case Cleaning(s, kinds, errs, after) =>
      if kinds != [] then Ask(th, kinds[0], s, c, Cleaning(s, kinds[1..], errs + Fatal(kinds[0], c.err), after))
      else Store1(th, Delete(s.id),
                  if after.Some? && (errs == [] || ContextNotFound in errs) then Proceed(after.value) else Ending)
    case Discarding(id) =>
      Store1(th, MarkTerminating(id), if Enabled(st, MarkTerminating(id)) then Discarded(id) else Ending)
    case Discarded(id) => Store1(th, Delete(id), Ending)
    case Counting(s) =>
      var op := RecordGTPUError(s.id, "GTP-U Error Indication");
      var s' := if Enabled(st, op) then Edited(op, st.byID[s.id]) else s;
      Store1(th, op, if s'.state == Active then Queued(KeyOf(IdentityOf(s')), Rechecking(s.id, true)) else Ending)
    case Accounting(s, acct) =>
      Store1(th, ApplyAccounting(s.id, acct),
             if AccountingStopShouldDetach(s.state) then Queued(KeyOf(IdentityOf(s)), Rechecking(s.id, false)) else Ending)
    case Rechecking(id, activeOnly) =>
      if id !in st.byID then Silent(th, Ending)
      else if activeOnly then Silent(th, if st.byID[id].state == Active then Suspending(id) else Ending)
      else Silent(th, if AccountingStopShouldDetach(st.byID[id].state) then Ousting(id, None) else Ending)
    case Suspending(id) => Store1(th, MarkRecovering(id, "recovery"), Ousting(id, None))
    case Lost(_) => Move(None, None, None, Gone)
    case Ending => Move(None, None, None, Gone)
    case _ => Silent(th, th.phase)
  }

  function Next(cfg: Config, g: OwnerGuard.Guard, locks: map<LockKey, ThreadID>, th: Thread, c: Choice): Move {
    match th.phase
    case Queued(want, onward) =>
      if c.giveUp then Silent(th, Ending)
      else if want in locks || th.key.Some? then Silent(th, th.phase)
      else Move(None, None, Some(want), onward)
    case Looking(_) => NextOfAttach(cfg, g.store, th, c)
    case Creating(_) => NextOfAttach(cfg, g.store, th, c)
    case Begun(_, _) => NextOfAttach(cfg, g.store, th, c)
    case Authenticating(_, _) => NextOfAttach(cfg, g.store, th, c)
    case Authorizing(_, _) => NextOfAttach(cfg, g.store, th, c)
    case Leasing(_) => NextBeforePGW(cfg, g, th, c)
    case Addressing(_, _) => NextBeforePGW(cfg, g, th, c)
    case Marking(_) => NextBeforePGW(cfg, g, th, c)
    case ReadingIMSI(_) => NextBeforePGW(cfg, g, th, c)
    case ReadingMAC(_) => NextBeforePGW(cfg, g, th, c)
    case Deciding(_) => NextBeforePGW(cfg, g, th, c)
    case Opening(_) => NextBeforePGW(cfg, g, th, c)
    case Readdressing(_, _, _) => NextAfterPGW(cfg, g.store, th, c)
    case Tunnelling(_, _) => NextAfterPGW(cfg, g.store, th, c)
    case Taken(_) => NextAfterPGW(cfg, g.store, th, c)
    case Building(_, _, _) => NextAfterPGW(cfg, g.store, th, c)
    case Activating(_) => NextAfterPGW(cfg, g.store, th, c)
    case Binding(_) => NextAfterPGW(cfg, g.store, th, c)
    case Validating(_) => NextAfterPGW(cfg, g.store, th, c)
    case _ => NextOfRest(cfg, g.store, th, c)
  }

  /** The lock table after a goroutine t exchanged one lock for another. */
  function Relocked(locks: map<LockKey, ThreadID>, t: ThreadID, was: Option<LockKey>, now: Option<LockKey>): map<LockKey, ThreadID> {
    if was == now then locks
    else
      var freed := if was.Some? then locks - {was.value} else locks;
      if now.Some? then freed[now.value := t] else freed
  }

  function Apply(w: World, t: ThreadID, th: Thread, m: Move): World {
    World(if m.act.Some? then OwnerGuard.Do(w.guard, m.act.value) else w.guard,
          Relocked(w.locks, t, th.key, m.key),
          w.threads[t := Thread(m.phase, m.key)],
          if m.call.Some? then w.calls + [m.call.value] else w.calls)
  }

  function Do(cfg: Config, w: World, step: Step): World {
    match step
    case Begin(t, job) =>
      if t in w.threads then w
      else w.(threads := w.threads[t := Thread(FirstPhase(cfg, w.guard.store, job), None)])
    case Go(t, c) =>
      if t !in w.threads then w
      else Apply(w, t, w.threads[t], Next(cfg, w.guard, w.locks, w.threads[t], c))
  }

  function Run(cfg: Config, w: World, steps: seq<Step>): World
    decreases |steps|
  {
    if steps == [] then w else Run(cfg, Do(cfg, w, steps[0]), steps[1..])
  }

  // --- what a goroutine may rely on, and what it leaves to the others ---

  /** Under a takedown, or past it. */
  predicate Fallen(st: Store, id: SessionID) {
    id in st.byID ==> Rank(st.byID[id].state) >= Rank(State.Terminating)
  }

  /** The session a goroutine created and is still answerable for. */
  function Own(p: Phase): Option<SessionID> {
    match p
    case Queued(_, onward) => Own(onward)
    case Looking(a) => a.own
    case Begun(_, id) => Some(id)
    case Authenticating(_, id) => Some(id)
    case Authorizing(id, _) => Some(id)
    case Leasing(s) => Some(s.id)
    case Addressing(s, _) => Some(s.id)
    case Marking(s) => Some(s.id)
    case ReadingIMSI(s) => Some(s.id)
    case ReadingMAC(s) => Some(s.id)
    case Deciding(s) => Some(s.id)
    case Opening(s) => Some(s.id)
    case Readdressing(s, _, _) => Some(s.id)
    case Tunnelling(s, _) => Some(s.id)
    case Taken(s) => Some(s.id)
    case Building(s, _, _) => Some(s.id)
    case Activating(s) => Some(s.id)
    case Binding(s) => Some(s.id)
    case Validating(s) => Some(s.id)
    case Undoing(s, _, _) => Some(s.id)
    case Ousting(_, after) => if after.Some? then after.value.own else None
    case Cleaning(_, _, _, after) => if after.Some? then after.value.own else None
    case Discarding(id) => Some(id)
    case Discarded(id) => Some(id)
    case _ => None
  }

  /** A session id that exists and for which no PGW session was opened. */
  ghost predicate Fresh(g: OwnerGuard.Guard, calls: seq<Event>, id: SessionID) {
    id <= g.store.next && NeverCreated(calls, id)
  }

  /** The store still has a session under the identity who, if it has it. */
  predicate KnownAs(st: Store, id: SessionID, who: Identity) {
    id in st.byID ==> IdentityOf(st.byID[id]) == who
  }

  ghost predicate AttachOK(g: OwnerGuard.Guard, calls: seq<Event>, key: Option<LockKey>, a: Attach) {
    && key == Some(KeyOf(a.who))
    && match a.own
       case None => InputIdentity(a.input) == a.who && (a.auth.Some? ==> Completed(a.who, a.auth.value) == a.who)
       case Some(id) =>
         && a.auth.Some? && Fresh(g, calls, id)
         && (id in g.store.byID ==> Completed(IdentityOf(g.store.byID[id]), a.auth.value) == a.who)
  }

  /** A session on its way to the PGW: stored, pending, and under the lock that is held. */
  ghost predicate Claims(g: OwnerGuard.Guard, key: Option<LockKey>, s: Session, phase: OwnerGuard.Phase) {
    && s.id in g.store.byID && g.store.byID[s.id].state == PGWPending && SameIdentity(g.store.byID[s.id], s)
    && key == Some(KeyOf(IdentityOf(s)))
    && s.id in g.activations && g.activations[s.id].phase == phase
  }

  ghost predicate Locks(g: OwnerGuard.Guard, calls: seq<Event>, key: Option<LockKey>, id: SessionID) {
    Fresh(g, calls, id) && (id in g.store.byID ==> key == Some(KeyOf(IdentityOf(g.store.byID[id]))))
  }

  predicate NoCreate(kinds: seq<Kind>) {
    CreatePGW !in kinds
  }

  /** What holds of a goroutine wherever it is. */
  ghost predicate PhaseOK(g: OwnerGuard.Guard, calls: seq<Event>, key: Option<LockKey>, p: Phase)
    decreases p
  {
    match p
    case Queued(want, onward) =>
      && key.None? && (onward.Looking? || onward.Ousting? || onward.Rechecking?)
      && PhaseOK(g, calls, Some(want), onward)
    case Looking(a) => AttachOK(g, calls, key, a)
    case Creating(a) => AttachOK(g, calls, key, a) && a.own.None?
    case Begun(a, id) => AttachOK(g, calls, key, a) && a.own.None? && Fresh(g, calls, id) && KnownAs(g.store, id, a.who)
    case Authenticating(a, id) =>
      AttachOK(g, calls, key, a) && a.own.None? && a.auth.None? && Fresh(g, calls, id) && KnownAs(g.store, id, a.who)
    case Authorizing(id, auth) =>
      && Fresh(g, calls, id)
      && (id in g.store.byID ==> key == Some(KeyOf(Completed(IdentityOf(g.store.byID[id]), auth))))
    case Leasing(s) => Locks(g, calls, key, s.id)
    case Addressing(s, _) => Locks(g, calls, key, s.id)
    case Marking(s) => Locks(g, calls, key, s.id)
    case ReadingIMSI(s) => Fresh(g, calls, s.id) && Claims(g, key, s, OwnerGuard.Marked)
    case ReadingMAC(s) => Fresh(g, calls, s.id) && Claims(g, key, s, OwnerGuard.ReadIMSI)
    case Deciding(s) => Fresh(g, calls, s.id) && Claims(g, key, s, OwnerGuard.ReadBoth)
    case Opening(s) => Fresh(g, calls, s.id) && Claims(g, key, s, OwnerGuard.Passed)
    case Readdressing(s, kinds, _) => Claims(g, key, s, OwnerGuard.Passed) && NoCreate(kinds)
    case Tunnelling(s, _) => Claims(g, key, s, OwnerGuard.Passed)
    case Taken(s) => Claims(g, key, s, OwnerGuard.Passed)
    case Building(s, todo, undo) => Claims(g, key, s, OwnerGuard.Passed) && NoCreate(todo) && NoCreate(undo)
    case Activating(s) => Claims(g, key, s, OwnerGuard.Passed)
    case Binding(s) => s.id <= g.store.next
    case Validating(s) => s.id <= g.store.next
    case Undoing(s, kinds, fail) =>
      s.id <= g.store.next && NoCreate(kinds) && (fail ==> DeletePGW in kinds || Settled(calls, s.id))
    case Ousting(id, after) => after.Some? ==> AttachOK(g, calls, key, after.value)
    case Cleaning(s, kinds, _, after) =>
      && s.id <= g.store.next && Fallen(g.store, s.id) && NoCreate(kinds)
      && (DeletePGW in kinds || Settled(calls, s.id))
      && (after.Some? ==> AttachOK(g, calls, key, after.value))
    case Discarding(id) => Fresh(g, calls, id)
    case Discarded(id) => Fresh(g, calls, id) && Fallen(g.store, id)
    case Lost(_) => false
    case _ => true
  }

  /** What a step leaves alone: every session but mine keeps its identity and its place among
      the activations, ranks only rise, and a pending session that is locked elsewhere stays
      pending. */
  ghost predicate Steady(g: OwnerGuard.Guard, calls: seq<Event>, g': OwnerGuard.Guard, calls': seq<Event>,
                         mine: Option<SessionID>, key: Option<LockKey>) {
    && g.store.next <= g'.store.next
    && (forall id: SessionID :: id <= g.store.next ==> SteadyAt(g, calls, g', calls', id))
    && (forall id: SessionID :: id <= g.store.next && mine != Some(id) ==> OthersAt(g, calls, g', calls', key, id))
  }

  /** For every session, one's own included. */
  ghost predicate SteadyAt(g: OwnerGuard.Guard, calls: seq<Event>, g': OwnerGuard.Guard, calls': seq<Event>, id: SessionID) {
    && (Fallen(g.store, id) ==> Fallen(g'.store, id))
    && (Fallen(g.store, id) && Settled(calls, id) ==> Settled(calls', id))
  }

  ghost predicate OthersAt(g: OwnerGuard.Guard, calls: seq<Event>, g': OwnerGuard.Guard, calls': seq<Event>,
                           key: Option<LockKey>, id: SessionID) {
    && (id in g'.store.byID ==> id in g.store.byID && SameIdentity(g'.store.byID[id], g.store.byID[id]))
    && (NeverCreated(calls, id) ==> NeverCreated(calls', id))
    && (Settled(calls, id) ==> Settled(calls', id))
    && (id in g.activations ==> id in g'.activations && g'.activations[id] == g.activations[id])
    && (id in g.store.byID && g.store.byID[id].state == PGWPending && key != Some(KeyOf(IdentityOf(g.store.byID[id]))) ==>
          id in g'.store.byID && g'.store.byID[id].state == PGWPending)
  }

  lemma KeepsAttach(g: OwnerGuard.Guard, calls: seq<Event>, g': OwnerGuard.Guard, calls': seq<Event>,
                    mine: Option<SessionID>, key: Option<LockKey>, held: Option<LockKey>, a: Attach)
    requires Steady(g, calls, g', calls', mine, key) && AttachOK(g, calls, held, a) && (a.own.Some? ==> a.own != mine)
    ensures AttachOK(g', calls', held, a)
  {
    hide NeverCreated, Settled, KeyOf, Completed;
    if a.own.Some? {
      assert OthersAt(g, calls, g', calls', key, a.own.value);
    }
  }

  lemma KeepsClaim(g: OwnerGuard.Guard, calls: seq<Event>, g': OwnerGuard.Guard, calls': seq<Event>,
                   mine: Option<SessionID>, key: Option<LockKey>, held: Option<LockKey>, s: Session, phase: OwnerGuard.Phase)
    requires Steady(g, calls, g', calls', mine, key) && OwnerGuard.Tracks(g)
    requires Claims(g, held, s, phase) && mine != Some(s.id) && held != key
    ensures Claims(g', held, s, phase) && s.id <= g'.store.next
    ensures Fresh(g, calls, s.id) ==> Fresh(g', calls', s.id)
  {
    hide NeverCreated, Settled, KeyOf;
    assert OthersAt(g, calls, g', calls', key, s.id);
  }

  predicate Claiming(p: Phase) {
    p.ReadingIMSI? || p.ReadingMAC? || p.Deciding? || p.Opening? || p.Readdressing? || p.Tunnelling? || p.Taken? || p.Building?
    || p.Activating?
  }

  function ClaimOf(p: Phase): OwnerGuard.Phase {
    if p.ReadingIMSI? then OwnerGuard.Marked
    else if p.ReadingMAC? then OwnerGuard.ReadIMSI
    else if p.Deciding? then OwnerGuard.ReadBoth
    else OwnerGuard.Passed
  }

  lemma KeepsClaiming(g: OwnerGuard.Guard, calls: seq<Event>, g': OwnerGuard.Guard, calls': seq<Event>,
                      mine: Option<SessionID>, key: Option<LockKey>, p: Phase, held: Option<LockKey>)
    requires Steady(g, calls, g', calls', mine, key) && OwnerGuard.Tracks(g) && Claiming(p)
    requires PhaseOK(g, calls, held, p) && Own(p) != mine && held != key
    ensures PhaseOK(g', calls', held, p)
  {
    hide Steady, NeverCreated, Settled, KeyOf, Claims, Fresh, OwnerGuard.Tracks;
    KeepsClaim(g, calls, g', calls', mine, key, held, p.s, ClaimOf(p));
  }

  /** A goroutine that holds no lock, or another one, is not disturbed. */
  lemma KeepsOther(g: OwnerGuard.Guard, calls: seq<Event>, g': OwnerGuard.Guard, calls': seq<Event>,
                   mine: Option<SessionID>, key: Option<LockKey>, p: Phase, held: Option<LockKey>)
    requires Steady(g, calls, g', calls', mine, key) && OwnerGuard.Tracks(g)
    requires PhaseOK(g, calls, held, p) && (Own(p).Some? ==> Own(p) != mine) && (held.Some? ==> held != key)
    ensures PhaseOK(g', calls', held, p)
  {
    hide Steady, PhaseOK, Own, OwnerGuard.Tracks;
    if Claiming(p) {
      ClaimIsHeld(g, calls, p, held);
      KeepsClaiming(g, calls, g', calls', mine, key, p, held);
    } else if p.Queued? {
      QueuedOK(g, calls, p, held);
      KeepsQueued(g, calls, g', calls', mine, key, p.onward, p.want);
      QueuedAgain(g', calls', p, held);
    } else {
      KeepsRest(g, calls, g', calls', mine, key, p, held);
    }
  }

  lemma ClaimIsHeld(g: OwnerGuard.Guard, calls: seq<Event>, p: Phase, held: Option<LockKey>)
    requires PhaseOK(g, calls, held, p) && Claiming(p)
    ensures held.Some? && Own(p).Some?
  {
  }

  lemma QueuedOK(g: OwnerGuard.Guard, calls: seq<Event>, p: Phase, held: Option<LockKey>)
    requires PhaseOK(g, calls, held, p) && p.Queued?
    ensures PhaseOK(g, calls, Some(p.want), p.onward) && Own(p) == Own(p.onward) && held.None?
    ensures p.onward.Looking? || p.onward.Ousting? || p.onward.Rechecking?
  {
  }

  lemma QueuedAgain(g: OwnerGuard.Guard, calls: seq<Event>, p: Phase, held: Option<LockKey>)
    requires p.Queued? && held.None? && (p.onward.Looking? || p.onward.Ousting? || p.onward.Rechecking?)
    requires PhaseOK(g, calls, Some(p.want), p.onward)
    ensures PhaseOK(g, calls, held, p)
  {
  }

  lemma KeepsRest(g: OwnerGuard.Guard, calls: seq<Event>, g': OwnerGuard.Guard, calls': seq<Event>,
                  mine: Option<SessionID>, key: Option<LockKey>, p: Phase, held: Option<LockKey>)
    requires Steady(g, calls, g', calls', mine, key) && !Claiming(p) && !p.Queued?
    requires PhaseOK(g, calls, held, p) && (Own(p).Some? ==> Own(p) != mine)
    ensures PhaseOK(g', calls', held, p)
  {
    hide NeverCreated, Settled, KeyOf, Completed, AttachOK;
    if Own(p).Some? && Own(p).value <= g.store.next {
      assert SteadyAt(g, calls, g', calls', Own(p).value) && OthersAt(g, calls, g', calls', key, Own(p).value);
    }
    match p
    case Looking(a) => KeepsAttach(g, calls, g', calls', mine, key, held, a);
    case Creating(a) => KeepsAttach(g, calls, g', calls', mine, key, held, a);
    case Begun(a, _) => KeepsAttach(g, calls, g', calls', mine, key, held, a);
    case Authenticating(a, _) => KeepsAttach(g, calls, g', calls', mine, key, held, a);
    case Ousting(_, Some(a)) => KeepsAttach(g, calls, g', calls', mine, key, held, a);
    case Cleaning(s, _, _, after) =>
      assert SteadyAt(g, calls, g', calls', s.id);
      if after.Some? {
        KeepsAttach(g, calls, g', calls', mine, key, held, after.value);
      }
    case _ =>
  }

  lemma KeepsQueued(g: OwnerGuard.Guard, calls: seq<Event>, g': OwnerGuard.Guard, calls': seq<Event>,
                    mine: Option<SessionID>, key: Option<LockKey>, p: Phase, want: LockKey)
    requires Steady(g, calls, g', calls', mine, key)
    requires PhaseOK(g, calls, Some(want), p) && (Own(p).Some? ==> Own(p) != mine)
    requires p.Looking? || p.Ousting? || p.Rechecking?
    ensures PhaseOK(g', calls', Some(want), p)
  {
    KeepsRest(g, calls, g', calls', mine, key, p, Some(want));
  }

  // --- what a step may do to the rest ---

  /** The store calls a goroutine makes: on its own session any, on others those that count,
      suspend or take down, a takedown of a pending session only under its lock. */
  ghost predicate Allowed(g: OwnerGuard.Guard, calls: seq<Event>, op: Op, mine: Option<SessionID>, key: Option<LockKey>) {
    match op
    case Create(_) => true
    case ExpireInactive(_) => false
    case MarkTerminating(id) =>
      mine == Some(id) ||
      (id in g.store.byID && g.store.byID[id].state == PGWPending ==> key == Some(KeyOf(IdentityOf(g.store.byID[id]))))
    case RecordGTPUError(_, _) => true
    case ApplyAccounting(_, _) => true
    case MarkRecovering(_, _) => true
    case Delete(id) => Fallen(g.store, id) && id <= g.store.next
    case _ => mine == Some(op.id)
  }

  lemma RecordAfter(st: Store, op: Op, id: SessionID)
    requires WellFormed(st) && id <= st.next
    ensures id in Exec(st, op).byID ==>
              && id in st.byID && Rank(Exec(st, op).byID[id].state) >= Rank(st.byID[id].state)
              && ((op.ApplyAuthResult? && op.id == id) || SameIdentity(Exec(st, op).byID[id], st.byID[id]))
  {
    if id in Exec(st, op).byID {
      RecordStep(st, op, id);
      if Exec(st, op).byID[id] != st.byID[id] {
        RankOnlyRises(op, st.byID[id]);
      }
    }
  }

  lemma PendingAfter(g: OwnerGuard.Guard, calls: seq<Event>, op: Op, mine: Option<SessionID>, key: Option<LockKey>, id: SessionID)
    requires WellFormed(g.store) && Allowed(g, calls, op, mine, key) && mine != Some(id)
    requires id in g.store.byID && g.store.byID[id].state == PGWPending && key != Some(KeyOf(IdentityOf(g.store.byID[id])))
    ensures id in Exec(g.store, op).byID && Exec(g.store, op).byID[id].state == PGWPending
  {
    hide KeyOf;
    var st := g.store;
    if Enabled(st, op) && !op.Create? {
      ExecOnTable(st, op, st.byID[op.id], Edited(op, st.byID[op.id]));
    }
  }

  lemma AllowedSteady(g: OwnerGuard.Guard, calls: seq<Event>, op: Op, mine: Option<SessionID>, key: Option<LockKey>)
    requires OwnerGuard.Tracks(g) && Allowed(g, calls, op, mine, key)
    ensures Steady(g, calls, OwnerGuard.Do(g, OwnerGuard.Call(op)), calls, mine, key)
  {
    hide NeverCreated, Settled, Exec, KeyOf, Rank;
    var g' := OwnerGuard.Do(g, OwnerGuard.Call(op));
    OwnerGuard.NextGrows(g.store, op);
    forall id: SessionID | id <= g.store.next
      ensures SteadyAt(g, calls, g', calls, id) && (mine != Some(id) ==> OthersAt(g, calls, g', calls, key, id))
    {
      RecordAfter(g.store, op, id);
      if mine != Some(id) && id in g.store.byID && g.store.byID[id].state == PGWPending
         && key != Some(KeyOf(IdentityOf(g.store.byID[id]))) {
        PendingAfter(g, calls, op, mine, key, id);
      }
    }
  }

  /** A step of the guard for one's own session. */
  lemma GuardStepSteady(g: OwnerGuard.Guard, calls: seq<Event>, act: OwnerGuard.Step, id: SessionID, key: Option<LockKey>)
    requires OwnerGuard.Tracks(g)
    requires act == OwnerGuard.MarkPending(id) || act == OwnerGuard.FindByIMSIAPN(id) || act == OwnerGuard.FindByMAC(id)
             || act == OwnerGuard.Decide(id)
    ensures Steady(g, calls, OwnerGuard.Do(g, act), calls, Some(id), key)
  {
    hide NeverCreated, Settled, KeyOf;
    AllowedSteady(g, calls, MarkPGWPending(id), Some(id), key);
    var g1 := OwnerGuard.Do(g, OwnerGuard.Call(MarkPGWPending(id)));
    var g' := OwnerGuard.Do(g, act);
    forall k: SessionID | k <= g.store.next
      ensures SteadyAt(g, calls, g', calls, k) && (k != id ==> OthersAt(g, calls, g', calls, key, k))
    {
      assert SteadyAt(g, calls, g1, calls, k) && (k != id ==> OthersAt(g, calls, g1, calls, key, k));
    }
  }

  /** A foreign call; a PGW session only for one's own session, while it has not fallen. */
  lemma CallSteady(g: OwnerGuard.Guard, calls: seq<Event>, e: Event, mine: Option<SessionID>, key: Option<LockKey>)
    requires Created(e) ==> mine == Some(e.sess.id) && !Fallen(g.store, e.sess.id)
    ensures Steady(g, calls, g, calls + [e], mine, key)
  {
    forall id: SessionID | id <= g.store.next
      ensures SteadyAt(g, calls, g, calls + [e], id) && (mine != Some(id) ==> OthersAt(g, calls, g, calls + [e], key, id))
    {
      if !(Created(e) && e.sess.id == id) {
        if Settled(calls, id) {
          SettledLater(calls, e, id);
        }
        NeverLater(calls, e, id);
      }
    }
  }

  lemma NeverLater(calls: seq<Event>, e: Event, id: SessionID)
    requires !(Created(e) && e.sess.id == id)
    ensures NeverCreated(calls, id) ==> NeverCreated(calls + [e], id)
  {
  }

  // --- every move keeps what it must ---

  /** Every session a PGW session was opened for has passed the guard. */
  ghost predicate AllPassed(g: OwnerGuard.Guard, calls: seq<Event>) {
    forall i :: 0 <= i < |calls| && Created(calls[i]) ==>
      calls[i].sess.id in g.activations && g.activations[calls[i].sess.id].phase == OwnerGuard.Passed
  }

  ghost predicate Sane(g: OwnerGuard.Guard, calls: seq<Event>) {
    OwnerGuard.Tracks(g) && OwnerGuard.LaterSeesEarlier(g) && Ledger(g.store, calls) && AllPassed(g, calls)
  }

  function Acted(g: OwnerGuard.Guard, m: Move): OwnerGuard.Guard {
    if m.act.Some? then OwnerGuard.Do(g, m.act.value) else g
  }

  function Called(calls: seq<Event>, m: Move): seq<Event> {
    if m.call.Some? then calls + [m.call.value] else calls
  }

  ghost predicate GoodMove(g: OwnerGuard.Guard, calls: seq<Event>, th: Thread, m: Move) {
    var g' := Acted(g, m);
    var calls' := Called(calls, m);
    && Sane(g', calls') && Steady(g, calls, g', calls', Own(th.phase), th.key)
    && PhaseOK(g', calls', m.key, m.phase)
    && (Own(m.phase).Some? ==> Own(m.phase) == Own(th.phase) || Own(m.phase) == Some(g.store.next + 1))
  }

  lemma StandsStill(g: OwnerGuard.Guard, calls: seq<Event>, mine: Option<SessionID>, key: Option<LockKey>)
    ensures Steady(g, calls, g, calls, mine, key)
  {
    forall id: SessionID | id <= g.store.next
      ensures SteadyAt(g, calls, g, calls, id) && OthersAt(g, calls, g, calls, key, id)
    {
    }
  }

  lemma OpMove(g: OwnerGuard.Guard, calls: seq<Event>, op: Op, mine: Option<SessionID>, key: Option<LockKey>)
    requires Sane(g, calls) && Allowed(g, calls, op, mine, key) && (EndsLife(op) ==> Settled(calls, op.id))
    ensures var g' := OwnerGuard.Do(g, OwnerGuard.Call(op));
            Sane(g', calls) && Steady(g, calls, g', calls, mine, key) && g.store.next <= g'.store.next
  {
    hide Ledger, Settled, Steady, OwnerGuard.Tracks, OwnerGuard.LaterSeesEarlier, Exec;
    AllowedSteady(g, calls, op, mine, key);
    OwnerGuard.StepKeepsOrder(g, OwnerGuard.Call(op));
    OpKeepsLedger(g.store, calls, op);
    OwnerGuard.NextGrows(g.store, op);
  }

  lemma CallMove(g: OwnerGuard.Guard, calls: seq<Event>, e: Event, mine: Option<SessionID>, key: Option<LockKey>)
    requires Sane(g, calls) && !Created(e)
    ensures Sane(g, calls + [e]) && Steady(g, calls, g, calls + [e], mine, key)
  {
    hide Ledger, Steady, OwnerGuard.Tracks, OwnerGuard.LaterSeesEarlier;
    CallSteady(g, calls, e, mine, key);
    OtherCallKeepsLedger(g.store, calls, e);
  }

  /** A move that only calls the store. */
  lemma StoreMove(g: OwnerGuard.Guard, calls: seq<Event>, op: Op, th: Thread, m: Move)
    requires Sane(g, calls) && Allowed(g, calls, op, Own(th.phase), th.key) && (EndsLife(op) ==> Settled(calls, op.id))
    requires m == Store1(th, op, m.phase) && PhaseOK(g.(store := Exec(g.store, op)), calls, th.key, m.phase)
    requires Own(m.phase).Some? ==> Own(m.phase) == Own(th.phase) || Own(m.phase) == Some(g.store.next + 1)
    ensures GoodMove(g, calls, th, m)
  {
    hide Ledger, Settled, Steady, OwnerGuard.Tracks, OwnerGuard.LaterSeesEarlier, AllPassed, Exec, PhaseOK, Allowed, Own;
    OpMove(g, calls, op, Own(th.phase), th.key);
  }

  /** A move that only looks. */
  lemma SilentMove(g: OwnerGuard.Guard, calls: seq<Event>, th: Thread, m: Move)
    requires Sane(g, calls) && m.act.None? && m.call.None? && PhaseOK(g, calls, m.key, m.phase)
    requires Own(m.phase).Some? ==> Own(m.phase) == Own(th.phase)
    ensures GoodMove(g, calls, th, m)
  {
    hide Ledger, Settled, Steady, OwnerGuard.Tracks, OwnerGuard.LaterSeesEarlier, AllPassed, PhaseOK, Own;
    StandsStill(g, calls, Own(th.phase), th.key);
  }

  /** A move that only calls out and opens nothing. */
  lemma CallingMove(g: OwnerGuard.Guard, calls: seq<Event>, e: Event, th: Thread, m: Move)
    requires Sane(g, calls) && !Created(e) && m == Move(None, Some(e), th.key, m.phase)
    requires PhaseOK(g, calls + [e], th.key, m.phase) && (Own(m.phase).Some? ==> Own(m.phase) == Own(th.phase))
    ensures GoodMove(g, calls, th, m)
  {
    hide Ledger, Steady, OwnerGuard.Tracks, OwnerGuard.LaterSeesEarlier, AllPassed, PhaseOK, Own;
    CallMove(g, calls, e, Own(th.phase), th.key);
  }

  /** What an operation on one session leaves in the table. */
  lemma Wrote(g: OwnerGuard.Guard, calls: seq<Event>, op: Op)
    requires Sane(g, calls)
    ensures var st := g.store;
            !op.Create? && !op.ExpireInactive? && !op.Delete? && Enabled(st, op) ==>
              && op.id in st.byID && Exec(st, op).next == st.next
              && Exec(st, op).byID == st.byID[op.id := Edited(op, st.byID[op.id])]
    ensures !Enabled(g.store, op) ==> Exec(g.store, op) == g.store
    ensures forall id :: id in g.store.byID ==> g.store.byID[id].id == id && id <= g.store.next
  {
    var st := g.store;
    if !op.Create? && !op.ExpireInactive? && !op.Delete? && Enabled(st, op) {
      ExecOnTable(st, op, st.byID[op.id], Edited(op, st.byID[op.id]));
    }
  }

  lemma CreatedRecord(st: Store, input: CreateInput)
    ensures Exec(st, Create(input)).byID == st.byID[st.next + 1 := NewSession(st.next + 1, input)]
    ensures Exec(st, Create(input)).next == st.next + 1
  {
  }

  lemma NewIDIsFresh(g: OwnerGuard.Guard, calls: seq<Event>)
    requires Sane(g, calls)
    ensures NeverCreated(calls, g.store.next + 1)
  {
    forall i | 0 <= i < |calls| && Created(calls[i]) ensures calls[i].sess.id != g.store.next + 1 {
      assert Accounted(g.store, calls, i);
    }
  }

  lemma SettledIfFresh(calls: seq<Event>, id: SessionID)
    ensures NeverCreated(calls, id) ==> Settled(calls, id)
  {
  }

  lemma LookingMove(cfg: Config, g: OwnerGuard.Guard, calls: seq<Event>, th: Thread, c: Choice)
    requires th.phase.Looking? && Sane(g, calls) && PhaseOK(g, calls, th.key, th.phase)
    ensures GoodMove(g, calls, th, NextOfAttach(cfg, g.store, th, c))
  {
    hide GoodMove, Sane, Settled, NeverCreated, Exec, KeyOf, Edit, Matching, ShouldReplaceExisting;
    var m := NextOfAttach(cfg, g.store, th, c);
    SilentMove(g, calls, th, m);
  }

  lemma CreatingMove(cfg: Config, g: OwnerGuard.Guard, calls: seq<Event>, th: Thread, c: Choice)
    requires th.phase.Creating? && Sane(g, calls) && PhaseOK(g, calls, th.key, th.phase)
    ensures GoodMove(g, calls, th, NextOfAttach(cfg, g.store, th, c))
  {
    hide GoodMove, Sane, Settled, NeverCreated, Exec, KeyOf, Edit;
    var m := NextOfAttach(cfg, g.store, th, c);
    CreatedRecord(g.store, th.phase.a.input);
    NewIDIsFresh(g, calls);
    StoreMove(g, calls, Create(th.phase.a.input), th, m);
  }

  lemma BegunMove(cfg: Config, g: OwnerGuard.Guard, calls: seq<Event>, th: Thread, c: Choice)
    requires th.phase.Begun? && Sane(g, calls) && PhaseOK(g, calls, th.key, th.phase)
    ensures GoodMove(g, calls, th, NextOfAttach(cfg, g.store, th, c))
  {
    hide GoodMove, Sane, Settled, NeverCreated, Exec, KeyOf, Edit;
    var m := NextOfAttach(cfg, g.store, th, c);
    Wrote(g, calls, MarkAuthPending(th.phase.id));
    StoreMove(g, calls, MarkAuthPending(th.phase.id), th, m);
  }

  lemma AuthenticatingMove(cfg: Config, g: OwnerGuard.Guard, calls: seq<Event>, th: Thread, c: Choice)
    requires th.phase.Authenticating? && Sane(g, calls) && PhaseOK(g, calls, th.key, th.phase)
    ensures GoodMove(g, calls, th, NextOfAttach(cfg, g.store, th, c))
  {
    hide GoodMove, Sane, Settled, NeverCreated, Exec, KeyOf, Edit;
    var m := NextOfAttach(cfg, g.store, th, c);
    SettledIfFresh(calls, th.phase.id);
    if c.auth.Some? {
      var a := th.phase.a;
      var who := Completed(a.who, c.auth.value);
      var second := Looking(a.(who := who, auth := c.auth, own := Some(th.phase.id)));
      assert PhaseOK(g, calls, Some(KeyOf(who)), second) && Own(second) == Some(th.phase.id);
      assert KeyOf(who) != KeyOf(a.who) ==> PhaseOK(g, calls, None, Queued(KeyOf(who), second));
    }
    SilentMove(g, calls, th, m);
  }

  lemma AuthorizingMove(cfg: Config, g: OwnerGuard.Guard, calls: seq<Event>, th: Thread, c: Choice)
    requires th.phase.Authorizing? && Sane(g, calls) && PhaseOK(g, calls, th.key, th.phase)
    ensures GoodMove(g, calls, th, NextOfAttach(cfg, g.store, th, c))
  {
    hide GoodMove, Sane, Settled, NeverCreated, Exec, KeyOf;
    var m := NextOfAttach(cfg, g.store, th, c);
    var auth := th.phase.auth;
    var op := ApplyAuthResult(th.phase.id, auth.imsi, auth.msisdn, auth.apn, auth.reason);
    Wrote(g, calls, op);
    StoreMove(g, calls, op, th, m);
  }

  lemma LeasingMove(cfg: Config, g: OwnerGuard.Guard, calls: seq<Event>, th: Thread, c: Choice)
    requires th.phase.Leasing? && Sane(g, calls) && PhaseOK(g, calls, th.key, th.phase)
    ensures GoodMove(g, calls, th, NextBeforePGW(cfg, g, th, c))
  {
    hide GoodMove, Sane, Settled, NeverCreated, Exec, KeyOf, Edit;
    var m := NextBeforePGW(cfg, g, th, c);
    var e := Event(AllocateLease, th.phase.s, c.err);
    NeverLater(calls, e, th.phase.s.id);
    SettledIfFresh(calls + [e], th.phase.s.id);
    CallingMove(g, calls, e, th, m);
  }

  lemma AddressingMove(cfg: Config, g: OwnerGuard.Guard, calls: seq<Event>, th: Thread, c: Choice)
    requires th.phase.Addressing? && Sane(g, calls) && PhaseOK(g, calls, th.key, th.phase)
    ensures GoodMove(g, calls, th, NextBeforePGW(cfg, g, th, c))
  {
    hide GoodMove, Sane, Settled, NeverCreated, Exec, KeyOf, Edit;
    var m := NextBeforePGW(cfg, g, th, c);
    var op := SetSubscriberIP(th.phase.s.id, Some(th.phase.ip));
    Wrote(g, calls, op);
    StoreMove(g, calls, op, th, m);
  }

  /** A step of the guard for a session that has no PGW session yet. */
  lemma GuardMove(g: OwnerGuard.Guard, calls: seq<Event>, act: OwnerGuard.Step, id: SessionID, key: Option<LockKey>)
    requires Sane(g, calls) && Fresh(g, calls, id)
    requires act == OwnerGuard.MarkPending(id) || act == OwnerGuard.FindByIMSIAPN(id) || act == OwnerGuard.FindByMAC(id)
             || act == OwnerGuard.Decide(id)
    ensures Sane(OwnerGuard.Do(g, act), calls) && Steady(g, calls, OwnerGuard.Do(g, act), calls, Some(id), key)
  {
    hide Ledger, Steady, OwnerGuard.Tracks, OwnerGuard.LaterSeesEarlier, Exec;
    GuardStepSteady(g, calls, act, id, key);
    OwnerGuard.StepKeepsOrder(g, act);
    OpKeepsLedger(g.store, calls, MarkPGWPending(id));
    forall i | 0 <= i < |calls| && Created(calls[i]) ensures calls[i].sess.id != id {
    }
  }

  /** What MarkPGWPending hands back claims the session. */
  lemma MarkedClaims(g: OwnerGuard.Guard, calls: seq<Event>, key: Option<LockKey>, s: Session)
    requires Sane(g, calls) && Locks(g, calls, key, s.id)
    ensures var op := MarkPGWPending(s.id);
            Enabled(g.store, op) ==>
              PhaseOK(OwnerGuard.Do(g, OwnerGuard.MarkPending(s.id)), calls, key, ReadingIMSI(Edited(op, g.store.byID[s.id])))
    ensures g.store.next <= OwnerGuard.Do(g, OwnerGuard.MarkPending(s.id)).store.next
  {
    hide NeverCreated, KeyOf, Exec, Sane;
    OwnerGuard.NextGrows(g.store, MarkPGWPending(s.id));
    Wrote(g, calls, MarkPGWPending(s.id));
  }

  lemma MarkingMove(cfg: Config, g: OwnerGuard.Guard, calls: seq<Event>, th: Thread, c: Choice)
    requires th.phase.Marking? && Sane(g, calls) && PhaseOK(g, calls, th.key, th.phase)
    ensures GoodMove(g, calls, th, NextBeforePGW(cfg, g, th, c))
  {
    hide Sane, Settled, NeverCreated, Steady, Exec, KeyOf, OwnerGuard.Do, Claims;
    var id := th.phase.s.id;
    GuardMove(g, calls, OwnerGuard.MarkPending(id), id, th.key);
    MarkedClaims(g, calls, th.key, th.phase.s);
    StoredIsKnown(g, calls, id);
  }

  lemma ReadingIMSIMove(cfg: Config, g: OwnerGuard.Guard, calls: seq<Event>, th: Thread, c: Choice)
    requires th.phase.ReadingIMSI? && Sane(g, calls) && PhaseOK(g, calls, th.key, th.phase)
    ensures GoodMove(g, calls, th, NextBeforePGW(cfg, g, th, c))
  {
    hide Sane, Settled, NeverCreated, Steady, KeyOf, OwnerGuard.Read1;
    GuardMove(g, calls, OwnerGuard.FindByIMSIAPN(th.phase.s.id), th.phase.s.id, th.key);
  }

  lemma ReadingMACMove(cfg: Config, g: OwnerGuard.Guard, calls: seq<Event>, th: Thread, c: Choice)
    requires th.phase.ReadingMAC? && Sane(g, calls) && PhaseOK(g, calls, th.key, th.phase)
    ensures GoodMove(g, calls, th, NextBeforePGW(cfg, g, th, c))
  {
    hide Sane, Settled, NeverCreated, Steady, KeyOf, OwnerGuard.Read2;
    GuardMove(g, calls, OwnerGuard.FindByMAC(th.phase.s.id), th.phase.s.id, th.key);
  }

  lemma DecidingMove(cfg: Config, g: OwnerGuard.Guard, calls: seq<Event>, th: Thread, c: Choice)
    requires th.phase.Deciding? && Sane(g, calls) && PhaseOK(g, calls, th.key, th.phase)
    ensures GoodMove(g, calls, th, NextBeforePGW(cfg, g, th, c))
  {
    hide Sane, Settled, NeverCreated, Steady, KeyOf, OwnerGuard.RivalFound;
    GuardMove(g, calls, OwnerGuard.Decide(th.phase.s.id), th.phase.s.id, th.key);
    SettledIfFresh(calls, th.phase.s.id);
  }

  lemma StoredIsKnown(g: OwnerGuard.Guard, calls: seq<Event>, id: SessionID)
    requires Sane(g, calls)
    ensures id in g.store.byID ==> id <= g.store.next && g.store.byID[id].id == id
  {
  }

  /** Opening a PGW session for a session that passed the guard and is still pending. */
  lemma OpeningMove(cfg: Config, g: OwnerGuard.Guard, calls: seq<Event>, th: Thread, c: Choice)
    requires th.phase.Opening? && Sane(g, calls) && PhaseOK(g, calls, th.key, th.phase)
    ensures GoodMove(g, calls, th, NextBeforePGW(cfg, g, th, c))
  {
    hide Settled, Steady, OwnerGuard.LaterSeesEarlier, KeyOf;
    var s := th.phase.s;
    var e := Event(CreatePGW, s, c.err);
    CallSteady(g, calls, e, Some(s.id), th.key);
    if c.err.Some? {
      OtherCallKeepsLedger(g.store, calls, e);
      NeverLater(calls, e, s.id);
      SettledIfFresh(calls + [e], s.id);
    } else {
      OpensApart(g, calls, s);
      CreateKeepsLedgerIff(g.store, calls, e);
    }
  }

  lemma OpensApart(g: OwnerGuard.Guard, calls: seq<Event>, s: Session)
    requires Sane(g, calls) && NeverCreated(calls, s.id)
    requires s.id in g.store.byID && g.store.byID[s.id].state == PGWPending && SameIdentity(g.store.byID[s.id], s)
    requires s.id in g.activations && g.activations[s.id].phase == OwnerGuard.Passed
    ensures MayHold(g.store, s) && forall i :: 0 <= i < |calls| ==> !Overlaps(calls, i, s)
  {
    hide OwnerGuard.LaterSeesEarlier, OwnerGuard.Tracks, Alternates, Detects, DeletedBetween;
    forall i | 0 <= i < |calls| ensures !Overlaps(calls, i, s) {
      if Created(calls[i]) && !DeletedBetween(calls, i, |calls|, calls[i].sess.id) {
        assert Accounted(g.store, calls, i);
        var k := calls[i].sess.id;
        assert OwnerGuard.Owner(g, k) && OwnerGuard.Owner(g, s.id);
        OwnerGuard.OwnersApart(g, k, s.id);
        SameDetection(g.store.byID[k], calls[i].sess, g.store.byID[s.id], s);
      }
    }
  }

  lemma SameDetection(a: Session, a': Session, b: Session, b': Session)
    requires SameIdentity(a, a') && SameIdentity(b, b')
    ensures Detects(a, b) <==> Detects(a', b')
  {
  }

  // --- once the PGW session is there ---

  lemma ReaddressingMove(cfg: Config, g: OwnerGuard.Guard, calls: seq<Event>, th: Thread, c: Choice)
    requires th.phase.Readdressing? && Sane(g, calls) && PhaseOK(g, calls, th.key, th.phase)
    ensures GoodMove(g, calls, th, NextAfterPGW(cfg, g.store, th, c))
  {
    hide GoodMove, Sane, Settled, NeverCreated, Exec, KeyOf, Edit;
    var m := NextAfterPGW(cfg, g.store, th, c);
    var s := th.phase.s;
    if th.phase.kinds != [] {
      CallingMove(g, calls, Event(th.phase.kinds[0], s, c.err), th, m);
    } else {
      var op := UpdateSubscriberIP(s.id, th.phase.res.subscriberIP);
      Wrote(g, calls, op);
      StoreMove(g, calls, op, th, m);
    }
  }

  lemma TunnellingMove(cfg: Config, g: OwnerGuard.Guard, calls: seq<Event>, th: Thread, c: Choice)
    requires th.phase.Tunnelling? && Sane(g, calls) && PhaseOK(g, calls, th.key, th.phase)
    ensures GoodMove(g, calls, th, NextAfterPGW(cfg, g.store, th, c))
  {
    hide GoodMove, Sane, Settled, NeverCreated, Exec, KeyOf, Edit, SentTunnel;
    var m := NextAfterPGW(cfg, g.store, th, c);
    var s, res := th.phase.s, th.phase.res;
    if !SentTunnel(res) {
      SilentMove(g, calls, th, m);
    } else {
      var op := ApplyPGWResult(s.id, res.controlIP, res.userIP, res.gtpcTEID, res.localGTPUTEID, res.remoteGTPUTEID);
      Wrote(g, calls, op);
      StoreMove(g, calls, op, th, m);
    }
  }

  lemma TakenMove(cfg: Config, g: OwnerGuard.Guard, calls: seq<Event>, th: Thread, c: Choice)
    requires th.phase.Taken? && Sane(g, calls) && PhaseOK(g, calls, th.key, th.phase)
    ensures GoodMove(g, calls, th, NextAfterPGW(cfg, g.store, th, c))
  {
    hide GoodMove, Sane, Settled, NeverCreated, Exec, KeyOf, Edit;
    var m := NextAfterPGW(cfg, g.store, th, c);
    StoredIsKnown(g, calls, th.phase.s.id);
    SilentMove(g, calls, th, m);
  }

  lemma BuildingMove(cfg: Config, g: OwnerGuard.Guard, calls: seq<Event>, th: Thread, c: Choice)
    requires th.phase.Building? && Sane(g, calls) && PhaseOK(g, calls, th.key, th.phase)
    ensures GoodMove(g, calls, th, NextAfterPGW(cfg, g.store, th, c))
  {
    hide GoodMove, Sane, Settled, NeverCreated, Exec, KeyOf, Edit;
    var m := NextAfterPGW(cfg, g.store, th, c);
    var s, todo := th.phase.s, th.phase.todo;
    StoredIsKnown(g, calls, s.id);
    if todo == [] {
      SilentMove(g, calls, th, m);
    } else {
      CallingMove(g, calls, Event(todo[0], s, c.err), th, m);
    }
  }

  lemma ActivatingMove(cfg: Config, g: OwnerGuard.Guard, calls: seq<Event>, th: Thread, c: Choice)
    requires th.phase.Activating? && Sane(g, calls) && PhaseOK(g, calls, th.key, th.phase)
    ensures GoodMove(g, calls, th, NextAfterPGW(cfg, g.store, th, c))
  {
    hide GoodMove, Sane, Settled, NeverCreated, Exec, KeyOf, Edit;
    var m := NextAfterPGW(cfg, g.store, th, c);
    var op := MarkActive(th.phase.s.id);
    Wrote(g, calls, op);
    StoreMove(g, calls, op, th, m);
  }

  lemma BindingMove(cfg: Config, g: OwnerGuard.Guard, calls: seq<Event>, th: Thread, c: Choice)
    requires th.phase.Binding? && Sane(g, calls) && PhaseOK(g, calls, th.key, th.phase)
    ensures GoodMove(g, calls, th, NextAfterPGW(cfg, g.store, th, c))
  {
    hide GoodMove, Sane, Settled, NeverCreated, Exec, KeyOf, Edit;
    var m := NextAfterPGW(cfg, g.store, th, c);
    CallingMove(g, calls, Event(BindAccess, th.phase.s, c.err), th, m);
  }

  lemma ValidatingMove(cfg: Config, g: OwnerGuard.Guard, calls: seq<Event>, th: Thread, c: Choice)
    requires th.phase.Validating? && Sane(g, calls) && PhaseOK(g, calls, th.key, th.phase)
    ensures GoodMove(g, calls, th, NextAfterPGW(cfg, g.store, th, c))
  {
    hide GoodMove, Sane, Settled, NeverCreated, Exec, KeyOf, Edit, Validated;
    var m := NextAfterPGW(cfg, g.store, th, c);
    SilentMove(g, calls, th, m);
  }

  // --- undoing, takedown, handlers ---

  /** Undoing comes to the deletion of the PGW session, or has it behind it. */
  lemma SettlesOn(calls: seq<Event>, e: Event, kinds: seq<Kind>, id: SessionID)
    requires kinds != [] && e.kind == kinds[0] && e.sess.id == id && e.kind != CreatePGW
    ensures DeletePGW in kinds || Settled(calls, id) ==> DeletePGW in kinds[1..] || Settled(calls + [e], id)
  {
    if e.kind == DeletePGW {
      SettledByDelete(calls, e);
    } else if Settled(calls, id) {
      SettledLater(calls, e, id);
    }
  }

  lemma UndoingMove(cfg: Config, g: OwnerGuard.Guard, calls: seq<Event>, th: Thread, c: Choice)
    requires th.phase.Undoing? && Sane(g, calls) && PhaseOK(g, calls, th.key, th.phase)
    ensures GoodMove(g, calls, th, NextOfRest(cfg, g.store, th, c))
  {
    hide GoodMove, Sane, Settled, NeverCreated, Exec, KeyOf, Edit;
    var m := NextOfRest(cfg, g.store, th, c);
    var s, kinds := th.phase.s, th.phase.kinds;
    if kinds != [] {
      var e := Event(kinds[0], s, c.err);
      SettlesOn(calls, e, kinds, s.id);
      CallingMove(g, calls, e, th, m);
    } else if th.phase.fail {
      StoreMove(g, calls, MarkFailed(s.id, "attach failed"), th, m);
    } else {
      SilentMove(g, calls, th, m);
    }
  }

  /** A takedown of a pending session needs the lock of that session. */
  predicate MayOust(st: Store, key: Option<LockKey>, id: SessionID) {
    id in st.byID && st.byID[id].state == PGWPending ==> key == Some(KeyOf(IdentityOf(st.byID[id])))
  }

  /** A change of state alone disturbs no attach that waits behind it. */
  lemma AttachAfter(g: OwnerGuard.Guard, g': OwnerGuard.Guard, calls: seq<Event>, key: Option<LockKey>, a: Attach)
    requires AttachOK(g, calls, key, a) && g.store.next == g'.store.next
    requires forall k :: k in g'.store.byID ==> k in g.store.byID && SameIdentity(g'.store.byID[k], g.store.byID[k])
    ensures AttachOK(g', calls, key, a)
  {
    hide NeverCreated, KeyOf, Completed;
  }

  lemma EndingOK(g: OwnerGuard.Guard, calls: seq<Event>, key: Option<LockKey>)
    ensures PhaseOK(g, calls, key, Ending)
  {
  }

  /** Takedown begins: the session is Terminating, the rest as it was. */
  lemma TakenDown(g: OwnerGuard.Guard, calls: seq<Event>, id: SessionID)
    requires Sane(g, calls)
    ensures var st' := Exec(g.store, MarkTerminating(id));
            && st'.next == g.store.next && st'.byID.Keys == g.store.byID.Keys
            && (forall k :: k in g.store.byID ==> SameIdentity(st'.byID[k], g.store.byID[k]))
            && (Enabled(g.store, MarkTerminating(id)) ==> Fallen(st', id) && id <= g.store.next && g.store.byID[id].id == id)
  {
    hide Sane, Edit, Exec;
    Wrote(g, calls, MarkTerminating(id));
  }

  lemma DetachDeletes(cfg: Config)
    ensures DeletePGW in DetachOrder(cfg) && NoCreate(DetachOrder(cfg))
  {
  }

  lemma OustedOK(cfg: Config, g: OwnerGuard.Guard, calls: seq<Event>, key: Option<LockKey>, id: SessionID, after: Option<Attach>)
    requires Sane(g, calls) && PhaseOK(g, calls, key, Ousting(id, after)) && Enabled(g.store, MarkTerminating(id))
    ensures var op := MarkTerminating(id);
            PhaseOK(g.(store := Exec(g.store, op)), calls, key, Cleaning(Edited(op, g.store.byID[id]), DetachOrder(cfg), [], after))
  {
    hide Sane, Settled, NeverCreated, Exec, KeyOf, Edit, AttachOK, Rank, ValidTransition, Fallen, DetachOrder, NoCreate, Own, Enabled;
    var op := MarkTerminating(id);
    TakenDown(g, calls, id);
    if after.Some? {
      AttachAfter(g, g.(store := Exec(g.store, op)), calls, key, after.value);
    }
    DetachDeletes(cfg);
  }

  lemma OustingMove(cfg: Config, g: OwnerGuard.Guard, calls: seq<Event>, th: Thread, c: Choice)
    requires th.phase.Ousting? && Sane(g, calls) && PhaseOK(g, calls, th.key, th.phase)
    requires MayOust(g.store, th.key, th.phase.id)
    ensures GoodMove(g, calls, th, NextOfRest(cfg, g.store, th, c))
  {
    hide GoodMove, Sane, Settled, NeverCreated, Exec, KeyOf, Edited, PhaseOK, DetachOrder;
    var op := MarkTerminating(th.phase.id);
    if Enabled(g.store, op) {
      OustedOK(cfg, g, calls, th.key, th.phase.id, th.phase.after);
    } else {
      EndingOK(g.(store := Exec(g.store, op)), calls, th.key);
    }
    StoreMove(g, calls, op, th, NextOfRest(cfg, g.store, th, c));
  }

  lemma DeletedRecord(g: OwnerGuard.Guard, calls: seq<Event>, id: SessionID)
    requires Sane(g, calls)
    ensures var st' := Exec(g.store, Delete(id));
            st'.next == g.store.next && st'.byID == if Enabled(g.store, Delete(id)) then g.store.byID - {id} else g.store.byID
  {
  }

  lemma CleaningMove(cfg: Config, g: OwnerGuard.Guard, calls: seq<Event>, th: Thread, c: Choice)
    requires th.phase.Cleaning? && Sane(g, calls) && PhaseOK(g, calls, th.key, th.phase)
    ensures GoodMove(g, calls, th, NextOfRest(cfg, g.store, th, c))
  {
    hide GoodMove, Sane, Settled, NeverCreated, Exec, KeyOf, Edit, Fatal, Completed;
    var m := NextOfRest(cfg, g.store, th, c);
    var s, kinds := th.phase.s, th.phase.kinds;
    if kinds != [] {
      var e := Event(kinds[0], s, c.err);
      SettlesOn(calls, e, kinds, s.id);
      if th.phase.after.Some? && th.phase.after.value.own.Some? {
        NeverLater(calls, e, th.phase.after.value.own.value);
      }
      CallingMove(g, calls, e, th, m);
    } else {
      DeletedRecord(g, calls, s.id);
      if th.phase.after.Some? {
        AttachAfter(g, g.(store := Exec(g.store, Delete(s.id))), calls, th.key, th.phase.after.value);
      }
      StoreMove(g, calls, Delete(s.id), th, m);
    }
  }

  lemma DiscardedOK(g: OwnerGuard.Guard, calls: seq<Event>, key: Option<LockKey>, id: SessionID)
    requires Sane(g, calls) && PhaseOK(g, calls, key, Discarding(id)) && Enabled(g.store, MarkTerminating(id))
    ensures PhaseOK(g.(store := Exec(g.store, MarkTerminating(id))), calls, key, Discarded(id))
  {
    hide Sane, NeverCreated, Exec, KeyOf, Fallen, Enabled, Edit, Edited, Rank, ValidTransition, Own, DetachOrder;
    TakenDown(g, calls, id);
  }

  lemma DiscardingMove(cfg: Config, g: OwnerGuard.Guard, calls: seq<Event>, th: Thread, c: Choice)
    requires th.phase.Discarding? && Sane(g, calls) && PhaseOK(g, calls, th.key, th.phase)
    ensures GoodMove(g, calls, th, NextOfRest(cfg, g.store, th, c))
  {
    hide GoodMove, Sane, Settled, NeverCreated, Exec, KeyOf, Edited, PhaseOK, DetachOrder;
    var op := MarkTerminating(th.phase.id);
    if Enabled(g.store, op) {
      DiscardedOK(g, calls, th.key, th.phase.id);
    } else {
      EndingOK(g.(store := Exec(g.store, op)), calls, th.key);
    }
    StoreMove(g, calls, op, th, NextOfRest(cfg, g.store, th, c));
  }

  lemma DiscardedMove(cfg: Config, g: OwnerGuard.Guard, calls: seq<Event>, th: Thread, c: Choice)
    requires th.phase.Discarded? && Sane(g, calls) && PhaseOK(g, calls, th.key, th.phase)
    ensures GoodMove(g, calls, th, NextOfRest(cfg, g.store, th, c))
  {
    hide GoodMove, Sane, Settled, NeverCreated, Exec, KeyOf, Edit;
    var m := NextOfRest(cfg, g.store, th, c);
    SettledIfFresh(calls, th.phase.id);
    StoreMove(g, calls, Delete(th.phase.id), th, m);
  }

  lemma CountingMove(cfg: Config, g: OwnerGuard.Guard, calls: seq<Event>, th: Thread, c: Choice)
    requires th.phase.Counting? && Sane(g, calls) && PhaseOK(g, calls, th.key, th.phase) && th.key.None?
    ensures GoodMove(g, calls, th, NextOfRest(cfg, g.store, th, c))
  {
    hide GoodMove, Sane, Settled, NeverCreated, Exec, KeyOf, Edit;
    StoreMove(g, calls, RecordGTPUError(th.phase.s.id, "GTP-U Error Indication"), th, NextOfRest(cfg, g.store, th, c));
  }

  lemma AccountingMove(cfg: Config, g: OwnerGuard.Guard, calls: seq<Event>, th: Thread, c: Choice)
    requires th.phase.Accounting? && Sane(g, calls) && PhaseOK(g, calls, th.key, th.phase) && th.key.None?
    ensures GoodMove(g, calls, th, NextOfRest(cfg, g.store, th, c))
  {
    hide GoodMove, Sane, Settled, NeverCreated, Exec, KeyOf, Edit;
    StoreMove(g, calls, ApplyAccounting(th.phase.s.id, th.phase.acct), th, NextOfRest(cfg, g.store, th, c));
  }

  lemma RecheckingMove(cfg: Config, g: OwnerGuard.Guard, calls: seq<Event>, th: Thread, c: Choice)
    requires th.phase.Rechecking? && Sane(g, calls) && PhaseOK(g, calls, th.key, th.phase)
    ensures GoodMove(g, calls, th, NextOfRest(cfg, g.store, th, c))
  {
    hide GoodMove, Sane, Settled, NeverCreated, Exec, KeyOf, Edit;
    SilentMove(g, calls, th, NextOfRest(cfg, g.store, th, c));
  }

  lemma SuspendingMove(cfg: Config, g: OwnerGuard.Guard, calls: seq<Event>, th: Thread, c: Choice)
    requires th.phase.Suspending? && Sane(g, calls) && PhaseOK(g, calls, th.key, th.phase)
    ensures GoodMove(g, calls, th, NextOfRest(cfg, g.store, th, c))
  {
    hide GoodMove, Sane, Settled, NeverCreated, Exec, KeyOf, Edit;
    StoreMove(g, calls, MarkRecovering(th.phase.id, "recovery"), th, NextOfRest(cfg, g.store, th, c));
  }

  lemma LeavingMove(cfg: Config, g: OwnerGuard.Guard, calls: seq<Event>, th: Thread, c: Choice)
    requires (th.phase.Ending? || th.phase.Gone?) && Sane(g, calls) && PhaseOK(g, calls, th.key, th.phase)
    ensures GoodMove(g, calls, th, NextOfRest(cfg, g.store, th, c))
  {
    hide GoodMove, Sane, Settled, NeverCreated, Exec, KeyOf, Edit;
    var m := NextOfRest(cfg, g.store, th, c);
    SilentMove(g, calls, th, m);
  }

  lemma QueuedMove(cfg: Config, g: OwnerGuard.Guard, calls: seq<Event>, locks: map<LockKey, ThreadID>, th: Thread, c: Choice)
    requires th.phase.Queued? && Sane(g, calls) && PhaseOK(g, calls, th.key, th.phase)
    ensures GoodMove(g, calls, th, Next(cfg, g, locks, th, c))
  {
    hide GoodMove, Sane, Settled, NeverCreated, Exec, KeyOf, Edit, AttachOK;
    var m := Next(cfg, g, locks, th, c);
    SilentMove(g, calls, th, m);
  }

  // --- every interleaving ---

  predicate BeforeLock(p: Phase) {
    p.Counting? || p.Accounting?
  }

  lemma AttachMoves(cfg: Config, g: OwnerGuard.Guard, calls: seq<Event>, locks: map<LockKey, ThreadID>, th: Thread, c: Choice)
    requires Sane(g, calls) && PhaseOK(g, calls, th.key, th.phase)
    requires th.phase.Looking? || th.phase.Creating? || th.phase.Begun? || th.phase.Authenticating? || th.phase.Authorizing?
    ensures GoodMove(g, calls, th, Next(cfg, g, locks, th, c))
  {
    hide Sane, PhaseOK, GoodMove, NextOfAttach;
    match th.phase
    case Looking(_) => LookingMove(cfg, g, calls, th, c);
    case Creating(_) => CreatingMove(cfg, g, calls, th, c);
    case Begun(_, _) => BegunMove(cfg, g, calls, th, c);
    case Authenticating(_, _) => AuthenticatingMove(cfg, g, calls, th, c);
    case Authorizing(_, _) => AuthorizingMove(cfg, g, calls, th, c);
  }

  lemma BeforePGWMoves(cfg: Config, g: OwnerGuard.Guard, calls: seq<Event>, locks: map<LockKey, ThreadID>, th: Thread, c: Choice)
    requires Sane(g, calls) && PhaseOK(g, calls, th.key, th.phase)
    requires th.phase.Leasing? || th.phase.Addressing? || th.phase.Marking? || th.phase.ReadingIMSI? || th.phase.ReadingMAC?
             || th.phase.Deciding? || th.phase.Opening?
    ensures GoodMove(g, calls, th, Next(cfg, g, locks, th, c))
  {
    hide Sane, PhaseOK, GoodMove, NextBeforePGW;
    match th.phase
    case Leasing(_) => LeasingMove(cfg, g, calls, th, c);
    case Addressing(_, _) => AddressingMove(cfg, g, calls, th, c);
    case Marking(_) => MarkingMove(cfg, g, calls, th, c);
    case ReadingIMSI(_) => ReadingIMSIMove(cfg, g, calls, th, c);
    case ReadingMAC(_) => ReadingMACMove(cfg, g, calls, th, c);
    case Deciding(_) => DecidingMove(cfg, g, calls, th, c);
    case Opening(_) => OpeningMove(cfg, g, calls, th, c);
  }

  lemma AfterPGWMoves(cfg: Config, g: OwnerGuard.Guard, calls: seq<Event>, locks: map<LockKey, ThreadID>, th: Thread, c: Choice)
    requires Sane(g, calls) && PhaseOK(g, calls, th.key, th.phase)
    requires th.phase.Readdressing? || th.phase.Tunnelling? || th.phase.Taken? || th.phase.Building? || th.phase.Activating?
             || th.phase.Binding? || th.phase.Validating?
    ensures GoodMove(g, calls, th, Next(cfg, g, locks, th, c))
  {
    hide Sane, PhaseOK, GoodMove, NextAfterPGW;
    match th.phase
    case Readdressing(_, _, _) => ReaddressingMove(cfg, g, calls, th, c);
    case Tunnelling(_, _) => TunnellingMove(cfg, g, calls, th, c);
    case Taken(_) => TakenMove(cfg, g, calls, th, c);
    case Building(_, _, _) => BuildingMove(cfg, g, calls, th, c);
    case Activating(_) => ActivatingMove(cfg, g, calls, th, c);
    case Binding(_) => BindingMove(cfg, g, calls, th, c);
    case Validating(_) => ValidatingMove(cfg, g, calls, th, c);
  }

  lemma RestMoves(cfg: Config, g: OwnerGuard.Guard, calls: seq<Event>, locks: map<LockKey, ThreadID>, th: Thread, c: Choice)
    requires Sane(g, calls) && PhaseOK(g, calls, th.key, th.phase) && (BeforeLock(th.phase) ==> th.key.None?)
    requires th.phase.Undoing? || th.phase.Ousting? || th.phase.Cleaning? || th.phase.Discarding? || th.phase.Discarded?
             || th.phase.Counting? || th.phase.Accounting? || th.phase.Rechecking? || th.phase.Suspending?
             || th.phase.Ending? || th.phase.Gone?
    requires th.phase.Ousting? ==> MayOust(g.store, th.key, th.phase.id)
    ensures GoodMove(g, calls, th, Next(cfg, g, locks, th, c))
  {
    hide Sane, PhaseOK, GoodMove, NextOfRest, MayOust;
    match th.phase
    case Undoing(_, _, _) => UndoingMove(cfg, g, calls, th, c);
    case Ousting(_, _) => OustingMove(cfg, g, calls, th, c);
    case Cleaning(_, _, _, _) => CleaningMove(cfg, g, calls, th, c);
    case Discarding(_) => DiscardingMove(cfg, g, calls, th, c);
    case Discarded(_) => DiscardedMove(cfg, g, calls, th, c);
    case Counting(_) => CountingMove(cfg, g, calls, th, c);
    case Accounting(_, _) => AccountingMove(cfg, g, calls, th, c);
    case Rechecking(_, _) => RecheckingMove(cfg, g, calls, th, c);
    case Suspending(_) => SuspendingMove(cfg, g, calls, th, c);
    case _ => LeavingMove(cfg, g, calls, th, c);
  }

  lemma EveryMove(cfg: Config, g: OwnerGuard.Guard, calls: seq<Event>, locks: map<LockKey, ThreadID>, th: Thread, c: Choice)
    requires Sane(g, calls) && PhaseOK(g, calls, th.key, th.phase) && (BeforeLock(th.phase) ==> th.key.None?)
    requires th.phase.Ousting? ==> MayOust(g.store, th.key, th.phase.id)
    ensures GoodMove(g, calls, th, Next(cfg, g, locks, th, c))
  {
    hide Sane, GoodMove, Next, MayOust;
    var p := th.phase;
    if p.Queued? {
      QueuedMove(cfg, g, calls, locks, th, c);
    } else if p.Looking? || p.Creating? || p.Begun? || p.Authenticating? || p.Authorizing? {
      AttachMoves(cfg, g, calls, locks, th, c);
    } else if p.Leasing? || p.Addressing? || p.Marking? || p.ReadingIMSI? || p.ReadingMAC? || p.Deciding? || p.Opening? {
      BeforePGWMoves(cfg, g, calls, locks, th, c);
    } else if p.Readdressing? || p.Tunnelling? || p.Taken? || p.Building? || p.Activating? || p.Binding? || p.Validating? {
      AfterPGWMoves(cfg, g, calls, locks, th, c);
    } else {
      assert !p.Lost?;
      RestMoves(cfg, g, calls, locks, th, c);
    }
  }

  /** A lock is taken when it is free, by a goroutine that has none, or given back. */
  lemma KeyMoves(cfg: Config, g: OwnerGuard.Guard, locks: map<LockKey, ThreadID>, th: Thread, c: Choice)
    ensures var m := Next(cfg, g, locks, th, c);
            m.key == th.key || m.key.None? || (th.key.None? && m.key.Some? && m.key.value !in locks)
  {
    hide OwnerGuard.Do, OwnerGuard.RivalFound, Exec, Enabled, Edited, Matching, Looked, KeyOf, DetachOrder, Fatal, AfterAnswer;
  }

  lemma NeverBackBeforeLock(cfg: Config, g: OwnerGuard.Guard, calls: seq<Event>, locks: map<LockKey, ThreadID>, th: Thread, c: Choice)
    requires PhaseOK(g, calls, th.key, th.phase)
    ensures !BeforeLock(Next(cfg, g, locks, th, c).phase)
  {
    hide OwnerGuard.Do, OwnerGuard.RivalFound, Exec, Enabled, Edited, Matching, KeyOf, DetachOrder, Fatal, AttachOK, Claims;
  }

  ghost predicate ThreadOK(w: World, t: ThreadID)
    requires t in w.threads
  {
    var th := w.threads[t];
    && PhaseOK(w.guard, w.calls, th.key, th.phase) && (BeforeLock(th.phase) ==> th.key.None?)
    && (forall k: LockKey :: th.key == Some(k) <==> k in w.locks && w.locks[k] == t)
  }

  predicate SeparateOwners(w: World) {
    forall t, u :: t in w.threads && u in w.threads && t != u && Own(w.threads[t].phase).Some? ==>
      Own(w.threads[t].phase) != Own(w.threads[u].phase)
  }

  ghost predicate Inv(w: World) {
    && Sane(w.guard, w.calls) && SeparateOwners(w)
    && (forall t :: t in w.threads ==> ThreadOK(w, t))
    && (forall k :: k in w.locks ==> w.locks[k] in w.threads)
  }

  /** The step takes no pending session down without holding that session's lock. */
  predicate CoveredStep(w: World, step: Step) {
    step.Go? && step.t in w.threads && w.threads[step.t].phase.Ousting? ==>
      MayOust(w.guard.store, w.threads[step.t].key, w.threads[step.t].phase.id)
  }

  predicate Covered(cfg: Config, w: World, steps: seq<Step>)
    decreases |steps|
  {
    steps == [] || (CoveredStep(w, steps[0]) && Covered(cfg, Do(cfg, w, steps[0]), steps[1..]))
  }

  lemma FirstPhaseOK(cfg: Config, g: OwnerGuard.Guard, calls: seq<Event>, job: Job)
    ensures PhaseOK(g, calls, None, FirstPhase(cfg, g.store, job)) && Own(FirstPhase(cfg, g.store, job)).None?
  {
  }

  lemma OwnIsKnown(g: OwnerGuard.Guard, calls: seq<Event>, key: Option<LockKey>, p: Phase)
    requires Sane(g, calls) && PhaseOK(g, calls, key, p) && Own(p).Some?
    ensures Own(p).value <= g.store.next
    decreases p
  {
    hide NeverCreated, Settled, KeyOf, Completed, AllPassed, Ledger, OwnerGuard.LaterSeesEarlier;
    if p.Queued? {
      OwnIsKnown(g, calls, Some(p.want), p.onward);
    }
  }

  lemma BeginKeepsInv(cfg: Config, w: World, t: ThreadID, job: Job)
    requires Inv(w)
    ensures Inv(Do(cfg, w, Begin(t, job)))
  {
    hide Sane, PhaseOK, FirstPhase;
    if t !in w.threads {
      FirstPhaseOK(cfg, w.guard, w.calls, job);
      var w' := Do(cfg, w, Begin(t, job));
      forall u | u in w'.threads ensures ThreadOK(w', u) {
        assert u != t ==> ThreadOK(w, u);
      }
    }
  }

  /** Another goroutine is where it was, and holds the lock it held. */
  lemma OtherStays(w: World, t: ThreadID, u: ThreadID, m: Move)
    requires Inv(w) && t in w.threads && u in w.threads && t != u && GoodMove(w.guard, w.calls, w.threads[t], m)
    requires m.key == w.threads[t].key || m.key.None? || (w.threads[t].key.None? && m.key.value !in w.locks)
    ensures ThreadOK(Apply(w, t, w.threads[t], m), u)
    ensures Own(m.phase).Some? ==> Own(m.phase) != Own(w.threads[u].phase)
  {
    hide PhaseOK, Own, Steady, Ledger, AllPassed, OwnerGuard.LaterSeesEarlier, OwnerGuard.Tracks, OwnerGuard.Do;
    var th, uh := w.threads[t], w.threads[u];
    assert ThreadOK(w, t) && ThreadOK(w, u);
    KeepsOther(w.guard, w.calls, Acted(w.guard, m), Called(w.calls, m), Own(th.phase), th.key, uh.phase, uh.key);
    if Own(uh.phase).Some? {
      OwnIsKnown(w.guard, w.calls, uh.key, uh.phase);
    }
  }

  lemma GoKeepsInv(cfg: Config, w: World, t: ThreadID, c: Choice)
    requires Inv(w) && CoveredStep(w, Go(t, c))
    ensures Inv(Do(cfg, w, Go(t, c)))
  {
    hide Sane, PhaseOK, Own, Next, OwnerGuard.Tracks, OwnerGuard.Do, MayOust, Steady;
    if t in w.threads {
      var th := w.threads[t];
      assert ThreadOK(w, t);
      var m := Next(cfg, w.guard, w.locks, th, c);
      EveryMove(cfg, w.guard, w.calls, w.locks, th, c);
      KeyMoves(cfg, w.guard, w.locks, th, c);
      NeverBackBeforeLock(cfg, w.guard, w.calls, w.locks, th, c);
      var w' := Do(cfg, w, Go(t, c));
      forall u | u in w.threads && u != t ensures ThreadOK(w', u) && (Own(m.phase).Some? ==> Own(m.phase) != Own(w.threads[u].phase)) {
        assert ThreadOK(w, u);
        OtherStays(w, t, u, m);
      }
    }
  }

  lemma {:induction false} RunKeepsInv(cfg: Config, w: World, steps: seq<Step>)
    requires Inv(w) && Covered(cfg, w, steps)
    ensures Inv(Run(cfg, w, steps))
    decreases |steps|
  {
    hide Inv, Do, CoveredStep;
    if steps != [] {
      match steps[0] {
        case Begin(t, job) => BeginKeepsInv(cfg, w, t, job);
        case Go(t, c) => GoKeepsInv(cfg, w, t, c);
      }
      RunKeepsInv(cfg, Do(cfg, w, steps[0]), steps[1..]);
    }
  }

  lemma NobodyInv()
    ensures Inv(Nobody)
  {
  }

  predicate NobodyLost(w: World) {
    forall t :: t in w.threads ==> !w.threads[t].phase.Lost?
  }

  /** In every interleaving in which no pending session is taken down without its lock: PGW
      sessions of one subscriber alternate with their deletion, every PGW session without a
      deletion belongs to a live stored session of the same identity, no store refusal loses
      one, and each lock has one holder. */
  lemma CoveredRunsAlternate(cfg: Config, steps: seq<Step>)
    requires Covered(cfg, Nobody, steps)
    ensures var w := Run(cfg, Nobody, steps);
            && Alternates(w.calls) && Ledger(w.guard.store, w.calls) && NobodyLost(w)
            && forall t, k :: t in w.threads ==> (w.threads[t].key == Some(k) <==> k in w.locks && w.locks[k] == t)
  {
    hide PhaseOK, Own, Covered, Do, Alternates, OwnerGuard.Tracks, OwnerGuard.LaterSeesEarlier, AllPassed;
    NobodyInv();
    RunKeepsInv(cfg, Nobody, steps);
    var w := Run(cfg, Nobody, steps);
    forall t | t in w.threads ensures ThreadOK(w, t) && !w.threads[t].phase.Lost? {
      LostIsNot(w, t);
    }
  }

  lemma LostIsNot(w: World, t: ThreadID)
    requires Inv(w) && t in w.threads
    ensures ThreadOK(w, t) && !w.threads[t].phase.Lost?
  {
    assert ThreadOK(w, t);
  }
}
