/** Attach, detach and the handlers that tear sessions down, run under the subscriber lock:
    what each does to the store and to the calls made so far, and what whole runs of them
    keep. */
module AttachFlow {
  import opened Wrappers
  import opened Sessions
  import opened SessionStore
  import opened OwnerGuard
  import opened CallLedger
  import opened Lifecycle

  datatype LockKey = LockKey(imsi: string, mac: string, apn: string)

  /** The IMSI names the lock when there is one, otherwise the MAC address does. */
  function SubscriberLockKey(imsi: string, mac: string, apn: string): LockKey {
    if imsi != "" then LockKey(imsi, "", Lower(apn)) else LockKey("", mac, Lower(apn))
  }

  function WithDefaults(cfg: Config, req: AttachRequest): AttachRequest {
    req.(apn := Coalesce(req.apn, cfg.defaultAPN))
  }

  /** The authorization an attach goes by: the one it is given, or the request itself. */
  function Granted(req: AttachRequest, given: Option<AuthResult>): AuthResult {
    match given
    case Some(auth) => auth
    case None => AuthResult(true, req.imsi, req.msisdn, req.apn, "authorized")
  }

  function AuthorizedInput(req: AttachRequest, auth: AuthResult): CreateInput {
    CreateInput(Coalesce(auth.imsi, req.imsi), Coalesce(auth.msisdn, req.msisdn), req.mac,
                Coalesce(auth.apn, req.apn), req.acctSessionID, req.expiresAt)
  }

  function RequestedInput(req: AttachRequest): CreateInput {
    CreateInput(req.imsi, req.msisdn, req.mac, req.apn, req.acctSessionID, req.expiresAt)
  }

  predicate ShouldReplaceExisting(cfg: Config, existing: Session, apn: string) {
    || cfg.replaceExisting
    || existing.state != Active
    || existing.subscriberIP.None?
    || existing.gtpuErrorCount > 0
    || (apn != "" && existing.apn != "" && !SameAPN(apn, existing.apn))
  }

  /** In use, for an attach that asks for apn: the session is kept and handed back. */
  predicate InUse(cfg: Config, s: Session, apn: string) {
    && !cfg.replaceExisting && s.state == Active && s.subscriberIP.Some? && s.gtpuErrorCount == 0
    && (apn == "" || s.apn == "" || Lower(apn) == Lower(s.apn))
  }

  lemma InUseIffKept(cfg: Config, s: Session, apn: string)
    ensures InUse(cfg, s, apn) <==> !ShouldReplaceExisting(cfg, s, apn)
    ensures InUse(cfg, s, apn) ==> IsLivePGWOwner(s.state)
  {
  }

  /** An attach looks for just the sessions that the guard of an activation takes for the same
      subscriber's. */
  lemma MatchesAreSame(s: Session, want: Session)
    ensures SubscriberMatches(s, want.imsi, want.mac, want.apn) <==> SubscriberSame(s, want)
  {
  }

  /** What an attach asks for: the authorization's names where it has them, and the configured
      APN where nobody names one. */
  lemma WantedFields(cfg: Config, request: AttachRequest, given: Option<AuthResult>)
    ensures var want := Wanted(cfg, request, given);
            && want.mac == request.mac && want.acctSessionID == request.acctSessionID && want.expiresAt == request.expiresAt
            && want.imsi == (if given.Some? && given.value.imsi != "" then given.value.imsi else request.imsi)
            && want.msisdn == (if given.Some? && given.value.msisdn != "" then given.value.msisdn else request.msisdn)
            && want.apn == (if given.Some? && given.value.apn != "" then given.value.apn
                            else if request.apn != "" then request.apn else cfg.defaultAPN)
    ensures var asked := RequestedInput(WithDefaults(cfg, request));
            && asked.imsi == request.imsi && asked.msisdn == request.msisdn && asked.mac == request.mac
            && asked.acctSessionID == request.acctSessionID && asked.expiresAt == request.expiresAt
            && asked.apn == (if request.apn != "" then request.apn else cfg.defaultAPN)
  {
  }

  /** The stored sessions an attach may take for an earlier one of its subscriber. */
  function Matching(st: Store, imsi: string, mac: string, apn: string): set<SessionID> {
    set id | id in st.byID && SubscriberMatches(st.byID[id], imsi, mac, apn)
  }

  /** Some session matches, and none that matches is over: a lookup that finds none is wrong. */
  predicate MustFind(st: Store, imsi: string, mac: string, apn: string) {
    Matching(st, imsi, mac, apn) != {}
    && forall id :: id in Matching(st, imsi, mac, apn) ==> IsLivePGWOwner(st.byID[id].state)
  }

  predicate Stored(st: Store, s: Session) {
    s.id in st.byID && st.byID[s.id] == s
  }

  predicate NoneCreated(calls: seq<Event>) {
    forall e :: e in calls ==> e.kind != CreatePGW
  }

  /** The calls went on from was, and opened PGW sessions only for sessions that are newer
      than next, or for the one the step is about. */
  ghost predicate Continues(next: nat, was: seq<Event>, st: Store, calls: seq<Event>, own: Option<SessionID>) {
    && |was| <= |calls| && calls[..|was|] == was && next <= st.next
    && forall e :: e in calls[|was|..] && Created(e) ==> e.sess.id > next || own == Some(e.sess.id)
  }

  lemma Standstill(st: Store, calls: seq<Event>, own: Option<SessionID>)
    ensures Continues(st.next, calls, st, calls, own) && NoneCreated(calls[|calls|..])
  {
  }

  /** Two steps in a row. */
  lemma Onward(was: seq<Event>, mid: seq<Event>, calls: seq<Event>)
    requires |was| <= |mid| <= |calls| && mid[..|was|] == was && calls[..|mid|] == mid
    ensures calls[..|was|] == was && calls[|was|..] == mid[|was|..] + calls[|mid|..]
    ensures NoneCreated(mid[|was|..]) && NoneCreated(calls[|mid|..]) ==> NoneCreated(calls[|was|..])
  {
  }

  lemma Further(next: nat, was: seq<Event>, st: Store, mid: seq<Event>, st': Store, calls: seq<Event>,
                own: Option<SessionID>)
    requires Continues(next, was, st, mid, own) && Continues(st.next, mid, st', calls, own)
    ensures Continues(next, was, st', calls, own)
    ensures NoneCreated(mid[|was|..]) && NoneCreated(calls[|mid|..]) ==> NoneCreated(calls[|was|..])
  {
    Onward(was, mid, calls);
  }

  lemma {:induction false} CleanUpCreatesNone(cfg: Config, es: seq<Event>)
    requires Kinds(es) == DetachOrder(cfg)
    ensures NoneCreated(es)
  {
    forall i | 0 <= i < |es| ensures es[i].kind != CreatePGW {
      assert Kinds(es)[i] == es[i].kind;
    }
  }

  /** An error that a takedown reports: any, but that of a PGW that no longer knows the session
      or does not answer in time. */
  predicate Reports(e: Event) {
    e.err.Some? && (e.kind != DeletePGW || e.err.value == OtherFailure)
  }

  /** The takedown of an earlier session stops the attach: something is reported, and nothing
      that is reported says that the PGW no longer knew the session. */
  ghost predicate Blocks(es: seq<Event>) {
    (exists e :: e in es && Reports(e)) && forall e :: e in es && Reports(e) ==> e.err != Some(ContextNotFound)
  }

  /** Nothing is reported. */
  ghost predicate Clean(es: seq<Event>) {
    forall e :: e in es ==> !Reports(e)
  }

  lemma OneMoreReport(es: seq<Event>, e: Event)
    ensures FatalErrors(es + [e]) == FatalErrors(es) + if Reports(e) then [e.err.value] else []
  {
    assert (es + [e])[..|es|] == es;
  }

  lemma {:induction false} ReportedErrors(es: seq<Event>)
    ensures FatalErrors(es) == [] <==> Clean(es)
    ensures ContextNotFound in FatalErrors(es) <==> exists e :: e in es && Reports(e) && e.err == Some(ContextNotFound)
  {
    if es == [] {
    } else {
      hide FatalErrors, Reports;
      var n := |es| - 1;
      ReportedErrors(es[..n]);
      OneMoreReport(es[..n], es[n]);
      assert es == es[..n] + [es[n]];
    }
  }

  /** detachSessionLocked, seen from the handlers. */
  method TakeDown(svc: Service, sess: Session) returns (errs: seq<Failure>, refused: bool)
    requires WellFormed(svc.sessions) && (svc.serialised ==> Ledger(svc.sessions, svc.calls))
    modifies svc
    ensures WellFormed(svc.sessions) && (svc.serialised ==> Ledger(svc.sessions, svc.calls))
    ensures |old(svc.calls)| <= |svc.calls| && NoneCreated(svc.calls[|old(svc.calls)|..])
    ensures svc.calls[..|old(svc.calls)|] == old(svc.calls)
    ensures errs != [] && ContextNotFound !in errs <==> Blocks(svc.calls[|old(svc.calls)|..])
    ensures errs == [] <==> Clean(svc.calls[|old(svc.calls)|..])
    ensures if refused then svc.calls == old(svc.calls) else Kinds(svc.calls[|old(svc.calls)|..]) == DetachOrder(svc.cfg)
    ensures svc.serialised ==>
              && Continues(old(svc.sessions).next, old(svc.calls), svc.sessions, svc.calls, None)
              && (refused <==> !Enabled(old(svc.sessions), MarkTerminating(sess.id)))
              && (refused ==> svc.sessions == old(svc.sessions))
              && svc.sessions.next == old(svc.sessions).next
              && svc.sessions.byID == old(svc.sessions).byID - (if refused then {} else {sess.id})
              && forall e :: e in svc.calls[|old(svc.calls)|..] ==>
                   sess.id in old(svc.sessions).byID && e.sess == old(svc.sessions).byID[sess.id].(state := Terminating)
  {
    hide Ledger, Enabled, Exec, Kinds, FatalErrors;
    ghost var was := svc.calls;
    var terminated: Option<Session>;
    terminated, errs, refused := svc.DetachSessionLocked(sess);
    ReportedErrors(svc.calls[|was|..]);
    if refused {
      assert svc.calls[|was|..] == [];
      ReportedErrors([]);
    } else {
      CleanUpCreatesNone(svc.cfg, svc.calls[|was|..]);
    }
  }

  /** Any match may be picked; a picked session that is over is dropped. */
  method FindAttachExisting(svc: Service, imsi: string, mac: string, apn: string) returns (r: Option<Session>)
    requires WellFormed(svc.sessions)
    modifies svc`sessions
    ensures WellFormed(svc.sessions) && (svc.serialised ==> svc.sessions == old(svc.sessions))
    ensures r.Some? ==>
              Stored(svc.sessions, r.value) && r.value.id in Matching(svc.sessions, imsi, mac, apn) && IsLivePGWOwner(r.value.state)
    ensures MustFind(svc.sessions, imsi, mac, apn) ==> r.Some?
  {
    svc.Yield();
    var matching := Matching(svc.sessions, imsi, mac, apn);
    if matching != {} {
      var id :| id in matching;
      if IsLivePGWOwner(svc.sessions.byID[id].state) {
        return Some(svc.sessions.byID[id]);
      }
    }
    r := None;
  }

  /** Reuse, or tear the earlier session down first. Ok(Some(s)) reuses s, Ok(None) goes on. */
  method HandleExistingBeforeAttach(svc: Service, existing: Session, apn: string)
    returns (r: Result<Option<Session>, AttachError>)
    requires WellFormed(svc.sessions) && (svc.serialised ==> Ledger(svc.sessions, svc.calls))
    modifies svc
    ensures WellFormed(svc.sessions) && (svc.serialised ==> Ledger(svc.sessions, svc.calls))
    ensures |old(svc.calls)| <= |svc.calls| && NoneCreated(svc.calls[|old(svc.calls)|..])
    ensures InUse(svc.cfg, existing, apn) <==> r == Ok(Some(existing))
    ensures r.Ok? && r.value.Some? ==> r.value.value == existing
    ensures Blocks(svc.calls[|old(svc.calls)|..]) ==> r.Err?
    ensures svc.serialised && IsLivePGWOwner(existing.state) && ShouldReplaceExisting(svc.cfg, existing, apn)
            && Enabled(old(svc.sessions), MarkTerminating(existing.id)) ==>
              && (r.Err? <==> Blocks(svc.calls[|old(svc.calls)|..]))
              && Kinds(svc.calls[|old(svc.calls)|..]) == DetachOrder(svc.cfg)
              && forall e :: e in svc.calls[|old(svc.calls)|..] ==> e.sess.id == existing.id
    ensures svc.serialised ==> Continues(old(svc.sessions).next, old(svc.calls), svc.sessions, svc.calls, None)
    ensures svc.serialised ==> svc.sessions.next == old(svc.sessions).next
    ensures !IsLivePGWOwner(existing.state) || !ShouldReplaceExisting(svc.cfg, existing, apn) ==>
              svc.calls == old(svc.calls) && (svc.serialised ==> svc.sessions == old(svc.sessions))
    ensures svc.serialised && IsLivePGWOwner(existing.state) && ShouldReplaceExisting(svc.cfg, existing, apn) ==>
              if Enabled(old(svc.sessions), MarkTerminating(existing.id))
              then svc.sessions.byID == old(svc.sessions).byID - {existing.id}
              else svc.sessions.byID == old(svc.sessions).byID && r.Err?
  {
    hide Ledger, Enabled;
    Standstill(svc.sessions, svc.calls, None);
    InUseIffKept(svc.cfg, existing, apn);
    if !IsLivePGWOwner(existing.state) {
      return Ok(None);
    }
    if !ShouldReplaceExisting(svc.cfg, existing, apn) {
      return Ok(Some(existing));
    }
    var errs, refused := TakeDown(svc, existing);
    if refused {
      return Err(StoreRefused);
    }
    if errs != [] && ContextNotFound !in errs {
      return Err(DetachFailed(errs));
    }
    r := Ok(None);
  }

  /** What an attach may do to the earlier sessions: at most take down those it matches and
      may not reuse. All others keep their record. */
  ghost predicate Spares(st: Store, st': Store, imsi: string, mac: string, apn: string, cfg: Config, reqAPN: string) {
    forall id :: id in st.byID ==>
      || (id in st'.byID && st'.byID[id] == st.byID[id])
      || (id in Matching(st, imsi, mac, apn) && ShouldReplaceExisting(cfg, st.byID[id], reqAPN))
  }

  /** A stored session that an attach for want must reuse rather than open a second one. */
  predicate Holds(st: Store, h: SessionID, cfg: Config, want: Session, reqAPN: string) {
    h in st.byID && !ShouldReplaceExisting(cfg, st.byID[h], reqAPN) && Detects(st.byID[h], want)
  }

  /** What the lookup comes to: a session in use is handed back, one that is not is taken down,
      and the attach goes on unless that takedown is stopped by an error. */
  ghost predicate LookedUp(serialised: bool, cfg: Config, reqAPN: string, picked: Option<Session>,
                         r: Result<Option<Session>, AttachError>, es: seq<Event>) {
    && (Blocks(es) ==> r.Err?)
    && (picked.None? ==> r == Ok(None) && es == [])
    && (picked.Some? && !ShouldReplaceExisting(cfg, picked.value, reqAPN) ==> r == Ok(picked) && es == [])
    && (serialised && picked.Some? && ShouldReplaceExisting(cfg, picked.value, reqAPN) ==>
          && (if Blocks(es) then r.Err? else r == Ok(None)) && Kinds(es) == DetachOrder(cfg)
          && forall e :: e in es ==> e.sess.id == picked.value.id)
  }

  lemma LiveEnds(st: Store, s: Session)
    ensures Stored(st, s) && IsLivePGWOwner(s.state) ==> Enabled(st, MarkTerminating(s.id))
  {
  }

  /** The lookup and its consequences. */
  method Precheck(svc: Service, imsi: string, mac: string, apn: string, reqAPN: string)
    returns (r: Result<Option<Session>, AttachError>, picked: Option<Session>)
    requires WellFormed(svc.sessions) && (svc.serialised ==> Ledger(svc.sessions, svc.calls))
    modifies svc
    ensures WellFormed(svc.sessions) && (svc.serialised ==> Ledger(svc.sessions, svc.calls))
    ensures |old(svc.calls)| <= |svc.calls| && NoneCreated(svc.calls[|old(svc.calls)|..])
    ensures r.Ok? && r.value.Some? ==> r.value.value.state == Active && svc.calls == old(svc.calls)
    ensures svc.serialised && picked.Some? ==>
              && Stored(old(svc.sessions), picked.value) && picked.value.id in Matching(old(svc.sessions), imsi, mac, apn)
              && IsLivePGWOwner(picked.value.state)
    ensures LookedUp(svc.serialised, svc.cfg, reqAPN, picked, r, svc.calls[|old(svc.calls)|..])
    ensures svc.serialised && r.Ok? && r.value.Some? ==> picked == r.value
    ensures svc.serialised ==>
              && Continues(old(svc.sessions).next, old(svc.calls), svc.sessions, svc.calls, None)
              && Spares(old(svc.sessions), svc.sessions, imsi, mac, apn, svc.cfg, reqAPN)
              && (svc.sessions.byID == old(svc.sessions).byID
                  || (picked.Some? && svc.sessions.byID == old(svc.sessions).byID - {picked.value.id}))
              && svc.sessions.next == old(svc.sessions).next
    ensures svc.serialised && r.Ok? && r.value.Some? ==>
              Stored(old(svc.sessions), r.value.value) && svc.sessions == old(svc.sessions)
    ensures svc.serialised && picked.Some? && ShouldReplaceExisting(svc.cfg, picked.value, reqAPN) ==>
              r.Err? || (r == Ok(None) && picked.value.id !in svc.sessions.byID)
    ensures svc.serialised && MustFind(old(svc.sessions), imsi, mac, apn) ==> picked.Some?
  {
    hide Ledger, Enabled;
    Standstill(svc.sessions, svc.calls, None);
    picked := FindAttachExisting(svc, imsi, mac, apn);
    if picked.None? {
      return Ok(None), picked;
    }
    LiveEnds(svc.sessions, picked.value);
    r := HandleExistingBeforeAttach(svc, picked.value, reqAPN);
  }

  /** A new session, marked AuthPending. */
  method Begin(svc: Service, input: CreateInput) returns (r: Result<Session, AttachError>)
    requires WellFormed(svc.sessions) && (svc.serialised ==> Ledger(svc.sessions, svc.calls))
    modifies svc`sessions
    ensures WellFormed(svc.sessions) && (svc.serialised ==> Ledger(svc.sessions, svc.calls))
    ensures svc.serialised ==>
              && r.Ok? && r.value == NewSession(r.value.id, input).(state := AuthPending) && Ready(svc.sessions, r.value)
              && r.value.id == old(svc.sessions).next + 1 == svc.sessions.next && r.value.id !in old(svc.sessions).byID
              && svc.sessions.byID == old(svc.sessions).byID[r.value.id := r.value]
  {
    hide Ledger, Exec;
    var sess := svc.Create(input);
    var marked := svc.Store1(MarkAuthPending(sess.id));
    if marked.None? {
      return Err(StoreRefused);
    }
    r := Ok(marked.value);
  }

  lemma HolderIsRival(st: Store, h: SessionID, cfg: Config, want: Session, reqAPN: string, s: Session)
    requires Holds(st, h, cfg, want, reqAPN) && h != s.id && SameIdentity(want, s)
    ensures HasRival(st, s)
  {
    assert LiveInStore(st, h) && Detects(st.byID[h], s);
  }

  /** What the outside decides during an attach: whether the lock is had in time, what the
      authentication says (None is a rejection), and whether the caller is still there. */
  datatype Outside = Outside(locked: bool, verdict: Option<AuthResult>, live: bool)

  /** How the activation of s ends that found the store st and made the calls es: exactly when
      it fails, and what comes out when it does not. */
  ghost predicate EndsAs(cfg: Config, st: Store, s: Session, auth: AuthResult, live: bool, es: seq<Event>,
                         r: Result<Session, AttachError>) {
    && (r.Err? <==> Thwarted(st, s, auth, Tallied(es)) || TurnedDown(cfg, live, Brought(s, auth, Tallied(es))))
    && (r.Ok? ==> r.value == Brought(s, auth, Tallied(es)))
  }

  /** The record under a session's own id is no rival of it. */
  lemma RivalsBeside(st: Store, st': Store, s: Session)
    requires st.byID - {s.id} == st'.byID - {s.id}
    ensures HasRival(st, s) <==> HasRival(st', s)
  {
    OthersKept(st, st', s.id);
    forall k | k != s.id ensures LiveInStore(st, k) <==> LiveInStore(st', k) {
      assert k in st.byID <==> k in st'.byID;
    }
  }

  lemma EndsBeside(cfg: Config, st: Store, st': Store, s: Session, s': Session, auth: AuthResult, live: bool, es: seq<Event>,
                   r: Result<Session, AttachError>)
    requires st.byID - {s.id} == st'.byID - {s.id} && s' == s.(state := s'.state)
    ensures EndsAs(cfg, st, s, auth, live, es, r) <==> EndsAs(cfg, st', s', auth, live, es, r)
  {
    RivalsBeside(st, st', Identified(s, auth));
    SameRivals(st', Identified(s, auth), Identified(s', auth));
  }

  lemma SameRivals(st: Store, s: Session, s': Session)
    requires s'.id == s.id && SameIdentity(s, s')
    ensures HasRival(st, s) <==> HasRival(st, s')
  {
    if HasRival(st, s) {
      var k :| k in st.byID && LiveInStore(st, k) && k != s.id && Detects(st.byID[k], s);
      assert Detects(st.byID[k], s');
    }
    if HasRival(st, s') {
      var k :| k in st.byID && LiveInStore(st, k) && k != s'.id && Detects(st.byID[k], s');
      assert Detects(st.byID[k], s);
    }
  }

  /** activateAuthorizedSession, seen from the attaches. */
  method Activate(svc: Service, sess: Session, auth: AuthResult, live: bool, ghost h: SessionID, ghost reqAPN: string)
    returns (r: Result<Session, AttachError>)
    requires Usable(svc.cfg) && WellFormed(svc.sessions)
    requires svc.serialised ==> Ledger(svc.sessions, svc.calls)
    modifies svc
    ensures WellFormed(svc.sessions) && (svc.serialised ==> Ledger(svc.sessions, svc.calls))
    ensures |old(svc.calls)| <= |svc.calls| && (r.Ok? ==> r.value.state == Active)
    ensures svc.serialised ==>
              && Continues(old(svc.sessions).next, old(svc.calls), svc.sessions, svc.calls, Some(sess.id))
              && svc.sessions.byID - {sess.id} == old(svc.sessions).byID - {sess.id}
              && svc.sessions.next == old(svc.sessions).next
              && (r.Ok? ==> Stored(svc.sessions, r.value) && r.value.id == sess.id)
              && (sess.id !in old(svc.sessions).byID ==> r.Err? && svc.calls == old(svc.calls))
    ensures svc.serialised && Ready(old(svc.sessions), sess) ==>
              EndsAs(svc.cfg, old(svc.sessions), sess, auth, live, svc.calls[|old(svc.calls)|..], r)
    ensures svc.serialised && Ready(old(svc.sessions), sess) && h != sess.id
            && Holds(old(svc.sessions), h, svc.cfg, Identified(sess, auth), reqAPN) ==>
              r.Err? && NoneCreated(svc.calls[|old(svc.calls)|..])
  {
    hide Ledger, Held, Disorder, Tallied, HasRival, Detects, Enabled, Stack, FullSet, Brought, TurnedDown, Thwarted;
    ghost var was := svc.calls;
    ghost var st := svc.sessions;
    if svc.serialised && h != sess.id && Holds(st, h, svc.cfg, Identified(sess, auth), reqAPN) {
      HolderIsRival(st, h, svc.cfg, Identified(sess, auth), reqAPN, Identified(sess, auth));
    }
    ghost var gaveBack, lost, tornDown, answer;
    r, gaveBack, lost, tornDown, answer := svc.ActivateAuthorizedSession(sess, auth, live);
  }

  /** The session an attach asks for, by what it will be known. */
  function Wanted(cfg: Config, request: AttachRequest, given: Option<AuthResult>): Session {
    var req := WithDefaults(cfg, request);
    NewSession(0, AuthorizedInput(req, Granted(req, given)))
  }

  /** Opening and activating a session that is new: the calls are for it alone. */
  method BeginAndActivate(svc: Service, input: CreateInput, auth: AuthResult, live: bool, ghost h: SessionID, ghost reqAPN: string)
    returns (r: Result<Session, AttachError>)
    requires Usable(svc.cfg) && WellFormed(svc.sessions)
    requires Coalesce(auth.imsi, input.imsi) == input.imsi && Coalesce(auth.apn, input.apn) == input.apn
    requires svc.serialised ==> Ledger(svc.sessions, svc.calls)
    modifies svc
    ensures WellFormed(svc.sessions) && (svc.serialised ==> Ledger(svc.sessions, svc.calls))
    ensures |old(svc.calls)| <= |svc.calls| && (r.Ok? ==> r.value.state == Active)
    ensures svc.serialised ==>
              && Continues(old(svc.sessions).next, old(svc.calls), svc.sessions, svc.calls, None)
              && (forall id :: id in old(svc.sessions).byID ==>
                    id in svc.sessions.byID && svc.sessions.byID[id] == old(svc.sessions).byID[id])
              && (r.Ok? ==> Stored(svc.sessions, r.value))
    ensures svc.serialised ==>
              EndsAs(svc.cfg, old(svc.sessions), NewSession(old(svc.sessions).next + 1, input), auth, live,
                     svc.calls[|old(svc.calls)|..], r)
    ensures svc.serialised && Holds(old(svc.sessions), h, svc.cfg, NewSession(0, input), reqAPN) ==>
              r.Err? && NoneCreated(svc.calls[|old(svc.calls)|..])
  {
    hide Ledger, Detects, ShouldReplaceExisting, EndsAs;
    Standstill(svc.sessions, svc.calls, None);
    var begun := Begin(svc, input);
    if begun.Err? {
      return Err(begun.error);
    }
    ghost var st1 := svc.sessions;
    r := Activate(svc, begun.value, auth, live, h, reqAPN);
    if svc.serialised {
      OthersKept(st1, svc.sessions, begun.value.id);
      EndsBeside(svc.cfg, old(svc.sessions), st1, NewSession(begun.value.id, input), begun.value, auth, live,
                 svc.calls[|old(svc.calls)|..], r);
    }
    if svc.serialised && Holds(old(svc.sessions), h, svc.cfg, NewSession(0, input), reqAPN) {
      SameHolder(old(svc.sessions).byID[h], NewSession(0, input), Identified(begun.value, auth));
    }
  }

  lemma OthersKept(st: Store, st': Store, id: SessionID)
    requires st'.byID - {id} == st.byID - {id}
    ensures forall k :: k != id ==> (k in st'.byID <==> k in st.byID)
    ensures forall k :: k != id && k in st.byID ==> st'.byID[k] == st.byID[k]
  {
    forall k | k != id ensures k in st'.byID <==> k in st.byID {
      assert k in st'.byID - {id} <==> k in st.byID - {id};
    }
    forall k | k != id && k in st.byID ensures st'.byID[k] == st.byID[k] {
      assert (st'.byID - {id})[k] == (st.byID - {id})[k];
    }
  }

  lemma SameHolder(holder: Session, a: Session, b: Session)
    requires SameIdentity(a, b)
    ensures Detects(holder, a) <==> Detects(holder, b)
  {
  }

  /** The store without the session that was taken down. */
  function Cleared(st: Store, picked: Option<Session>): Store {
    st.(byID := st.byID - if picked.Some? then {picked.value.id} else {})
  }

  /** What a lookup picked, and the calls of the takedown that followed, if one did. */
  ghost predicate Tookdown(cfg: Config, st: Store, want: Session, reqAPN: string, picked: Option<Session>, took: seq<Event>) {
    if picked.None? then took == [] && !MustFind(st, want.imsi, want.mac, want.apn)
    else
      && Stored(st, picked.value) && picked.value.id in Matching(st, want.imsi, want.mac, want.apn)
      && IsLivePGWOwner(picked.value.state)
      && if !ShouldReplaceExisting(cfg, picked.value, reqAPN) then took == []
         else Kinds(took) == DetachOrder(cfg) && forall e :: e in took ==> e.sess.id == picked.value.id
  }

  predicate Reuses(cfg: Config, reqAPN: string, picked: Option<Session>) {
    picked.Some? && !ShouldReplaceExisting(cfg, picked.value, reqAPN)
  }

  /** How an attach goes from its lookup on, with the calls of a takedown and those after it:
      reuse, the end at a takedown that was stopped, or exactly what the activation comes to. */
  ghost predicate AttachesAs(cfg: Config, st: Store, want: Session, reqAPN: string, s: Session, auth: AuthResult, live: bool,
                             picked: Option<Session>, took: seq<Event>, es: seq<Event>, r: Result<Session, AttachError>) {
    && Tookdown(cfg, st, want, reqAPN, picked, took)
    && if Reuses(cfg, reqAPN, picked) then r == Ok(picked.value) && es == []
       else if Blocks(took) then r.Err? && es == []
       else EndsAs(cfg, Cleared(st, picked), s, auth, live, es, r)
  }

  lemma NothingBlocks()
    ensures !Blocks([])
  {
  }

  lemma PickedGone(cfg: Config, st: Store, st1: Store, picked: Option<Session>, s: Session, auth: AuthResult, live: bool,
                   es: seq<Event>, r: Result<Session, AttachError>)
    requires st1.byID == Cleared(st, picked).byID
    ensures EndsAs(cfg, st1, s, auth, live, es, r) <==> EndsAs(cfg, Cleared(st, picked), s, auth, live, es, r)
  {
    EndsBeside(cfg, st1, Cleared(st, picked), s, s, auth, live, es, r);
  }

  /** An attach that comes with its authorization. When a stored session h of the subscriber
      must be reused, no PGW session is opened and h is left alone, whichever of the matching
      sessions the lookup picks. */
  method AttachAuthorized(svc: Service, request: AttachRequest, given: Option<AuthResult>, o: Outside, ghost h: SessionID)
    returns (r: Result<Session, AttachError>, ghost picked: Option<Session>, ghost mid: nat)
    requires Usable(svc.cfg) && WellFormed(svc.sessions)
    requires svc.serialised ==> Ledger(svc.sessions, svc.calls)
    modifies svc
    ensures WellFormed(svc.sessions) && (svc.serialised ==> Ledger(svc.sessions, svc.calls))
    ensures |old(svc.calls)| <= |svc.calls| && (r.Ok? ==> r.value.state == Active)
    ensures svc.serialised ==>
              && Continues(old(svc.sessions).next, old(svc.calls), svc.sessions, svc.calls, None)
              && (r.Ok? ==> Stored(svc.sessions, r.value))
              && var want := Wanted(svc.cfg, request, given);
                 Spares(old(svc.sessions), svc.sessions, want.imsi, want.mac, want.apn, svc.cfg,
                        WithDefaults(svc.cfg, request).apn)
    ensures |old(svc.calls)| <= mid <= |svc.calls|
    ensures var auth := Granted(WithDefaults(svc.cfg, request), given);
            if !auth.allowed then r == Err(Rejected) && svc.calls == old(svc.calls)
            else if !o.locked then r == Err(LockTimeout) && svc.calls == old(svc.calls)
            else svc.serialised ==>
                   AttachesAs(svc.cfg, old(svc.sessions), Wanted(svc.cfg, request, given), WithDefaults(svc.cfg, request).apn,
                              NewSession(old(svc.sessions).next + 1, AuthorizedInput(WithDefaults(svc.cfg, request), auth)),
                              auth, o.live, picked,
                              svc.calls[|old(svc.calls)|..mid], svc.calls[mid..], r)
    ensures svc.serialised && Holds(old(svc.sessions), h, svc.cfg, Wanted(svc.cfg, request, given),
                                    WithDefaults(svc.cfg, request).apn) ==>
              && NoneCreated(svc.calls[|old(svc.calls)|..])
              && h in svc.sessions.byID && svc.sessions.byID[h] == old(svc.sessions).byID[h]
  {
    hide Ledger, Detects, ShouldReplaceExisting, EndsAs, Matching, Blocks, Kinds, DetachOrder, IsLivePGWOwner, Lower;
    ghost var st := svc.sessions;
    ghost var was := svc.calls;
    Standstill(st, was, None);
    var req := WithDefaults(svc.cfg, request);
    var auth := Granted(req, given);
    NothingBlocks();
    picked, mid := None, |was|;
    if !auth.allowed {
      return Err(Rejected), picked, mid;
    }
    if !o.locked {
      return Err(LockTimeout), picked, mid;
    }
    var input := AuthorizedInput(req, auth);
    var checked, found := Precheck(svc, input.imsi, req.mac, input.apn, req.apn);
    picked, mid := found, |svc.calls|;
    assert svc.calls[|was|..mid] == svc.calls[|was|..] && svc.calls[mid..] == [];
    ghost var st1 := svc.sessions;
    ghost var before := svc.calls;
    if checked.Err? {
      return Err(checked.error), picked, mid;
    }
    if checked.value.Some? {
      return Ok(checked.value.value), picked, mid;
    }
    r := BeginAndActivate(svc, input, auth, o.live, h, req.apn);
    if svc.serialised {
      Further(st.next, was, st1, before, svc.sessions, svc.calls, None);
      assert svc.calls[|was|..mid] == before[|was|..];
      PickedGone(svc.cfg, st, st1, picked, NewSession(st.next + 1, input), auth, o.live, svc.calls[mid..], r);
    }
  }

  /** An attach between its two locks: the authentication named another lock, so the first
      one is given up before the second is taken. */
  datatype Parked = Parked(sess: Session, req: AttachRequest, auth: AuthResult)

  datatype Progress = Done(result: Result<Session, AttachError>) | Waiting(parked: Parked)

  predicate NamesAnotherLock(req: AttachRequest, auth: AuthResult) {
    SubscriberLockKey(Coalesce(auth.imsi, req.imsi), req.mac, Coalesce(auth.apn, req.apn))
    != SubscriberLockKey(req.imsi, req.mac, req.apn)
  }

  lemma SameLockSameHolder(holder: Session, sess: Session, req: AttachRequest, auth: AuthResult)
    requires !NamesAnotherLock(req, auth) && sess.imsi == req.imsi && sess.mac == req.mac && sess.apn == req.apn
    ensures Detects(holder, sess) <==> Detects(holder, Identified(sess, auth))
  {
    assert |Lower(req.apn)| == |Lower(Coalesce(auth.apn, req.apn))|;
  }

  /** How an attach that authenticates goes on without an earlier session in its way. */
  ghost predicate AuthenticatesAs(cfg: Config, st: Store, req: AttachRequest, o: Outside, es: seq<Event>, p: Progress) {
    match o.verdict
    case None => p == Done(Err(Rejected)) && es == []
    case Some(auth) =>
      if NamesAnotherLock(req, auth) then p.Waiting? && p.parked.req == req && p.parked.auth == auth && es == []
      else p.Done? && EndsAs(cfg, st, NewSession(st.next + 1, RequestedInput(req)), auth, o.live, es, p.result)
  }

  ghost predicate BeginsAs(cfg: Config, st: Store, req: AttachRequest, o: Outside, picked: Option<Session>,
                           took: seq<Event>, es: seq<Event>, p: Progress) {
    && Tookdown(cfg, st, NewSession(0, RequestedInput(req)), req.apn, picked, took)
    && if Reuses(cfg, req.apn, picked) then p == Done(Ok(picked.value)) && es == []
       else if Blocks(took) then p.Done? && p.result.Err? && es == []
       else AuthenticatesAs(cfg, Cleared(st, picked), req, o, es, p)
  }

  /** An attach up to its end, or up to where it gives up the lock. */
  method BeginAttach(svc: Service, request: AttachRequest, o: Outside, ghost h: SessionID)
    returns (p: Progress, ghost picked: Option<Session>, ghost mid: nat)
    requires Usable(svc.cfg) && WellFormed(svc.sessions)
    requires svc.serialised ==> Ledger(svc.sessions, svc.calls)
    modifies svc
    ensures WellFormed(svc.sessions) && (svc.serialised ==> Ledger(svc.sessions, svc.calls))
    ensures |old(svc.calls)| <= |svc.calls| && (p.Done? && p.result.Ok? ==> p.result.value.state == Active)
    ensures p.Waiting? ==> p.parked.req == WithDefaults(svc.cfg, request) && NamesAnotherLock(p.parked.req, p.parked.auth)
    ensures svc.serialised ==>
              && Continues(old(svc.sessions).next, old(svc.calls), svc.sessions, svc.calls, None)
              && (p.Done? && p.result.Ok? ==> Stored(svc.sessions, p.result.value))
              && (p.Waiting? ==> WaitsSince(old(svc.sessions).next, svc.sessions, svc.calls, p.parked))
    ensures |old(svc.calls)| <= mid <= |svc.calls|
    ensures if !o.locked then p == Done(Err(LockTimeout)) && svc.calls == old(svc.calls)
            else svc.serialised ==>
                   BeginsAs(svc.cfg, old(svc.sessions), WithDefaults(svc.cfg, request), o, picked,
                            svc.calls[|old(svc.calls)|..mid], svc.calls[mid..], p)
    ensures svc.serialised && Holds(old(svc.sessions), h, svc.cfg, NewSession(0, RequestedInput(WithDefaults(svc.cfg, request))),
                                    WithDefaults(svc.cfg, request).apn) ==>
              && NoneCreated(svc.calls[|old(svc.calls)|..])
              && h in svc.sessions.byID && svc.sessions.byID[h] == old(svc.sessions).byID[h]
  {
    hide Ledger, Detects, ShouldReplaceExisting, NamesAnotherLock, EndsAs, Matching, Blocks, Kinds, DetachOrder, IsLivePGWOwner;
    ghost var st := svc.sessions;
    ghost var was := svc.calls;
    Standstill(st, was, None);
    var req := WithDefaults(svc.cfg, request);
    NothingBlocks();
    picked, mid := None, |was|;
    if !o.locked {
      return Done(Err(LockTimeout)), picked, mid;
    }
    var checked, found := Precheck(svc, req.imsi, req.mac, req.apn, req.apn);
    picked, mid := found, |svc.calls|;
    assert svc.calls[|was|..mid] == svc.calls[|was|..] && svc.calls[mid..] == [];
    ghost var st1 := svc.sessions;
    ghost var before := svc.calls;
    if checked.Err? {
      return Done(Err(checked.error)), picked, mid;
    }
    if checked.value.Some? {
      return Done(Ok(checked.value.value)), picked, mid;
    }
    p := AuthenticateAndActivate(svc, req, o, h);
    if svc.serialised {
      Further(st.next, was, st1, before, svc.sessions, svc.calls, None);
      assert svc.calls[|was|..mid] == before[|was|..];
      if p.Done? && o.verdict.Some? {
        PickedGone(svc.cfg, st, st1, picked, NewSession(st.next + 1, RequestedInput(req)), o.verdict.value, o.live,
                   svc.calls[mid..], p.result);
      }
    }
  }

  /** A parked attach of a session that is newer than next and has no PGW session. */
  predicate WaitsSince(next: nat, st: Store, calls: seq<Event>, p: Parked) {
    && next < p.sess.id <= st.next && NeverCreated(calls, p.sess.id)
    && Ready(st, p.sess) && p.sess.imsi == p.req.imsi && p.sess.mac == p.req.mac && p.sess.apn == p.req.apn
  }

  /** The session record, the authentication, and activation unless another lock is needed. */
  method AuthenticateAndActivate(svc: Service, req: AttachRequest, o: Outside, ghost h: SessionID) returns (p: Progress)
    requires Usable(svc.cfg) && WellFormed(svc.sessions)
    requires svc.serialised ==> Ledger(svc.sessions, svc.calls)
    modifies svc
    ensures WellFormed(svc.sessions) && (svc.serialised ==> Ledger(svc.sessions, svc.calls))
    ensures |old(svc.calls)| <= |svc.calls| && (p.Done? && p.result.Ok? ==> p.result.value.state == Active)
    ensures p.Waiting? ==> p.parked.req == req && NamesAnotherLock(req, p.parked.auth)
    ensures svc.serialised ==>
              && Continues(old(svc.sessions).next, old(svc.calls), svc.sessions, svc.calls, None)
              && (forall id :: id in old(svc.sessions).byID ==>
                    id in svc.sessions.byID && svc.sessions.byID[id] == old(svc.sessions).byID[id])
              && (p.Done? && p.result.Ok? ==> Stored(svc.sessions, p.result.value))
              && (p.Waiting? ==> WaitsSince(old(svc.sessions).next, svc.sessions, svc.calls, p.parked))
    ensures svc.serialised ==>
              AuthenticatesAs(svc.cfg, old(svc.sessions), req, o, svc.calls[|old(svc.calls)|..], p)
    ensures svc.serialised && Holds(old(svc.sessions), h, svc.cfg, NewSession(0, RequestedInput(req)), req.apn) ==>
              NoneCreated(svc.calls[|old(svc.calls)|..])
  {
    hide Ledger, Detects, ShouldReplaceExisting, NamesAnotherLock, Enabled, Exec, Settled, NeverCreated, EndsAs;
    Standstill(svc.sessions, svc.calls, None);
    var begun := Begin(svc, RequestedInput(req));
    if begun.Err? {
      return Done(Err(begun.error));
    }
    var sess := begun.value;
    ghost var st1 := svc.sessions;
    if svc.serialised {
      NewIsFresh(svc.sessions, svc.calls, sess);
    }
    if o.verdict.None? {
      var _ := svc.Store1(MarkFailed(sess.id, "rejected"));
      return Done(Err(Rejected));
    }
    var auth := o.verdict.value;
    if NamesAnotherLock(req, auth) {
      return Waiting(Parked(sess, req, auth));
    }
    var r := Activate(svc, sess, auth, o.live, h, req.apn);
    p := Done(r);
    if svc.serialised {
      OthersKept(st1, svc.sessions, sess.id);
      EndsBeside(svc.cfg, old(svc.sessions), st1, NewSession(sess.id, RequestedInput(req)), sess, auth, o.live,
                 svc.calls[|old(svc.calls)|..], r);
      if h in old(svc.sessions).byID {
        SameHolder(old(svc.sessions).byID[h], NewSession(0, RequestedInput(req)), sess);
        SameLockSameHolder(old(svc.sessions).byID[h], sess, req, auth);
      }
    }
  }

  lemma NewIsFresh(st: Store, calls: seq<Event>, s: Session)
    requires Ledger(st, calls) && Ready(st, s)
    ensures NeverCreated(calls, s.id) && Settled(calls, s.id)
  {
    Fresh(st, calls, s);
    NeverCreatedSettled(calls, s.id);
  }

  lemma ReadyEnds(st: Store, s: Session)
    ensures Ready(st, s) ==> Enabled(st, MarkTerminating(s.id))
  {
  }

  /** Drops a session that never got as far as the PGW. */
  method DiscardPreAuthSession(svc: Service, sess: Session)
    requires WellFormed(svc.sessions)
    requires svc.serialised ==> Ledger(svc.sessions, svc.calls) && NeverCreated(svc.calls, sess.id)
    modifies svc`sessions
    ensures WellFormed(svc.sessions) && (svc.serialised ==> Ledger(svc.sessions, svc.calls))
    ensures svc.serialised ==>
              && svc.sessions.next == old(svc.sessions).next
              && svc.sessions.byID - {sess.id} == old(svc.sessions).byID - {sess.id}
              && (Ready(old(svc.sessions), sess) ==> sess.id !in svc.sessions.byID)
  {
    hide Ledger, Enabled, Exec, Settled, NeverCreated;
    ghost var was := svc.sessions;
    if svc.serialised {
      NeverCreatedSettled(svc.calls, sess.id);
    }
    ReadyEnds(was, sess);
    var marked := svc.Store1(MarkTerminating(sess.id));
    if marked.Some? {
      var _ := svc.Store1(Delete(sess.id));
      if svc.serialised {
        DetachEffect(was, sess.id);
      }
    }
  }

  lemma OwnIsReplaced(st: Store, s: Session, cfg: Config, reqAPN: string, imsi: string, mac: string, apn: string)
    ensures Ready(st, s) ==> ShouldReplaceExisting(cfg, st.byID[s.id], reqAPN) && IsLivePGWOwner(st.byID[s.id].state)
    ensures Matching(st, imsi, mac, apn) == {s.id} ==> s.id in Matching(st, imsi, mac, apn) && s.id in st.byID
  {
    assert s.id in {s.id};
  }

  lemma HolderSpared(st: Store, st': Store, imsi: string, mac: string, apn: string, cfg: Config, reqAPN: string,
                     h: SessionID, want: Session)
    requires Spares(st, st', imsi, mac, apn, cfg, reqAPN)
    ensures Holds(st, h, cfg, want, reqAPN) ==>
              h in st'.byID && st'.byID[h] == st.byID[h] && Holds(st', h, cfg, want, reqAPN) && st.byID[h].state == Active
  {
  }

  /** The sessions the second lookup of a parked attach may pick. */
  function SecondMatching(st: Store, p: Parked): set<SessionID> {
    Matching(st, Coalesce(p.auth.imsi, p.req.imsi), p.req.mac, Coalesce(p.auth.apn, p.req.apn))
  }

  /** The rest of an attach that had to change locks. The second lookup may pick the attach's
      own session, which it can only when that matches; the attach then takes that session down
      and fails. Otherwise the own session is as it was when the activation starts. Without the
      second lock nothing happens, and the own session stays. */
  method ResumeAttach(svc: Service, p: Parked, o: Outside, ghost h: SessionID)
    returns (r: Result<Session, AttachError>, ghost pickedOwn: bool, ghost onward: Option<Store>,
      ghost picked: Option<Session>, ghost mid: nat)
    requires Usable(svc.cfg) && WellFormed(svc.sessions)
    requires svc.serialised ==> Ledger(svc.sessions, svc.calls) && NeverCreated(svc.calls, p.sess.id)
    modifies svc
    ensures WellFormed(svc.sessions) && (svc.serialised ==> Ledger(svc.sessions, svc.calls))
    ensures |old(svc.calls)| <= |svc.calls| && (r.Ok? ==> r.value.state == Active)
    ensures svc.serialised ==> Continues(old(svc.sessions).next, old(svc.calls), svc.sessions, svc.calls, Some(p.sess.id))
    ensures !o.locked ==> r == Err(LockTimeout) && svc.calls == old(svc.calls) && svc.sessions == old(svc.sessions)
    ensures svc.serialised && pickedOwn ==> p.sess.id in SecondMatching(old(svc.sessions), p)
    ensures svc.serialised && Ready(old(svc.sessions), p.sess) && !pickedOwn && onward.Some? ==> Ready(onward.value, p.sess)
    ensures o.locked && r.Ok? && onward.None? ==> svc.serialised ==> p.sess.id !in svc.sessions.byID || !Ready(old(svc.sessions), p.sess)
    ensures |old(svc.calls)| <= mid <= |svc.calls|
    ensures pickedOwn <==> picked.Some? && picked.value.id == p.sess.id
    ensures o.locked && svc.serialised && Ready(old(svc.sessions), p.sess) && !pickedOwn ==>
              AttachesAs(svc.cfg, old(svc.sessions), Identified(p.sess, p.auth).(mac := p.req.mac, imsi := Coalesce(p.auth.imsi, p.req.imsi),
                                                                                 apn := Coalesce(p.auth.apn, p.req.apn)),
                         p.req.apn, p.sess, p.auth, o.live, picked, svc.calls[|old(svc.calls)|..mid], svc.calls[mid..], r)
    ensures svc.serialised && Ready(old(svc.sessions), p.sess) && pickedOwn ==>
              r.Err? && NoneCreated(svc.calls[|old(svc.calls)|..])
    ensures svc.serialised && Ready(old(svc.sessions), p.sess)
            && SecondMatching(old(svc.sessions), p) == {p.sess.id} ==>
              r.Err?
    ensures svc.serialised && Ready(old(svc.sessions), p.sess)
            && Holds(old(svc.sessions), h, svc.cfg, Identified(p.sess, p.auth), p.req.apn) ==>
              && NoneCreated(svc.calls[|old(svc.calls)|..])
              && h in svc.sessions.byID && svc.sessions.byID[h] == old(svc.sessions).byID[h]
  {
    hide Ledger, Detects, Enabled, Exec, Settled, NeverCreated, WellFormed, ShouldReplaceExisting, SubscriberMatches,
         Matching, Spares, Identified, Coalesce, Usable, EndsAs;
    ghost var st := svc.sessions;
    ghost var was := svc.calls;
    Standstill(st, was, Some(p.sess.id));
    pickedOwn, onward := false, None;
    OwnIsReplaced(st, p.sess, svc.cfg, p.req.apn, Coalesce(p.auth.imsi, p.req.imsi), p.req.mac, Coalesce(p.auth.apn, p.req.apn));
    NothingBlocks();
    picked, mid := None, |was|;
    if !o.locked {
      return Err(LockTimeout), pickedOwn, onward, picked, mid;
    }
    var checked, found := Precheck(svc, Coalesce(p.auth.imsi, p.req.imsi), p.req.mac, Coalesce(p.auth.apn, p.req.apn), p.req.apn);
    picked, mid := found, |svc.calls|;
    assert svc.calls[|was|..mid] == svc.calls[|was|..] && svc.calls[mid..] == [];
    pickedOwn := picked.Some? && picked.value.id == p.sess.id;
    if svc.serialised {
      HolderSpared(st, svc.sessions, Coalesce(p.auth.imsi, p.req.imsi), p.req.mac, Coalesce(p.auth.apn, p.req.apn),
                   svc.cfg, p.req.apn, h, Identified(p.sess, p.auth));
    }
    if checked.Err? {
      return Err(checked.error), pickedOwn, onward, picked, mid;
    }
    if checked.value.Some? {
      DiscardPreAuthSession(svc, p.sess);
      if svc.serialised {
        OthersKept(st, svc.sessions, p.sess.id);
      }
      return Ok(checked.value.value), pickedOwn, onward, picked, mid;
    }
    ghost var st1 := svc.sessions;
    ghost var before := svc.calls;
    onward := Some(st1);
    r := Activate(svc, p.sess, p.auth, o.live, h, p.req.apn);
    if svc.serialised {
      OthersKept(st1, svc.sessions, p.sess.id);
      Further(st.next, was, st1, before, svc.sessions, svc.calls, Some(p.sess.id));
      assert svc.calls[|was|..mid] == before[|was|..];
      PickedGone(svc.cfg, st, st1, picked, p.sess, p.auth, o.live, svc.calls[mid..], r);
    }
  }

  /** Exactly which parked attaches find their own session on the second lookup, and so fail
      when nothing else matches: those whose authentication only filled in a missing IMSI
      (the request had a MAC address) or a missing APN. */
  lemma ParkedFindsItself(st: Store, p: Parked)
    requires Ready(st, p.sess) && NamesAnotherLock(p.req, p.auth)
    requires p.sess.imsi == p.req.imsi && p.sess.mac == p.req.mac && p.sess.apn == p.req.apn
    ensures p.sess.id in SecondMatching(st, p) <==>
            && (p.req.apn == "" || SameAPN(p.req.apn, Coalesce(p.auth.apn, p.req.apn)))
            && (if p.req.imsi == "" then p.req.mac != "" else Coalesce(p.auth.imsi, p.req.imsi) == p.req.imsi)
  {
  }

  /** An ordinary attach of this kind: a request without an IMSI, whose authentication supplies
      it. From an empty store its own session is the one and only match of the second lookup. */
  lemma MACOnlyAttachFindsItself(mac: string, apn: string, imsi: string)
    requires mac != "" && imsi != ""
    ensures var req := AttachRequest("", "", mac, apn, "", 0);
            var st := Exec(Exec(Empty, Create(RequestedInput(req))), MarkAuthPending(1));
            var p := Parked(NewSession(1, RequestedInput(req)).(state := AuthPending), req, AuthResult(true, imsi, "", apn, "ok"));
            && Ready(st, p.sess) && NamesAnotherLock(p.req, p.auth) && SecondMatching(st, p) == {p.sess.id}
  {
    var req := AttachRequest("", "", mac, apn, "", 0);
    var st := Exec(Exec(Empty, Create(RequestedInput(req))), MarkAuthPending(1));
    var p := Parked(NewSession(1, RequestedInput(req)).(state := AuthPending), req, AuthResult(true, imsi, "", apn, "ok"));
    ParkedFindsItself(st, p);
  }

  // --- attaching again and again ---

  datatype Again = WithAuthorization(request: AttachRequest, given: Option<AuthResult>) | Plain(request: AttachRequest)

  /** Who the attach asks for, before any authentication of its own. */
  function AskedFor(cfg: Config, again: Again): Session {
    match again
    case WithAuthorization(request, given) => Wanted(cfg, request, given)
    case Plain(request) => NewSession(0, RequestedInput(WithDefaults(cfg, request)))
  }

  /** However often a subscriber with a session in use attaches again, with or without an
      authorization, no PGW session is opened and the session stays as it is. An attach whose
      authentication turns it into somebody else's is not followed further. */
  method AttachAgain(svc: Service, schedule: seq<Again>, h: SessionID)
    requires Usable(svc.cfg) && WellFormed(svc.sessions)
    requires svc.serialised && Ledger(svc.sessions, svc.calls) && h in svc.sessions.byID
    requires forall i :: 0 <= i < |schedule| ==>
               Holds(svc.sessions, h, svc.cfg, AskedFor(svc.cfg, schedule[i]), WithDefaults(svc.cfg, schedule[i].request).apn)
    modifies svc
    ensures |old(svc.calls)| <= |svc.calls| && svc.calls[..|old(svc.calls)|] == old(svc.calls)
    ensures NoneCreated(svc.calls[|old(svc.calls)|..]) && Ledger(svc.sessions, svc.calls)
    ensures h in svc.sessions.byID && svc.sessions.byID[h] == old(svc.sessions).byID[h]
  {
    hide Ledger, Detects, ShouldReplaceExisting, AskedFor;
    ghost var was := svc.calls;
    ghost var st := svc.sessions;
    for i := 0 to |schedule|
      invariant WellFormed(svc.sessions) && Ledger(svc.sessions, svc.calls)
      invariant |was| <= |svc.calls| && svc.calls[..|was|] == was && NoneCreated(svc.calls[|was|..])
      invariant h in svc.sessions.byID && svc.sessions.byID[h] == st.byID[h]
    {
      assert Holds(st, h, svc.cfg, AskedFor(svc.cfg, schedule[i]), WithDefaults(svc.cfg, schedule[i].request).apn);
      ghost var mid := svc.calls;
      AttachOnce(svc, schedule[i], h);
      Onward(was, mid, svc.calls);
    }
  }

  method AttachOnce(svc: Service, again: Again, h: SessionID)
    requires Usable(svc.cfg) && WellFormed(svc.sessions) && svc.serialised && Ledger(svc.sessions, svc.calls)
    requires Holds(svc.sessions, h, svc.cfg, AskedFor(svc.cfg, again), WithDefaults(svc.cfg, again.request).apn)
    modifies svc
    ensures WellFormed(svc.sessions) && Ledger(svc.sessions, svc.calls)
    ensures |old(svc.calls)| <= |svc.calls| && svc.calls[..|old(svc.calls)|] == old(svc.calls)
    ensures NoneCreated(svc.calls[|old(svc.calls)|..])
    ensures h in svc.sessions.byID && svc.sessions.byID[h] == old(svc.sessions).byID[h]
  {
    hide Ledger, Detects, ShouldReplaceExisting, NamesAnotherLock, NeverCreated, Ready;
    ghost var was := svc.calls;
    match again
    case WithAuthorization(request, given) =>
      var o: Outside := *;
      var _, _, _ := AttachAuthorized(svc, request, given, o, h);
    case Plain(request) =>
      var o: Outside := *;
      var p, _, _ := BeginAttach(svc, request, o, h);
      if p.Waiting? && Holds(svc.sessions, h, svc.cfg, Identified(p.parked.sess, p.parked.auth), p.parked.req.apn) {
        ghost var mid := svc.calls;
        o := *;
        var _, _, _, _, _ := ResumeAttach(svc, p.parked, o, h);
        Onward(was, mid, svc.calls);
      }
  }

  // --- detach and the handlers that tear down ---

  /** By session id, else by IMSI, else by MAC address. */
  function FindDetachSession(st: Store, id: Option<SessionID>, imsi: string, mac: string): Option<Session> {
    if id.Some? && id.value in st.byID then Some(st.byID[id.value])
    else if imsi != "" && LookupByIMSI(st, imsi).Some? then LookupByIMSI(st, imsi)
    else if mac != "" then LookupByMAC(st, mac)
    else None
  }

  /** In a store whose indexes are in order: the session with that id if there is one, otherwise
      one with that IMSI, otherwise one with that MAC address, and none only if there is none. */
  lemma DetachFindsByScan(st: Store, id: Option<SessionID>, imsi: string, mac: string)
    requires Sound(st) && Complete(st)
    ensures var found := FindDetachSession(st, id, imsi, mac);
            var byID := id.Some? && id.value in st.byID;
            var someIMSI := imsi != "" && exists k :: k in st.byID && st.byID[k].imsi == imsi;
            var someMAC := mac != "" && exists k :: k in st.byID && st.byID[k].mac == mac;
            && (found.Some? <==> byID || someIMSI || someMAC)
            && (found.Some? ==> Stored(st, found.value))
            && (byID ==> found.value.id == id.value)
            && (!byID && someIMSI ==> found.value.imsi == imsi)
            && (!byID && !someIMSI && someMAC ==> found.value.mac == mac)
  {
    forall k | k in st.byID ensures Indexed(st, st.byID[k]) {
    }
  }

  /** A session that may still be taken down. */
  lemma MayEnd(st: Store, s: Session)
    ensures Stored(st, s) ==> (Enabled(st, MarkTerminating(s.id)) <==> s.state != Terminated && s.state != Failed)
  {
  }

  /** The calls of a complete takedown of s, which is marked Terminating by then. */
  ghost predicate TakesDown(cfg: Config, s: Session, es: seq<Event>) {
    Kinds(es) == DetachOrder(cfg) && forall e :: e in es ==> e.sess == s.(state := Terminating)
  }

  /** Detaching takes the session down that it finds, and reports what went wrong on the way. */
  method Detach(svc: Service, id: Option<SessionID>, imsi: string, mac: string, locked: bool)
    returns (err: Option<AttachError>)
    requires WellFormed(svc.sessions) && (svc.serialised ==> Ledger(svc.sessions, svc.calls))
    modifies svc
    ensures WellFormed(svc.sessions) && (svc.serialised ==> Ledger(svc.sessions, svc.calls))
    ensures svc.serialised ==> Continues(old(svc.sessions).next, old(svc.calls), svc.sessions, svc.calls, None)
    ensures svc.serialised ==>
              var found := FindDetachSession(old(svc.sessions), id, imsi, mac);
              if found.Some? && locked && found.value.state != Terminated && found.value.state != Failed then
                && svc.sessions.byID == old(svc.sessions).byID - {found.value.id}
                && TakesDown(svc.cfg, found.value, svc.calls[|old(svc.calls)|..])
                && (err.None? <==> Clean(svc.calls[|old(svc.calls)|..])) && (err.Some? ==> err.value.DetachFailed?)
              else
                && svc.sessions == old(svc.sessions) && svc.calls == old(svc.calls)
                && err == Some(if found.None? then SessionNotFound else if !locked then LockTimeout else StoreRefused)
  {
    hide Ledger, Enabled, Kinds, DetachOrder, Reports;
    Standstill(svc.sessions, svc.calls, None);
    var found := FindDetachSession(svc.sessions, id, imsi, mac);
    if found.None? {
      return Some(SessionNotFound);
    }
    if !locked {
      return Some(LockTimeout);
    }
    MayEnd(svc.sessions, found.value);
    var errs, refused := TakeDown(svc, found.value);
    err := if refused then Some(StoreRefused) else if errs != [] then Some(DetachFailed(errs)) else None;
  }

  /** What a teardown handler did: nothing but edits to one session, or its removal. */
  ghost predicate TornDown(st: Store, st': Store, id: SessionID) {
    st'.next == st.next && st'.byID - {id} == st.byID - {id}
  }

  lemma RecoveringEdit(st: Store, s: Session, reason: string)
    ensures Stored(st, s) && s.state == Active ==>
              && Enabled(st, MarkRecovering(s.id, reason))
              && Edited(MarkRecovering(s.id, reason), st.byID[s.id]) == s.(reason := reason, state := Recovering)
  {
  }

  /** Marks a session Recovering, if it can be, and takes it down. */
  method RecoverAndTakeDown(svc: Service, sess: Session, reason: string) returns (errs: seq<Failure>)
    requires WellFormed(svc.sessions) && (svc.serialised ==> Ledger(svc.sessions, svc.calls))
    modifies svc
    ensures WellFormed(svc.sessions) && (svc.serialised ==> Ledger(svc.sessions, svc.calls))
    ensures |old(svc.calls)| <= |svc.calls| && svc.calls[..|old(svc.calls)|] == old(svc.calls)
    ensures errs != [] && ContextNotFound !in errs <==> Blocks(svc.calls[|old(svc.calls)|..])
    ensures svc.serialised ==> Continues(old(svc.sessions).next, old(svc.calls), svc.sessions, svc.calls, None)
    ensures svc.serialised ==> TornDown(old(svc.sessions), svc.sessions, sess.id)
    ensures svc.serialised && Stored(old(svc.sessions), sess) && sess.state == Active ==>
              && svc.sessions.byID == old(svc.sessions).byID - {sess.id}
              && TakesDown(svc.cfg, sess.(reason := reason), svc.calls[|old(svc.calls)|..])
  {
    hide Ledger, Exec, Enabled, Edited, Edit, Kinds, DetachOrder, Blocks, NoneCreated, Clean;
    RecoveringEdit(svc.sessions, sess, reason);
    var marked := svc.Store1(MarkRecovering(sess.id, reason));
    MayEnd(svc.sessions, sess.(reason := reason, state := Recovering));
    var refused: bool;
    errs, refused := TakeDown(svc, sess);
  }

  /** A GTP-U error indication for a tunnel: the error is counted, and an Active session is
      taken down under its lock. */
  method HandleGTPUErrorIndication(svc: Service, teid: nat, locked: bool)
    returns (picked: Option<Session>, err: Option<AttachError>)
    requires WellFormed(svc.sessions) && (svc.serialised ==> Ledger(svc.sessions, svc.calls))
    modifies svc
    ensures WellFormed(svc.sessions) && (svc.serialised ==> Ledger(svc.sessions, svc.calls))
    ensures svc.serialised ==> Continues(old(svc.sessions).next, old(svc.calls), svc.sessions, svc.calls, None)
    ensures picked.None? <==> teid == 0 || forall id :: id in old(svc.sessions).byID ==>
                                                        old(svc.sessions).byID[id].remoteGTPUTEID != teid
    ensures picked.None? ==> err.None? && svc.sessions == old(svc.sessions) && svc.calls == old(svc.calls)
    ensures picked.Some? ==> Stored(old(svc.sessions), picked.value) && picked.value.remoteGTPUTEID == teid
    ensures svc.serialised && picked.Some? ==>
              var counted := picked.value.(gtpuErrorCount := picked.value.gtpuErrorCount + 1, reason := "GTP-U Error Indication");
              if picked.value.state == Active && locked then
                && svc.sessions.byID == old(svc.sessions).byID - {picked.value.id}
                && TakesDown(svc.cfg, counted, svc.calls[|old(svc.calls)|..])
                && if Blocks(svc.calls[|old(svc.calls)|..]) then err.Some? && err.value.DetachFailed? else err.None?
              else
                && svc.sessions.byID == old(svc.sessions).byID[counted.id := counted] && svc.calls == old(svc.calls)
                && err == if picked.value.state == Active then Some(LockTimeout) else None
  {
    hide Ledger, Exec, Kinds, DetachOrder, Blocks, TornDown, ValidTransition;
    Standstill(svc.sessions, svc.calls, None);
    picked, err := None, None;
    var mapped := set id | id in svc.sessions.byID && svc.sessions.byID[id].remoteGTPUTEID == teid;
    if teid == 0 || mapped == {} {
      assert forall id :: id in svc.sessions.byID && svc.sessions.byID[id].remoteGTPUTEID == teid ==> id in mapped;
      return;
    }
    var id :| id in mapped;
    picked := Some(svc.sessions.byID[id]);
    var recorded := svc.Store1(RecordGTPUError(id, "GTP-U Error Indication"));
    var latest := if recorded.Some? then recorded.value else picked.value;
    if latest.state != Active {
      return;
    }
    if !locked {
      return picked, Some(LockTimeout);
    }
    svc.Yield();
    if id !in svc.sessions.byID || svc.sessions.byID[id].state != Active {
      return;
    }
    ghost var st1 := svc.sessions;
    var errs := RecoverAndTakeDown(svc, svc.sessions.byID[id], "GTP-U Error Indication");
    err := if errs != [] && ContextNotFound !in errs then Some(DetachFailed(errs)) else None;
  }

  /** The PGW took a session away: no lock is taken. */
  method HandlePGWInitiatedDelete(svc: Service, teid: nat)
    requires WellFormed(svc.sessions) && (svc.serialised ==> Ledger(svc.sessions, svc.calls))
    modifies svc
    ensures WellFormed(svc.sessions) && (svc.serialised ==> Ledger(svc.sessions, svc.calls))
    ensures svc.serialised ==> Continues(old(svc.sessions).next, old(svc.calls), svc.sessions, svc.calls, None)
    ensures svc.serialised ==>
              match LookupByTEID(old(svc.sessions), teid)
              case None => svc.sessions == old(svc.sessions) && svc.calls == old(svc.calls)
              case Some(s) =>
                if s.state == Active then
                  && svc.sessions.byID == old(svc.sessions).byID - {s.id}
                  && TakesDown(svc.cfg, s.(reason := "PGW-initiated bearer/session deletion"), svc.calls[|old(svc.calls)|..])
                else svc.sessions == old(svc.sessions) && svc.calls == old(svc.calls)
  {
    hide Ledger, Exec, Kinds, DetachOrder;
    Standstill(svc.sessions, svc.calls, None);
    var found := LookupByTEID(svc.sessions, teid);
    if found.Some? && found.value.state == Active {
      var _ := RecoverAndTakeDown(svc, found.value, "PGW-initiated bearer/session deletion");
    }
  }

  /** The AAA server ended a session: no lock is taken. */
  method HandleAAAInitiatedDisconnect(svc: Service, id: Option<SessionID>, imsi: string)
    requires WellFormed(svc.sessions) && (svc.serialised ==> Ledger(svc.sessions, svc.calls))
    modifies svc
    ensures WellFormed(svc.sessions) && (svc.serialised ==> Ledger(svc.sessions, svc.calls))
    ensures svc.serialised ==> Continues(old(svc.sessions).next, old(svc.calls), svc.sessions, svc.calls, None)
    ensures svc.serialised ==>
              var found := FindDetachSession(old(svc.sessions), id, imsi, "");
              if found.Some? && found.value.state != Terminated && found.value.state != Failed then
                && svc.sessions.byID == old(svc.sessions).byID - {found.value.id}
                && TakesDown(svc.cfg, found.value, svc.calls[|old(svc.calls)|..])
              else svc.sessions == old(svc.sessions) && svc.calls == old(svc.calls)
  {
    hide Ledger, Enabled, Kinds, DetachOrder;
    Standstill(svc.sessions, svc.calls, None);
    var found := FindDetachSession(svc.sessions, id, imsi, "");
    if found.Some? {
      MayEnd(svc.sessions, found.value);
      var _, _ := TakeDown(svc, found.value);
    }
  }

  predicate AccountingStopShouldDetach(s: State) {
    s != Terminating && s != Terminated && s != Failed
  }

  lemma AccountingEdit(st: Store, s: Session, acct: string)
    ensures s.id in st.byID ==>
              && Enabled(st, ApplyAccounting(s.id, acct))
              && Edited(ApplyAccounting(s.id, acct), st.byID[s.id]).state == st.byID[s.id].state
              && (Stored(st, s) ==>
                    Edited(ApplyAccounting(s.id, acct), st.byID[s.id]) == s.(acctSessionID := Coalesce(acct, s.acctSessionID)))
  {
  }

  /** An accounting stop for a known session, where the configuration clears sessions on stop. */
  method HandleAccountingStop(svc: Service, sess: Session, acctSessionID: string, locked: bool)
    returns (err: Option<AttachError>)
    requires WellFormed(svc.sessions) && (svc.serialised ==> Ledger(svc.sessions, svc.calls))
    modifies svc
    ensures WellFormed(svc.sessions) && (svc.serialised ==> Ledger(svc.sessions, svc.calls))
    ensures svc.serialised ==> Continues(old(svc.sessions).next, old(svc.calls), svc.sessions, svc.calls, None)
    ensures svc.serialised ==> TornDown(old(svc.sessions), svc.sessions, sess.id)
    ensures svc.serialised && Stored(old(svc.sessions), sess) ==>
              var counted := sess.(acctSessionID := if acctSessionID != "" then acctSessionID else sess.acctSessionID);
              var over := sess.state in {Terminating, Terminated, Failed};
              if !over && locked then
                && svc.sessions.byID == old(svc.sessions).byID - {sess.id}
                && TakesDown(svc.cfg, counted, svc.calls[|old(svc.calls)|..])
                && (err.None? <==> Clean(svc.calls[|old(svc.calls)|..])) && (err.Some? ==> err.value.DetachFailed?)
              else
                && svc.sessions.byID == old(svc.sessions).byID[sess.id := counted] && svc.calls == old(svc.calls)
                && err == if over then None else Some(LockTimeout)
  {
    hide Ledger, Exec, Edited, Edit, Kinds, DetachOrder, Reports;
    Standstill(svc.sessions, svc.calls, None);
    AccountingEdit(svc.sessions, sess, acctSessionID);
    err := None;
    var _ := svc.Store1(ApplyAccounting(sess.id, acctSessionID));
    if !AccountingStopShouldDetach(sess.state) {
      return;
    }
    if !locked {
      return Some(LockTimeout);
    }
    svc.Yield();
    if sess.id !in svc.sessions.byID || !AccountingStopShouldDetach(svc.sessions.byID[sess.id].state) {
      return;
    }
    MayEnd(svc.sessions, svc.sessions.byID[sess.id]);
    var errs, refused := TakeDown(svc, svc.sessions.byID[sess.id]);
    err := if refused then Some(StoreRefused) else if errs != [] then Some(DetachFailed(errs)) else None;
  }

  // --- whole runs ---

  /** One thing that happens to the service. Attaches that have to change locks come in two
      parts, and anything may happen in between. */
  datatype Step =
    | StartAttach(request: AttachRequest)
    | FinishAttach(which: nat)
    | StartAuthorized(request: AttachRequest, given: Option<AuthResult>)
    | StartDetach(id: Option<SessionID>, imsi: string, mac: string)
    | GTPUError(teid: nat)
    | PGWDelete(teid: nat)
    | AAADisconnect(id: Option<SessionID>, imsi: string)
    | AccountingStop(sess: Session, acctSessionID: string)

  /** Parked attaches belong to different sessions, none of which has a PGW session. */
  ghost predicate AllWait(parked: seq<Parked>, st: Store, calls: seq<Event>) {
    && (forall i :: 0 <= i < |parked| ==> parked[i].sess.id <= st.next && NeverCreated(calls, parked[i].sess.id))
    && (forall i, j :: 0 <= i < j < |parked| ==> parked[i].sess.id != parked[j].sess.id)
  }

  lemma StillWaiting(parked: seq<Parked>, st: Store, calls: seq<Event>, st': Store, calls': seq<Event>, own: Option<SessionID>)
    requires AllWait(parked, st, calls) && Continues(st.next, calls, st', calls', own)
    requires own.Some? ==> forall p :: p in parked ==> p.sess.id != own.value
    ensures AllWait(parked, st', calls')
  {
    forall i, k | 0 <= i < |parked| && 0 <= k < |calls'| && Created(calls'[k])
      ensures calls'[k].sess.id != parked[i].sess.id
    {
      assert NeverCreated(calls, parked[i].sess.id);
      if k < |calls| {
        assert calls'[k] == calls'[..|calls|][k];
      } else {
        assert calls'[k] in calls'[|calls|..];
      }
    }
  }

  method Perform(svc: Service, step: Step, parked: seq<Parked>) returns (parked': seq<Parked>)
    requires Usable(svc.cfg) && svc.serialised
    requires Ledger(svc.sessions, svc.calls) && AllWait(parked, svc.sessions, svc.calls)
    modifies svc
    ensures Ledger(svc.sessions, svc.calls) && AllWait(parked', svc.sessions, svc.calls)
  {
    hide Ledger, AllWait, NeverCreated, Continues, Exec, Enabled, Spares, Detects, ShouldReplaceExisting;
    ghost var st := svc.sessions;
    ghost var was := svc.calls;
    LedgerIsWellFormed(st, was);
    parked' := parked;
    match step
    case StartAttach(request) =>
      var o: Outside := *;
      var p, _, _ := BeginAttach(svc, request, o, 0);
      StillWaiting(parked, st, was, svc.sessions, svc.calls, None);
      if p.Waiting? {
        parked' := parked + [p.parked];
        OneMoreWaits(parked, p.parked, st, was, svc.sessions, svc.calls);
      }
    case FinishAttach(which) =>
      if which < |parked| {
        parked' := parked[..which] + parked[which + 1..];
        OneLessWaits(parked, which, st, was);
        var o: Outside := *;
        var _, _, _, _, _ := ResumeAttach(svc, parked[which], o, 0);
        StillWaiting(parked', st, was, svc.sessions, svc.calls, Some(parked[which].sess.id));
      }
    case StartAuthorized(request, given) =>
      var o: Outside := *;
      var _, _, _ := AttachAuthorized(svc, request, given, o, 0);
      StillWaiting(parked, st, was, svc.sessions, svc.calls, None);
    case _ =>
      Teardown(svc, step);
      StillWaiting(parked, st, was, svc.sessions, svc.calls, None);
  }

  lemma LedgerIsWellFormed(st: Store, calls: seq<Event>)
    requires Ledger(st, calls)
    ensures WellFormed(st) && Alternates(calls)
  {
  }

  lemma OneMoreWaits(parked: seq<Parked>, p: Parked, st: Store, was: seq<Event>, st': Store, calls: seq<Event>)
    requires AllWait(parked, st, was) && AllWait(parked, st', calls) && WaitsSince(st.next, st', calls, p)
    ensures AllWait(parked + [p], st', calls)
  {
  }

  lemma OneLessWaits(parked: seq<Parked>, which: nat, st: Store, calls: seq<Event>)
    requires which < |parked| && AllWait(parked, st, calls)
    ensures AllWait(parked[..which] + parked[which + 1..], st, calls) && NeverCreated(calls, parked[which].sess.id)
    ensures forall p :: p in parked[..which] + parked[which + 1..] ==> p.sess.id != parked[which].sess.id
  {
  }

  method Teardown(svc: Service, step: Step)
    requires svc.serialised && Ledger(svc.sessions, svc.calls)
    requires !step.StartAttach? && !step.FinishAttach? && !step.StartAuthorized?
    modifies svc
    ensures Ledger(svc.sessions, svc.calls)
    ensures Continues(old(svc.sessions).next, old(svc.calls), svc.sessions, svc.calls, None)
  {
    hide Ledger, Continues, Exec, Enabled;
    LedgerIsWellFormed(svc.sessions, svc.calls);
    var locked: bool := *;
    match step
    case StartDetach(id, imsi, mac) => var _ := Detach(svc, id, imsi, mac, locked);
    case GTPUError(teid) => var _, _ := HandleGTPUErrorIndication(svc, teid, locked);
    case PGWDelete(teid) => HandlePGWInitiatedDelete(svc, teid);
    case AAADisconnect(id, imsi) => HandleAAAInitiatedDisconnect(svc, id, imsi);
    case AccountingStop(sess, acct) => var _ := HandleAccountingStop(svc, sess, acct, locked);
  }

  /** Whatever happens, in whatever order, whichever foreign calls fail: between two PGW
      sessions opened for one subscriber there is an attempt to delete the first. */
  method Serve(cfg: Config, schedule: seq<Step>) returns (svc: Service)
    requires Usable(cfg)
    ensures Alternates(svc.calls) && Ledger(svc.sessions, svc.calls)
  {
    svc := new Service(cfg, true);
    var parked: seq<Parked> := [];
    for i := 0 to |schedule|
      invariant fresh(svc) && svc.cfg == cfg && svc.serialised
      invariant Ledger(svc.sessions, svc.calls) && AllWait(parked, svc.sessions, svc.calls)
    {
      parked := Perform(svc, schedule[i], parked);
    }
  }
}
