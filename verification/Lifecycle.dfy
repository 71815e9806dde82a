/** Attach and detach: the sequence of store updates and foreign calls that brings a
    session up, undoes it when a step fails, and takes it down again. Foreign calls fail at
    will. When the service is not lock-serialised, other goroutines may change the store
    between any two of its operations. */
module Lifecycle {
  import opened Wrappers
  import opened Sessions
  import opened SessionStore
  import opened OwnerGuard
  import opened CallLedger

  datatype Validation = Off | LogOnly | Reject

  datatype Config = Config(
    gtpMode: bool,
    hasIPAM: bool,
    hasUserPlane: bool,
    hasAccessBinder: bool,
    replaceExisting: bool,
    validation: Validation,
    defaultAPN: string)

  /** The set-ups the service runs with: local addressing needs an allocator, and the access
      binder is used only together with a user plane. */
  predicate Usable(cfg: Config) {
    (!cfg.gtpMode ==> cfg.hasIPAM) && (cfg.hasAccessBinder ==> cfg.hasUserPlane)
  }

  datatype AuthResult = AuthResult(allowed: bool, imsi: string, msisdn: string, apn: string, reason: string)

  datatype AttachRequest = AttachRequest(
    imsi: string, msisdn: string, mac: string, apn: string, acctSessionID: string, expiresAt: Time)

  datatype AttachError =
    | Rejected
    | LockTimeout
    | SessionNotFound
    | StoreRefused
    | Foreign(cause: Failure)
    | LiveSessionExists
    | MissingAddress
    | ValidationFailed
    | DetachFailed(causes: seq<Failure>)

  /** A record after the PGW answered: its address, and its tunnel data if it sent any. */
  function Answered(s: Session, res: PGWResult): Session {
    var addressed := if res.subscriberIP.Some? then s.(subscriberIP := res.subscriberIP) else s;
    if SentTunnel(res)
    then addressed.(pgwControlIP := res.controlIP, pgwUserIP := res.userIP, gtpcTEID := res.gtpcTEID,
                    localGTPUTEID := res.localGTPUTEID, remoteGTPUTEID := res.remoteGTPUTEID)
    else addressed
  }

  predicate SentTunnel(res: PGWResult) {
    res.controlIP.Some? || res.userIP.Some? || res.gtpcTEID != 0 || res.localGTPUTEID != 0 || res.remoteGTPUTEID != 0
  }

  /** The record of a session that came up carries what the PGW answered. */
  predicate Carries(s: Session, answer: Option<PGWResult>) {
    && s.subscriberIP.Some?
    && (answer.Some? && answer.value.subscriberIP.Some? ==> s.subscriberIP == answer.value.subscriberIP)
    && (answer.Some? && SentTunnel(answer.value) ==>
          && s.pgwControlIP == answer.value.controlIP && s.pgwUserIP == answer.value.userIP
          && s.gtpcTEID == answer.value.gtpcTEID && s.localGTPUTEID == answer.value.localGTPUTEID
          && s.remoteGTPUTEID == answer.value.remoteGTPUTEID)
  }

  lemma AnsweredCarries(s: Session, answer: Option<PGWResult>)
    ensures var s' := if answer.Some? then Answered(s, answer.value) else s;
            s'.subscriberIP.Some? ==> Carries(s', answer)
  {
  }

  /** What the checks after activation look for in a record. */
  predicate Validated(s: Session) {
    s.subscriberIP.Some? && s.gtpcTEID != 0 && s.localGTPUTEID != 0 && s.remoteGTPUTEID != 0 && s.authorized
  }

  /** The record of a session after its authorization. */
  function Admitted(s: Session, auth: AuthResult): Session {
    s.(imsi := Coalesce(auth.imsi, s.imsi), msisdn := Coalesce(auth.msisdn, s.msisdn), apn := Coalesce(auth.apn, s.apn),
       reason := auth.reason, authenticated := true, authorized := true, state := Authorized)
  }

  /** The same with the address that was leased, if one was. */
  function Housed(s: Session, t: Tally): Session {
    if t.lease.Some? then s.(subscriberIP := t.lease) else s
  }

  /** The record of a session that came up, from what the outside returned on the way. */
  function Brought(s: Session, auth: AuthResult, t: Tally): Session {
    var housed := Housed(Admitted(s, auth), t);
    (if t.answer.Some? then Answered(housed, t.answer.value) else housed).(state := Active)
  }

  /** Is there an address: the record's own, a leased one, or one from the PGW? */
  predicate Placed(s: Session, t: Tally) {
    s.subscriberIP.Some? || t.lease.Some? || (t.answer.Some? && t.answer.value.subscriberIP.Some?)
  }

  /** Why an attach of a ready session does not bring it up: a live session of the subscriber,
      a call that was to acquire something and failed, or a PGW that answered without an address
      where nobody else had given one. */
  ghost predicate Thwarted(st: Store, s: Session, auth: AuthResult, t: Tally) {
    HasRival(st, Identified(s, auth)) || !t.smooth || (t.created && !Placed(s, t))
  }

  /** Whether the checks after activation turn a session down again. */
  predicate TurnedDown(cfg: Config, live: bool, s: Session) {
    cfg.validation == Reject
    && (!live || s.subscriberIP.None? || s.gtpcTEID == 0 || s.localGTPUTEID == 0 || s.remoteGTPUTEID == 0 || !s.authorized)
  }

  function Coalesce(a: string, b: string): string {
    if a != "" then a else b
  }

  /** Cleanup goes on after a PGW that no longer knows the context or does not answer. */
  predicate NonFatal(f: Failure) {
    f == ContextNotFound || f == DeadlineExceeded
  }

  /** The errors of a list of calls that a detach reports, in call order. */
  function FatalErrors(calls: seq<Event>): seq<Failure> {
    if calls == [] then []
    else
      var e := calls[|calls| - 1];
      FatalErrors(calls[..|calls| - 1])
      + if e.err.Some? && !(e.kind == DeletePGW && NonFatal(e.err.value)) then [e.err.value] else []
  }

  function Kinds(calls: seq<Event>): seq<Kind> {
    seq(|calls|, i requires 0 <= i < |calls| => calls[i].kind)
  }

  /** The five cleanups of a detach, less those of components that are not configured. */
  function DetachOrder(cfg: Config): seq<Kind> {
    [DeletePGW, RemoveRoute]
    + (if cfg.hasUserPlane then [UnbindUser] else [])
    + (if cfg.hasAccessBinder then [UnbindAccess] else [])
    + (if cfg.hasIPAM then [ReleaseLease] else [])
  }

  /** The local lease, unless the PGW assigns addresses or the lease was given back early. */
  function LocalLease(cfg: Config, gaveBack: bool): seq<Resource> {
    if cfg.gtpMode || gaveBack then [] else [Lease]
  }

  /** What is held once the PGW answered, then with the route, then with the user plane. */
  function Stack(lease: seq<Resource>, depth: nat): seq<Resource> {
    if depth == 0 then lease + [PGWContext]
    else if depth == 1 then Stack(lease, 0) + [Route]
    else Stack(lease, 1) + [UserBinding]
  }

  /** What an active session holds. */
  function FullSet(cfg: Config, gaveBack: bool): seq<Resource> {
    Stack(LocalLease(cfg, gaveBack), if cfg.hasUserPlane then 2 else 1)
    + if cfg.hasAccessBinder then [AccessBinding] else []
  }

  /** The session is no longer as its activation left it: gone, or neither PGWPending nor Active. */
  predicate Overtaken(st: Store, id: SessionID) {
    id in st.byID ==> st.byID[id].state != PGWPending && st.byID[id].state != Active
  }

  lemma RefusedIsOvertaken(st: Store, id: SessionID)
    ensures !Enabled(st, MarkActive(id)) || !Enabled(st, MarkTerminating(id)) ==> Overtaken(st, id)
  {
  }

  class Service {
    const cfg: Config
    ghost const serialised: bool
    var sessions: Store
    ghost var calls: seq<Event>

    constructor (cfg: Config, ghost serialised: bool)
      requires Usable(cfg)
      ensures this.cfg == cfg && this.serialised == serialised && calls == [] && sessions == Empty
    {
      this.cfg := cfg;
      this.serialised := serialised;
      sessions := Empty;
      calls := [];
    }

    /** What the calls since a point in time have acquired and not given back. */
    ghost function HeldSince(start: nat): seq<Resource>
      requires start <= |calls|
      reads `calls
    {
      Held(calls[start..])
    }

    ghost function DisorderSince(start: nat): nat
      requires start <= |calls|
      reads `calls
    {
      Disorder(calls[start..])
    }

    ghost function TallySince(start: nat): Tally
      requires start <= |calls|
      reads `calls
    {
      Tallied(calls[start..])
    }

    ghost function Before(start: nat): seq<Event>
      requires start <= |calls|
      reads `calls
    {
      calls[..start]
    }

    ghost predicate OnlyFor(start: nat, id: SessionID)
      reads `calls
    {
      start <= |calls| && forall e :: e in calls[start..] ==> e.sess.id == id
    }

    ghost predicate NoCreateSince(start: nat)
      reads `calls
    {
      start <= |calls| && forall e :: e in calls[start..] ==> e.kind != CreatePGW
    }

    /** Other goroutines get their turn; under serialisation they have none. */
    method Yield()
      requires WellFormed(sessions)
      modifies `sessions
      ensures WellFormed(sessions) && (serialised ==> sessions == old(sessions))
    {
    }

    /** One call of the session manager, atomic in itself. None is a refusal. */
    method Store1(op: Op) returns (r: Option<Session>)
      requires WellFormed(sessions) && !op.Create? && !op.ExpireInactive?
      requires serialised ==> Ledger(sessions, calls) && (EndsLife(op) ==> Settled(calls, op.id))
      modifies `sessions
      ensures WellFormed(sessions) && (serialised ==> Ledger(sessions, calls))
      ensures serialised ==> sessions == Exec(old(sessions), op)
      ensures serialised ==> (r.Some? <==> Enabled(old(sessions), op))
      ensures serialised && r.None? ==> sessions == old(sessions)
      ensures r.None? ==> !Enabled(sessions, op)
      ensures serialised && r.Some? ==> r.value == Edited(op, old(sessions).byID[op.id])
      ensures r.Some? ==> r.value.id == op.id && (Target(op).Some? ==> r.value.state == Target(op).value)
      ensures serialised && r.Some? && !op.Delete? ==>
                sessions.byID == old(sessions).byID[op.id := r.value] && sessions.next == old(sessions).next
      ensures r.Some? && !op.Delete? ==> op.id in sessions.byID && sessions.byID[op.id] == r.value
    {
      Yield();
      if !Enabled(sessions, op) {
        return None;
      }
      r := Some(Edited(op, sessions.byID[op.id]));
      ExecOnTable(sessions, op, sessions.byID[op.id], r.value);
      if serialised {
        OpKeepsLedger(sessions, calls, op);
      }
      WellFormedKept(sessions, op);
      sessions := Exec(sessions, op);
    }

    /** A new session record under an id that was never used before. */
    method Create(input: CreateInput) returns (s: Session)
      requires WellFormed(sessions) && (serialised ==> Ledger(sessions, calls))
      modifies `sessions
      ensures WellFormed(sessions) && (serialised ==> Ledger(sessions, calls))
      ensures s == NewSession(s.id, input) && s.id in sessions.byID && sessions.byID[s.id] == s
      ensures serialised ==>
                && s.id == old(sessions).next + 1 == sessions.next && s.id !in old(sessions).byID
                && sessions == Exec(old(sessions), Op.Create(input))
                && sessions.byID == old(sessions).byID[s.id := s]
    {
      Yield();
      if serialised {
        OpKeepsLedger(sessions, calls, Op.Create(input));
      }
      WellFormedKept(sessions, Op.Create(input));
      sessions := Exec(sessions, Op.Create(input));
      s := NewSession(sessions.next, input);
    }

    /** A foreign call; start marks the beginning of the current activation. */
    method Ask(kind: Kind, s: Session, ghost start: nat, ghost reply: Reply := Silent) returns (err: Option<Failure>)
      requires start <= |calls| && kind != CreatePGW && (serialised ==> Ledger(sessions, calls))
      modifies `calls
      ensures calls == old(calls) + [Event(kind, s, err, reply)] && Before(start) == old(Before(start))
      ensures HeldSince(start) == Hold(old(HeldSince(start)), Event(kind, s, err, reply))
      ensures TallySince(start) == Count(old(TallySince(start)), Event(kind, s, err, reply))
      ensures DisorderSince(start) == old(DisorderSince(start)) + Disturbs(old(HeldSince(start)), Event(kind, s, err, reply))
      ensures old(OnlyFor(start, s.id)) ==> OnlyFor(start, s.id)
      ensures old(NoCreateSince(start)) ==> NoCreateSince(start)
      ensures serialised ==> Ledger(sessions, calls)
      ensures kind == DeletePGW || Settled(old(calls), s.id) ==> Settled(calls, s.id)
      ensures NeverCreated(old(calls), s.id) ==> NeverCreated(calls, s.id)
    {
      err := *;
      ghost var e := Event(kind, s, err, reply);
      CallLogged(calls, e, start);
      if serialised {
        CallKeepsLedger(sessions, calls, e);
      }
      calls := calls + [e];
    }

    /** Gives the lease back, where there is an allocator to give it to. */
    method ReleaseIP(s: Session, ghost start: nat)
      requires start <= |calls| && (serialised ==> Ledger(sessions, calls))
      modifies `calls
      ensures start <= |calls| && Before(start) == old(Before(start))
      ensures HeldSince(start) == if cfg.hasIPAM then Without(old(HeldSince(start)), Lease) else old(HeldSince(start))
      ensures DisorderSince(start) == old(DisorderSince(start))
                                      + if cfg.hasIPAM && Lease in old(HeldSince(start))
                                           && old(HeldSince(start))[|old(HeldSince(start))| - 1] != Lease
                                        then 1 else 0
      ensures TallySince(start) == old(TallySince(start))
      ensures old(OnlyFor(start, s.id)) ==> OnlyFor(start, s.id)
      ensures old(NoCreateSince(start)) ==> NoCreateSince(start)
      ensures serialised ==> Ledger(sessions, calls)
      ensures Settled(old(calls), s.id) ==> Settled(calls, s.id)
      ensures NeverCreated(old(calls), s.id) ==> NeverCreated(calls, s.id)
    {
      hide Ledger, Settled, NeverCreated, Held, Disorder, Tallied, Without;
      if cfg.hasIPAM {
        var _ := Ask(ReleaseLease, s, start);
      }
    }

    /** One cleanup; its error joins the earlier ones unless the detach tolerates it. */
    method Attempt(kind: Kind, s: Session, errs: seq<Failure>, ghost before: seq<Event>, ghost es: seq<Event>)
      returns (errs': seq<Failure>, ghost es': seq<Event>)
      requires kind != CreatePGW && errs == FatalErrors(es) && calls == before + es
      requires (forall e :: e in es ==> e.sess == s) && (serialised ==> Ledger(sessions, calls))
      modifies `calls
      ensures errs' == FatalErrors(es') && Kinds(es') == Kinds(es) + [kind] && calls == before + es'
      ensures forall e :: e in es' ==> e.sess == s
      ensures (kind == DeletePGW || Settled(old(calls), s.id)) ==> Settled(calls, s.id)
      ensures serialised ==> Ledger(sessions, calls)
    {
      var err := Ask(kind, s, |calls|);
      errs' := if err.Some? && !(kind == DeletePGW && NonFatal(err.value)) then errs + [err.value] else errs;
      es' := es + [Event(kind, s, err)];
      OneMore(es, Event(kind, s, err));
    }

    /** The cleanups of a detach: each is attempted whatever the earlier ones returned. */
    method CleanUp(s: Session) returns (errs: seq<Failure>)
      requires serialised ==> Ledger(sessions, calls)
      modifies `calls
      ensures old(calls) <= calls && Kinds(calls[|old(calls)|..]) == DetachOrder(cfg)
      ensures forall e :: e in calls[|old(calls)|..] ==> e.sess == s
      ensures errs == FatalErrors(calls[|old(calls)|..])
      ensures Settled(calls, s.id) && (serialised ==> Ledger(sessions, calls))
    {
      hide Ledger, Settled, FatalErrors, Kinds;
      Nothing();
      ghost var before := calls;
      ghost var es: seq<Event>;
      errs, es := Attempt(DeletePGW, s, [], before, []);
      errs, es := Attempt(RemoveRoute, s, errs, before, es);
      assert Kinds(es) == [DeletePGW, RemoveRoute];
      if cfg.hasUserPlane {
        errs, es := Attempt(UnbindUser, s, errs, before, es);
      }
      if cfg.hasAccessBinder {
        errs, es := Attempt(UnbindAccess, s, errs, before, es);
      }
      if cfg.hasIPAM {
        errs, es := Attempt(ReleaseLease, s, errs, before, es);
      }
      assert calls[|before|..] == es;
    }

    /** Takes a session down and drops it from the store. */
    method DetachSessionLocked(sess: Session)
      returns (terminated: Option<Session>, errs: seq<Failure>, refused: bool)
      requires WellFormed(sessions) && (serialised ==> Ledger(sessions, calls))
      modifies this
      ensures WellFormed(sessions) && (serialised ==> Ledger(sessions, calls))
      ensures refused ==> calls == old(calls) && terminated.None? && errs == [] && !Enabled(sessions, MarkTerminating(sess.id))
      ensures !refused ==>
                && old(calls) <= calls
                && Kinds(calls[|old(calls)|..]) == DetachOrder(cfg)
                && (forall e :: e in calls[|old(calls)|..] ==> e.sess.id == sess.id)
                && (serialised ==> forall e :: e in calls[|old(calls)|..] ==>
                                     sess.id in old(sessions).byID && e.sess == old(sessions).byID[sess.id].(state := Terminating))
                && errs == FatalErrors(calls[|old(calls)|..])
                && Settled(calls, sess.id)
      ensures serialised ==> (refused <==> !Enabled(old(sessions), MarkTerminating(sess.id)))
      ensures serialised && refused ==> sessions == old(sessions)
      ensures serialised && !refused ==>
                && sessions == Exec(Exec(old(sessions), MarkTerminating(sess.id)), Delete(sess.id))
                && sessions.byID == old(sessions).byID - {sess.id} && sessions.next == old(sessions).next
                && terminated.Some?
    {
      hide Exec, Enabled, Ledger, Settled, FatalErrors, Kinds;
      ghost var was := sessions;
      TerminatingEdit(was, sess.id);
      var marked := Store1(MarkTerminating(sess.id));
      if marked.None? {
        return None, [], true;
      }
      errs := CleanUp(marked.value);
      terminated := Store1(Delete(marked.value.id));
      refused := false;
      if serialised {
        DetachEffect(was, sess.id);
      }
    }

    method Allocate(s: Session, ghost start: nat) returns (r: Result<IPv4, Failure>)
      requires start <= |calls| && (serialised ==> Ledger(sessions, calls))
      modifies `calls
      ensures start <= |calls| && Before(start) == old(Before(start))
      ensures HeldSince(start) == old(HeldSince(start)) + if r.Ok? then [Lease] else []
      ensures DisorderSince(start) == old(DisorderSince(start))
      ensures TallySince(start) == old(TallySince(start)).(smooth := old(TallySince(start).smooth) && r.Ok?,
                                                           lease := if r.Ok? then Some(r.value) else old(TallySince(start).lease))
      ensures old(OnlyFor(start, s.id)) ==> OnlyFor(start, s.id)
      ensures old(NoCreateSince(start)) ==> NoCreateSince(start)
      ensures serialised ==> Ledger(sessions, calls)
      ensures NeverCreated(old(calls), s.id) ==> NeverCreated(calls, s.id)
    {
      var ip: IPv4 := *;
      var err := Ask(AllocateLease, s, start, Leased(ip));
      if err.Some? {
        return Err(err.value);
      }
      r := Ok(ip);
    }

    /** Asks the PGW for a session. The reply may carry an address, tunnel data, or nothing. */
    method CreateSession(s: Session, ghost start: nat) returns (r: Result<Option<PGWResult>, Failure>)
      requires start <= |calls|
      requires serialised ==>
                 && Ledger(sessions, calls) && NeverCreated(calls, s.id)
                 && InPending(sessions, s) && !HasRival(sessions, s)
      modifies `calls
      ensures |calls| == |old(calls)| + 1 && Before(start) == old(Before(start))
      ensures calls[|old(calls)|].kind == CreatePGW && calls[|old(calls)|].sess == s
      ensures r.Ok? <==> calls[|old(calls)|].err.None?
      ensures HeldSince(start) == old(HeldSince(start)) + if r.Ok? then [PGWContext] else []
      ensures DisorderSince(start) == old(DisorderSince(start))
      ensures TallySince(start) == if r.Ok? then old(TallySince(start)).(created := true, answer := r.value)
                                   else old(TallySince(start)).(smooth := false)
      ensures old(OnlyFor(start, s.id)) ==> OnlyFor(start, s.id)
      ensures serialised ==> Ledger(sessions, calls)
      ensures serialised && r.Err? ==> Settled(calls, s.id)
    {
      hide Held, Disorder, Tallied, Ledger;
      r := *;
      ghost var e := Event(CreatePGW, s, match r case Ok(_) => None case Err(f) => Some(f),
                           if r.Ok? && r.value.Some? then Replied(r.value.value) else Silent);
      assert (calls + [e])[start..] == calls[start..] + [e];
      HeldAppend(calls[start..], e);
      TalliedAppend(calls[start..], e);
      if serialised {
        CallKeepsLedger(sessions, calls, e);
      }
      calls := calls + [e];
    }

    /** The two guard reads, with room for others in between, and the decision over both. */
    method FindLiveSessionDifferentFrom(s: Session) returns (found: bool)
      requires WellFormed(sessions)
      modifies `sessions
      ensures WellFormed(sessions)
      ensures serialised ==> sessions == old(sessions) && (found <==> HasRival(sessions, s))
      ensures serialised ==>
                (found <==> exists k :: k in sessions.byID && k != s.id
                              && sessions.byID[k].state != Terminated && sessions.byID[k].state != Failed
                              && SharesWith(sessions.byID[k], s) && !DiffersFrom(sessions.byID[k], s))
    {
      RivalOnFields(sessions, s);
      Yield();
      var candidates := Read1(sessions, s);
      Yield();
      if s.mac != "" {
        candidates := candidates + Read2(sessions, s);
      }
      found := exists c :: c in candidates && c.id != s.id && IsLivePGWOwner(c.state) && SubscriberSame(c, s);
      if serialised && HasRival(sessions, s) {
        var k :| k in sessions.byID && LiveInStore(sessions, k) && k != s.id && Detects(sessions.byID[k], s);
        assert sessions.byID[k] in Read1(sessions, s) || sessions.byID[k] in Read2(sessions, s);
      }
    }

    /** Before or after the PGW: give the lease back and mark the session Failed. */
    method GiveUp(s: Session, reason: string, ghost start: nat)
      requires WellFormed(sessions) && OnlyFor(start, s.id)
      requires HeldSince(start) == [] || (cfg.hasIPAM && HeldSince(start) == [Lease])
      requires serialised ==> Ledger(sessions, calls) && Settled(calls, s.id) && Failable(sessions, s.id)
      modifies this
      ensures WellFormed(sessions) && OnlyFor(start, s.id) && Before(start) == old(Before(start))
      ensures HeldSince(start) == [] && DisorderSince(start) == old(DisorderSince(start))
      ensures TallySince(start) == old(TallySince(start))
      ensures old(NoCreateSince(start)) ==> NoCreateSince(start)
      ensures serialised ==> Ledger(sessions, calls) && Withdrawn(old(sessions), sessions, s.id)
    {
      hide Ledger, Settled, Exec, Held, Disorder, Tallied, WellFormed;
      LeaseGone();
      ReleaseIP(s, start);
      var _ := Store1(MarkFailed(s.id, reason));
    }

    /** Leases an address from the local pool and puts it in the record. */
    method AssignAddress(s: Session, ghost start: nat) returns (r: Result<Session, AttachError>)
      requires cfg.hasIPAM && WellFormed(sessions) && OnlyFor(start, s.id) && NoCreateSince(start)
      requires HeldSince(start) == [] && DisorderSince(start) == 0
      requires serialised ==>
                 && Ledger(sessions, calls) && NeverCreated(calls, s.id)
                 && s.id in sessions.byID && sessions.byID[s.id] == s && s.state == Authorized
      requires TallySince(start) == Untouched
      modifies this
      ensures WellFormed(sessions) && OnlyFor(start, s.id) && NoCreateSince(start) && Before(start) == old(Before(start))
      ensures DisorderSince(start) == 0 && HeldSince(start) == if r.Ok? then [Lease] else []
      ensures r.Ok? ==> r.value.id == s.id && r.value.state == IPAllocated
      ensures serialised ==> Ledger(sessions, calls) && NeverCreated(calls, s.id)
      ensures !TallySince(start).created && TallySince(start).answer.None?
      ensures (r.Ok? ==> TallySince(start).smooth) && (serialised ==> (r.Ok? <==> TallySince(start).smooth))
      ensures serialised && r.Ok? ==>
                TallySince(start).lease.Some? && r.value == s.(subscriberIP := TallySince(start).lease, state := IPAllocated)
      ensures serialised && r.Err? ==> Withdrawn(old(sessions), sessions, s.id)
      ensures serialised && r.Ok? ==>
                && sessions.byID == old(sessions).byID[s.id := r.value] && sessions.next == old(sessions).next
                && SameIdentity(r.value, s)
    {
      hide Ledger, Settled, Exec, Held, Disorder, Tallied, NeverCreated, WellFormed;
      LeaseGone();
      var lease := Allocate(s, start);
      if lease.Err? {
        NeverCreatedSettled(calls, s.id);
        var _ := Store1(MarkFailed(s.id, "allocation failed"));
        return Err(Foreign(lease.error));
      }
      var addressed := Store1(SetSubscriberIP(s.id, Some(lease.value)));
      if addressed.None? {
        ReleaseIP(s, start);
        return Err(StoreRefused);
      }
      r := Ok(addressed.value);
    }

    /** MarkPGWPending and the guard. */
    method PassGuard(s: Session, ghost start: nat) returns (r: Result<Session, AttachError>)
      requires WellFormed(sessions) && OnlyFor(start, s.id) && NoCreateSince(start)
      requires HeldSince(start) == [] || (cfg.hasIPAM && HeldSince(start) == [Lease])
      requires DisorderSince(start) == 0
      requires serialised ==>
                 && Ledger(sessions, calls) && NeverCreated(calls, s.id)
                 && s.id in sessions.byID && sessions.byID[s.id] == s && ValidTransition(s.state, PGWPending)
      modifies this
      ensures WellFormed(sessions) && OnlyFor(start, s.id) && NoCreateSince(start) && Before(start) == old(Before(start))
      ensures DisorderSince(start) == 0 && HeldSince(start) == if r.Ok? then old(HeldSince(start)) else []
      ensures r.Ok? ==> r.value.id == s.id && r.value.state == PGWPending
      ensures TallySince(start) == old(TallySince(start))
      ensures serialised ==> (r.Err? <==> HasRival(old(sessions), s)) && (r.Ok? ==> r.value == s.(state := PGWPending))
      ensures serialised ==> Ledger(sessions, calls)
      ensures serialised && r.Err? ==> Withdrawn(old(sessions), sessions, s.id)
      ensures serialised && r.Ok? ==>
                && NeverCreated(calls, s.id) && !HasRival(sessions, r.value)
                && sessions.byID == old(sessions).byID[s.id := r.value] && sessions.next == old(sessions).next
                && SameIdentity(r.value, s)
      ensures serialised && HasRival(old(sessions), s) ==> r.Err?
    {
      hide Ledger, Settled, Exec, Held, Disorder, Tallied, HasRival, NeverCreated, WellFormed;
      ghost var was := sessions;
      LeaseGone();
      var pending := Store1(MarkPGWPending(s.id));
      if pending.None? {
        ReleaseIP(s, start);
        return Err(StoreRefused);
      }
      RivalStays(was, sessions, s, pending.value);
      var rival := FindLiveSessionDifferentFrom(pending.value);
      if rival {
        NeverCreatedSettled(calls, s.id);
        GiveUp(pending.value, "live PGW session already exists for subscriber", start);
        return Err(LiveSessionExists);
      }
      r := Ok(pending.value);
    }

    /** The steps before the PGW is asked: authorization, a local lease unless the PGW assigns
        addresses, PGWPending, and the guard. */
    method Prepare(sess: Session, auth: AuthResult, ghost start: nat) returns (r: Result<Session, AttachError>)
      requires Usable(cfg) && WellFormed(sessions) && start == |calls|
      requires serialised ==> Ledger(sessions, calls)
      modifies this
      ensures WellFormed(sessions) && OnlyFor(start, sess.id) && NoCreateSince(start) && Before(start) == old(Before(start))
      ensures DisorderSince(start) == 0
      ensures HeldSince(start) == if r.Ok? && !cfg.gtpMode then [Lease] else []
      ensures r.Ok? ==> r.value.id == sess.id && r.value.state == PGWPending
      ensures !TallySince(start).created && TallySince(start).answer.None? && (r.Ok? ==> TallySince(start).smooth)
      ensures serialised && Ready(old(sessions), sess) ==>
                && (r.Err? <==> HasRival(old(sessions), Identified(sess, auth)) || !TallySince(start).smooth)
                && (r.Ok? ==> r.value == Housed(Admitted(sess, auth), TallySince(start)).(state := PGWPending))
      ensures serialised ==> Ledger(sessions, calls)
      ensures serialised && r.Err? ==> Undone(old(sessions), sessions, sess)
      ensures serialised && r.Ok? ==>
                && NeverCreated(calls, sess.id) && !HasRival(sessions, r.value)
                && sessions.byID == old(sessions).byID[sess.id := r.value] && sessions.next == old(sessions).next
                && (Ready(old(sessions), sess) ==> SameIdentity(r.value, Identified(sess, auth)))
      ensures serialised && sess.id !in old(sessions).byID ==> r.Err? && calls == old(calls)
      ensures serialised && Ready(old(sessions), sess) && HasRival(old(sessions), Identified(sess, auth)) ==> r.Err?
    {
      hide Ledger, Settled, Exec, Held, Disorder, Tallied, HasRival, NeverCreated, WellFormed;
      ghost var was := sessions;
      Fresh(sessions, calls, sess);
      NothingHeld();
      assert calls[start..] == [];
      var authorized := Store1(ApplyAuthResult(sess.id, auth.imsi, auth.msisdn, auth.apn, auth.reason));
      if authorized.None? {
        return Err(StoreRefused);
      }
      var s := authorized.value;
      if !cfg.gtpMode {
        var addressed := AssignAddress(s, start);
        if addressed.Err? {
          return Err(addressed.error);
        }
        s := addressed.value;
      }
      RivalStays(was, sessions, Identified(sess, auth), s);
      AdmittedIs(was, sess, auth);
      r := PassGuard(s, start);
    }

    /** Gives back the last thing acquired, ignoring what the call returns. */
    method GiveBack(kind: Kind, s: Session, ghost start: nat, ghost rest: seq<Resource>)
      requires OnlyFor(start, s.id) && Releases(kind).Some? && Releases(kind).value !in rest
      requires HeldSince(start) == rest + [Releases(kind).value] && (serialised ==> Ledger(sessions, calls))
      modifies `calls
      ensures OnlyFor(start, s.id) && Before(start) == old(Before(start)) && HeldSince(start) == rest
      ensures DisorderSince(start) == old(DisorderSince(start)) && (serialised ==> Ledger(sessions, calls))
      ensures TallySince(start) == old(TallySince(start))
      ensures kind == DeletePGW || Settled(old(calls), s.id) ==> Settled(calls, s.id)
    {
      hide Ledger, Settled, Held, Disorder, Tallied;
      WithoutLast(rest, Releases(kind).value);
      var _ := Ask(kind, s, start);
    }

    /** Undoes what was brought up once the PGW answered, last acquired first: the user-plane
        binding at depth 2, the route from depth 1 on, the PGW context and the lease always. */
    method RollBack(s: Session, depth: nat, reason: string, ghost start: nat, ghost lease: seq<Resource>)
      requires WellFormed(sessions) && OnlyFor(start, s.id) && depth <= 2
      requires lease == [] || (lease == [Lease] && cfg.hasIPAM)
      requires HeldSince(start) == Stack(lease, depth)
      requires serialised ==> Ledger(sessions, calls) && Failable(sessions, s.id)
      modifies this
      ensures WellFormed(sessions) && OnlyFor(start, s.id) && Before(start) == old(Before(start))
      ensures HeldSince(start) == [] && DisorderSince(start) == old(DisorderSince(start))
      ensures TallySince(start) == old(TallySince(start))
      ensures serialised ==> Ledger(sessions, calls) && Withdrawn(old(sessions), sessions, s.id)
    {
      hide Ledger, Settled, Exec, Held, Disorder, Tallied, Failable, Withdrawn, WellFormed;
      if depth == 2 {
        GiveBack(UnbindUser, s, start, Stack(lease, 1));
      }
      if depth >= 1 {
        GiveBack(RemoveRoute, s, start, Stack(lease, 0));
      }
      GiveBack(DeletePGW, s, start, lease);
      GiveUp(s, reason, start);
    }

    /** Takes over the address the PGW assigned. A local lease is then of no more use. */
    method TakeAddress(s: Session, ip: Option<IPv4>, ghost start: nat)
      returns (r: Option<Session>, ghost gaveBack: bool)
      requires Usable(cfg) && WellFormed(sessions) && OnlyFor(start, s.id)
      requires HeldSince(start) == LocalLease(cfg, false) + [PGWContext]
      requires serialised ==> Ledger(sessions, calls) && InPending(sessions, s)
      modifies this
      ensures WellFormed(sessions) && OnlyFor(start, s.id) && Before(start) == old(Before(start))
      ensures HeldSince(start) == LocalLease(cfg, gaveBack) + [PGWContext]
      ensures DisorderSince(start) == old(DisorderSince(start)) + Early(cfg, gaveBack)
      ensures TallySince(start) == old(TallySince(start))
      ensures if r.Some? then r.value.id == s.id else s.id !in sessions.byID
      ensures serialised ==> Ledger(sessions, calls) && r.Some? && Rewritten(old(sessions), sessions, s, r.value)
      ensures serialised ==> r.value == if ip.Some? then s.(subscriberIP := ip) else s
    {
      hide Ledger, Settled, Exec, Held, Disorder, Tallied, WellFormed;
      gaveBack := false;
      if ip.None? || ip == s.subscriberIP {
        return Some(s), false;
      }
      if s.subscriberIP.Some? {
        EarlyRelease();
        ReleaseIP(s, start);
        gaveBack := true;
      }
      r := Store1(UpdateSubscriberIP(s.id, ip));
    }

    /** Takes over the tunnel data, if the PGW sent any. */
    method TakeTunnel(s: Session, res: PGWResult) returns (r: Option<Session>)
      requires WellFormed(sessions) && (serialised ==> Ledger(sessions, calls) && InPending(sessions, s))
      modifies `sessions
      ensures WellFormed(sessions) && if r.Some? then r.value.id == s.id else s.id !in sessions.byID
      ensures serialised ==> Ledger(sessions, calls) && r.Some? && Rewritten(old(sessions), sessions, s, r.value)
      ensures serialised ==> r.value == Answered(s, res.(subscriberIP := None))
    {
      hide Ledger, Exec;
      if SentTunnel(res) {
        r := Store1(ApplyPGWResult(s.id, res.controlIP, res.userIP,
                                   res.gtpcTEID, res.localGTPUTEID, res.remoteGTPUTEID));
      } else {
        r := Some(s);
      }
    }

    /** Puts what the PGW answered into the record. A refusal leaves the PGW context behind. */
    method TakeResult(s: Session, res: PGWResult, ghost start: nat)
      returns (r: Option<Session>, ghost gaveBack: bool)
      requires Usable(cfg) && WellFormed(sessions) && OnlyFor(start, s.id)
      requires HeldSince(start) == LocalLease(cfg, false) + [PGWContext]
      requires serialised ==> Ledger(sessions, calls) && InPending(sessions, s)
      modifies this
      ensures WellFormed(sessions) && OnlyFor(start, s.id) && Before(start) == old(Before(start))
      ensures HeldSince(start) == LocalLease(cfg, gaveBack) + [PGWContext]
      ensures DisorderSince(start) == old(DisorderSince(start)) + Early(cfg, gaveBack)
      ensures TallySince(start) == old(TallySince(start))
      ensures if r.Some? then r.value.id == s.id else s.id !in sessions.byID
      ensures serialised ==> Ledger(sessions, calls) && r.Some? && Rewritten(old(sessions), sessions, s, r.value)
      ensures serialised ==> r.value == Answered(s, res)
    {
      hide Ledger, Held, Disorder, Tallied, WellFormed;
      r, gaveBack := TakeAddress(s, res.subscriberIP, start);
      if r.Some? {
        r := TakeTunnel(r.value, res);
      }
    }

    /** Creates the PGW session and takes over what it returned. lost says that the store
        refused an update although the PGW had answered: the context is then left behind. */
    method OpenPGW(s: Session, ghost start: nat)
      returns (r: Result<Session, AttachError>, ghost gaveBack: bool, ghost lost: bool, ghost answer: Option<PGWResult>)
      requires Usable(cfg) && WellFormed(sessions) && OnlyFor(start, s.id)
      requires HeldSince(start) == LocalLease(cfg, false) && DisorderSince(start) == 0
      requires serialised ==>
                 Ledger(sessions, calls) && NeverCreated(calls, s.id) && InPending(sessions, s) && !HasRival(sessions, s)
      requires TallySince(start).smooth && !TallySince(start).created && TallySince(start).answer.None?
      modifies this
      ensures WellFormed(sessions) && OnlyFor(start, s.id) && Before(start) == old(Before(start))
      ensures DisorderSince(start) == Early(cfg, gaveBack)
      ensures r.Ok? ==> HeldSince(start) == Stack(LocalLease(cfg, gaveBack), 0) && r.value.id == s.id && !lost
      ensures r.Err? ==> if lost then PGWContext in HeldSince(start) else HeldSince(start) == []
      ensures TallySince(start).lease == old(TallySince(start).lease) && TallySince(start).answer == answer
      ensures r.Ok? ==> TallySince(start).smooth && TallySince(start).created
      ensures serialised ==>
                && (r.Err? <==> !TallySince(start).smooth
                                || (TallySince(start).created && s.subscriberIP.None? && (answer.Some? ==> answer.value.subscriberIP.None?)))
                && (r.Ok? ==> r.value == if answer.Some? then Answered(s, answer.value) else s)
      ensures lost <==> r == Err(StoreRefused)
      ensures lost ==> s.id !in sessions.byID
      ensures serialised ==> Ledger(sessions, calls) && !lost
      ensures serialised && r.Ok? ==> Rewritten(old(sessions), sessions, s, r.value) && Carries(r.value, answer)
      ensures serialised && r.Err? ==> Withdrawn(old(sessions), sessions, s.id)
    {
      hide Carries, Answered, Ledger, Settled, Held, Disorder, Tallied, HasRival, NeverCreated, Withdrawn, Rewritten, InPending, Failable, WellFormed;
      ghost var was := sessions;
      PendingRewritten(was, s);
      gaveBack, lost, answer := false, false, None;
      var created := CreateSession(s, start);
      if created.Err? {
        GiveUp(s, "PGW session failed", start);
        return Err(Foreign(created.error)), gaveBack, lost, answer;
      }
      answer := created.value;
      var rec := Some(s);
      if created.value.Some? {
        rec, gaveBack := TakeResult(s, created.value.value, start);
        if rec.None? {
          return Err(StoreRefused), gaveBack, true, answer;
        }
      }
      if serialised {
        RewrittenThenFailable(was, sessions, s, rec.value);
      }
      AnsweredIs(s, answer);
      if rec.value.subscriberIP.None? {
        RollBack(rec.value, 0, "PGW Create Session Response missing subscriber IPv4 PAA", start, LocalLease(cfg, gaveBack));
        return Err(MissingAddress), gaveBack, lost, answer;
      }
      AnsweredCarries(s, answer);
      r := Ok(rec.value);
    }

    /** Route and user plane. */
    method LayDatapath(s: Session, ghost start: nat, ghost lease: seq<Resource>) returns (err: Option<Failure>)
      requires WellFormed(sessions) && OnlyFor(start, s.id)
      requires lease == [] || (lease == [Lease] && cfg.hasIPAM)
      requires HeldSince(start) == Stack(lease, 0)
      requires serialised ==> Ledger(sessions, calls) && InPending(sessions, s)
      modifies this
      ensures WellFormed(sessions) && OnlyFor(start, s.id) && Before(start) == old(Before(start))
      ensures DisorderSince(start) == old(DisorderSince(start))
      ensures HeldSince(start) == if err.Some? then [] else Stack(lease, if cfg.hasUserPlane then 2 else 1)
      ensures TallySince(start) == old(TallySince(start)).(smooth := old(TallySince(start).smooth) && err.None?)
      ensures serialised ==> Ledger(sessions, calls)
      ensures serialised ==> if err.None? then sessions == old(sessions) else Withdrawn(old(sessions), sessions, s.id)
    {
      hide Ledger, Settled, Held, Disorder, Tallied, WellFormed;
      err := Ask(InstallRoute, s, start);
      if err.Some? {
        RollBack(s, 0, "routing install failed", start, lease);
        return;
      }
      if cfg.hasUserPlane {
        err := Ask(BindUser, s, start);
        if err.Some? {
          RollBack(s, 1, "user plane session bind failed", start, lease);
        }
      }
    }

    /** Marks the session Active and binds it on the access side. */
    method GoActive(s: Session, ghost start: nat, ghost gaveBack: bool)
      returns (r: Result<Session, AttachError>, ghost lost: bool)
      requires Usable(cfg) && WellFormed(sessions) && OnlyFor(start, s.id)
      requires HeldSince(start) == Stack(LocalLease(cfg, gaveBack), if cfg.hasUserPlane then 2 else 1)
      requires serialised ==> Ledger(sessions, calls) && InPending(sessions, s)
      modifies this
      ensures WellFormed(sessions) && OnlyFor(start, s.id) && Before(start) == old(Before(start))
      ensures DisorderSince(start) == old(DisorderSince(start))
      ensures r.Ok? ==> HeldSince(start) == FullSet(cfg, gaveBack) && r.value.id == s.id && r.value.state == Active && !lost
      ensures r.Err? ==> if lost then PGWContext in HeldSince(start) else HeldSince(start) == []
      ensures serialised ==>
                TallySince(start) == old(TallySince(start)).(smooth := old(TallySince(start).smooth) && r.Ok?)
      ensures (lost <==> r == Err(StoreRefused)) && (lost ==> Overtaken(sessions, s.id))
      ensures serialised ==> Ledger(sessions, calls) && !lost
      ensures serialised && r.Ok? ==>
                && sessions.byID == old(sessions).byID[s.id := r.value] && sessions.next == old(sessions).next
                && r.value == s.(state := Active)
      ensures serialised && r.Err? ==> Withdrawn(old(sessions), sessions, s.id)
    {
      hide Ledger, Settled, Held, Disorder, Tallied, Exec, Stack, WellFormed, Enabled, Edited, Edit, InPending;
      InStack(LocalLease(cfg, gaveBack), if cfg.hasUserPlane then 2 else 1);
      PendingActivates(sessions, s);
      var active := Store1(MarkActive(s.id));
      if active.None? {
        RefusedIsOvertaken(sessions, s.id);
        return Err(StoreRefused), true;
      }
      lost := false;
      if cfg.hasAccessBinder {
        var err := Ask(BindAccess, active.value, start);
        if err.Some? {
          RollBack(active.value, 2, "access-side session bind failed", start, LocalLease(cfg, gaveBack));
          return Err(Foreign(err.value)), lost;
        }
      }
      r := Ok(active.value);
    }

    /** From the PGW's answer to an Active session. */
    method Establish(s: Session, ghost start: nat, ghost gaveBack: bool)
      returns (r: Result<Session, AttachError>, ghost lost: bool)
      requires Usable(cfg) && WellFormed(sessions) && OnlyFor(start, s.id)
      requires HeldSince(start) == Stack(LocalLease(cfg, gaveBack), 0)
      requires serialised ==> Ledger(sessions, calls) && InPending(sessions, s)
      modifies this
      ensures WellFormed(sessions) && OnlyFor(start, s.id) && Before(start) == old(Before(start))
      ensures DisorderSince(start) == old(DisorderSince(start))
      ensures r.Ok? ==> HeldSince(start) == FullSet(cfg, gaveBack) && r.value.id == s.id && r.value.state == Active && !lost
      ensures r.Err? ==> if lost then PGWContext in HeldSince(start) else HeldSince(start) == []
      ensures serialised ==>
                TallySince(start) == old(TallySince(start)).(smooth := old(TallySince(start).smooth) && r.Ok?)
      ensures lost ==> r == Err(StoreRefused) && Overtaken(sessions, s.id)
      ensures serialised ==> Ledger(sessions, calls) && !lost
      ensures serialised && r.Ok? ==>
                && sessions.byID == old(sessions).byID[s.id := r.value] && sessions.next == old(sessions).next
                && r.value == s.(state := Active)
      ensures serialised && r.Err? ==> Withdrawn(old(sessions), sessions, s.id)
    {
      hide Ledger, Held, Disorder, Tallied, WellFormed, Stack, Withdrawn, InPending, FullSet;
      var err := LayDatapath(s, start, LocalLease(cfg, gaveBack));
      if err.Some? {
        return Err(Foreign(err.value)), false;
      }
      r, lost := GoActive(s, start, gaveBack);
    }

    /** The checks after activation; live says whether the caller's context has not ended. */
    method ValidatePostActivation(s: Session, live: bool) returns (ok: bool)
      ensures ok <==> cfg.validation == Off || (live && Validated(s))
    {
      ok := cfg.validation == Off || (live && Validated(s));
    }

    /** Everything up to an Active session; the lease may have gone back early on the way. */
    method BringUp(sess: Session, auth: AuthResult, ghost start: nat)
      returns (r: Result<Session, AttachError>, ghost gaveBack: bool, ghost lost: bool, ghost answer: Option<PGWResult>)
      requires Usable(cfg) && WellFormed(sessions) && start == |calls|
      requires serialised ==> Ledger(sessions, calls)
      modifies this
      ensures WellFormed(sessions) && OnlyFor(start, sess.id) && Before(start) == old(calls)
      ensures r.Ok? ==> HeldSince(start) == FullSet(cfg, gaveBack) && r.value.id == sess.id && r.value.state == Active && !lost
      ensures r.Err? ==> if lost then PGWContext in HeldSince(start) else HeldSince(start) == []
      ensures DisorderSince(start) == Early(cfg, gaveBack)
      ensures serialised ==> TallySince(start).answer == answer
      ensures serialised && Ready(old(sessions), sess) ==>
                && (r.Err? <==> Thwarted(old(sessions), sess, auth, TallySince(start)))
                && (r.Ok? ==> r.value == Brought(sess, auth, TallySince(start)))
      ensures lost ==> r == Err(StoreRefused) && Overtaken(sessions, sess.id)
      ensures serialised ==> Ledger(sessions, calls) && !lost
      ensures serialised && r.Err? ==> Undone(old(sessions), sessions, sess)
      ensures serialised && r.Ok? ==> Activated(old(sessions), sessions, sess.id, r.value)
      ensures serialised && r.Ok? && Ready(old(sessions), sess) ==> SameIdentity(r.value, Identified(sess, auth))
      ensures serialised && r.Ok? ==> Carries(r.value, answer)
      ensures serialised && sess.id !in old(sessions).byID ==> r.Err? && calls == old(calls)
      ensures serialised && Ready(old(sessions), sess) && HasRival(old(sessions), Identified(sess, auth)) ==> r.Err? && NoCreateSince(start)
    {
      hide Ledger, Held, Disorder, Tallied, HasRival, NeverCreated, WellFormed, Stack, Answered, Brought, Admitted, Identified, FullSet, Carries;
      ghost var was := sessions;
      gaveBack, lost, answer := false, false, None;
      assert Before(start) == calls;
      var prepared := Prepare(sess, auth, start);
      if prepared.Err? {
        return Err(prepared.error), gaveBack, lost, answer;
      }
      var made: Result<Session, AttachError>;
      made, gaveBack, lost, answer := OpenPGW(prepared.value, start);
      BroughtIs(sess, auth, TallySince(start));
      if made.Err? {
        return Err(made.error), gaveBack, lost, answer;
      }
      StillCarries(made.value, answer);
      r, lost := Establish(made.value, start, gaveBack);
    }

    /** Activation is all or nothing. On success the session is Active and everything is held.
        On failure every acquired resource has been released, last acquired first (the lease
        excepted when it went back early), and the session is Failed or gone, unless it could
        not be authorized in the first place. The one way to
        leave something behind is lost: the store refused an update of this session after the
        PGW had answered, which needs another goroutine to have changed the session. */
    method ActivateAuthorizedSession(sess: Session, auth: AuthResult, live: bool)
      returns (r: Result<Session, AttachError>, ghost gaveBack: bool, ghost lost: bool, ghost tornDown: bool,
        ghost answer: Option<PGWResult>)
      requires Usable(cfg) && WellFormed(sessions)
      requires serialised ==> Ledger(sessions, calls)
      modifies this
      ensures WellFormed(sessions) && |old(calls)| <= |calls| && Before(|old(calls)|) == old(calls)
      ensures OnlyFor(|old(calls)|, sess.id)
      ensures r.Ok? ==> HeldSince(|old(calls)|) == FullSet(cfg, gaveBack) && r.value.state == Active && !lost && !tornDown
      ensures r.Err? ==> if lost then PGWContext in HeldSince(|old(calls)|) else HeldSince(|old(calls)|) == []
      ensures !tornDown ==> DisorderSince(|old(calls)|) == Early(cfg, gaveBack)
      ensures tornDown ==> cfg.validation == Reject
      ensures serialised && Ready(old(sessions), sess) ==>
                var t := TallySince(|old(calls)|);
                && (r.Err? <==> Thwarted(old(sessions), sess, auth, t) || TurnedDown(cfg, live, Brought(sess, auth, t)))
                && (r.Ok? ==> r.value == Brought(sess, auth, t) && t.answer == answer)
      ensures lost ==> (r == Err(StoreRefused) || tornDown) && Overtaken(sessions, sess.id)
      ensures serialised ==> Ledger(sessions, calls) && !lost
      ensures serialised && r.Err? ==> Undone(old(sessions), sessions, sess)
      ensures serialised && r.Ok? ==> Activated(old(sessions), sessions, sess.id, r.value)
      ensures serialised && r.Ok? && Ready(old(sessions), sess) ==> SameIdentity(r.value, Identified(sess, auth))
      ensures serialised && r.Ok? ==> Carries(r.value, answer)
      ensures r.Ok? && cfg.validation == Reject ==> Validated(r.value)
      ensures serialised && sess.id !in old(sessions).byID ==> r.Err? && calls == old(calls)
      ensures serialised && Ready(old(sessions), sess) && HasRival(old(sessions), Identified(sess, auth)) ==> r.Err? && NoCreateSince(|old(calls)|)
    {
      hide Carries, Ledger, Held, Disorder, Tallied, HasRival, Exec, Kinds, FatalErrors, WellFormed, Ready, Stack;
      tornDown := false;
      ghost var start := |calls|;
      r, gaveBack, lost, answer := BringUp(sess, auth, start);
      if r.Err? {
        return;
      }
      var active := r.value;
      var valid := ValidatePostActivation(active, live);
      if !valid && cfg.validation == Reject {
        ghost var before := calls;
        tornDown := true;
        var _, _, refused := DetachSessionLocked(active);
        lost := refused;
        if !refused {
          CleanUpReleasesAll(before[start..], calls[|before|..], cfg, gaveBack);
          CleanUpAcquiresNothing(before[start..], calls[|before|..], cfg);
          assert calls == before + calls[|before|..];
          assert calls[start..] == before[start..] + calls[|before|..];
        } else {
          InFullSet(cfg, gaveBack);
          RefusedIsOvertaken(sessions, active.id);
        }
        return Err(ValidationFailed), gaveBack, lost, tornDown, answer;
      }
    }
  }

  /** Session id became s', Active; nothing else changed. */
  predicate Activated(st: Store, st': Store, id: SessionID, s': Session) {
    st'.next == st.next && st'.byID == st.byID[id := s'] && s'.id == id && s'.state == Active
  }

  /** A failed activation: the session is Failed or gone, or the store refused the
      authorization of a session that was no longer as the attach had left it. */
  predicate Undone(st: Store, st': Store, s: Session) {
    Withdrawn(st, st', s.id) || (st' == st && !Enabled(st, ApplyAuthResult(s.id, "", "", "", "")))
  }

  lemma InFullSet(cfg: Config, gaveBack: bool)
    ensures PGWContext in FullSet(cfg, gaveBack)
  {
    InStack(LocalLease(cfg, gaveBack), if cfg.hasUserPlane then 2 else 1);
  }

  /** Calls that only release leave nothing held that one of them releases. */
  lemma {:induction false} ReleasesRemove(calls: seq<Event>, es: seq<Event>, r: Resource)
    requires forall i :: 0 <= i < |es| ==> Releases(es[i].kind).Some?
    requires r in Held(calls + es)
    ensures r in Held(calls) && forall i :: 0 <= i < |es| ==> Releases(es[i].kind) != Some(r)
  {
    hide Held, Without, Disorder;
    if es == [] {
      assert calls + es == calls;
    } else {
      var n := |es| - 1;
      var before := calls + es[..n];
      assert calls + es == before + [es[n]];
      HeldAppend(before, es[n]);
      WithoutRemoves(Held(before), Releases(es[n].kind).value);
      ReleasesRemove(calls, es[..n], r);
      forall i | 0 <= i < |es| ensures Releases(es[i].kind) != Some(r) {
        assert i < n ==> es[i] == es[..n][i];
      }
    }
  }

  function ReleasingCall(r: Resource): (k: Kind)
    ensures Releases(k) == Some(r)
  {
    match r
    case Lease => ReleaseLease
    case PGWContext => DeletePGW
    case Route => RemoveRoute
    case UserBinding => UnbindUser
    case AccessBinding => UnbindAccess
  }

  lemma DetachCovers(cfg: Config, gaveBack: bool, r: Resource)
    requires Usable(cfg) && r in FullSet(cfg, gaveBack)
    ensures ReleasingCall(r) in DetachOrder(cfg)
  {
    var order := DetachOrder(cfg);
    assert order[0] == DeletePGW && order[1] == RemoveRoute;
    assert cfg.hasUserPlane ==> order[2] == UnbindUser;
    assert cfg.hasAccessBinder ==> order[3] == UnbindAccess;
    assert cfg.hasIPAM ==> order[|order| - 1] == ReleaseLease;
    var lease := LocalLease(cfg, gaveBack);
    assert r in Stack(lease, if cfg.hasUserPlane then 2 else 1) || (cfg.hasAccessBinder && r == AccessBinding);
    assert Stack(lease, 1) == lease + [PGWContext] + [Route];
    assert r in Stack(lease, 1) ==> r in lease || r == PGWContext || r == Route;
    assert r in lease ==> cfg.hasIPAM && r == Lease;
  }

  /** After the cleanups of a detach nothing of an active session is held. */
  lemma {:induction false} CleanUpReleasesAll(calls: seq<Event>, es: seq<Event>, cfg: Config, gaveBack: bool)
    requires Usable(cfg) && Kinds(es) == DetachOrder(cfg)
    requires Held(calls) == FullSet(cfg, gaveBack)
    ensures Held(calls + es) == []
  {
    var order := DetachOrder(cfg);
    forall i | 0 <= i < |es| ensures es[i].kind == order[i] {
      assert Kinds(es)[i] == es[i].kind;
    }
    forall r | r in Held(calls) ensures exists i :: 0 <= i < |es| && Releases(es[i].kind) == Some(r) {
      DetachCovers(cfg, gaveBack, r);
      var i :| 0 <= i < |order| && order[i] == ReleasingCall(r);
      assert Releases(es[i].kind) == Some(r);
    }
    var held := Held(calls + es);
    if held != [] {
      ReleasesRemove(calls, es, held[0]);
    }
  }

  lemma PendingActivates(st: Store, s: Session)
    ensures InPending(st, s) ==>
              && Enabled(st, MarkActive(s.id)) && s.id in st.byID
              && Edited(MarkActive(s.id), st.byID[s.id]) == s.(state := Active)
  {
  }

  lemma {:induction false} CleanUpAcquiresNothing(calls: seq<Event>, es: seq<Event>, cfg: Config)
    requires Kinds(es) == DetachOrder(cfg)
    ensures Tallied(calls + es) == Tallied(calls)
  {
    forall e | e in es ensures Acquires(e.kind).None? {
      var i :| 0 <= i < |es| && es[i] == e;
      assert Kinds(es)[i] == e.kind;
      assert e.kind in DetachOrder(cfg);
    }
    TalliedBefore(calls, es);
  }

  lemma AdmittedIs(st: Store, s: Session, auth: AuthResult)
    ensures Ready(st, s) ==>
              var op := ApplyAuthResult(s.id, auth.imsi, auth.msisdn, auth.apn, auth.reason);
              && Enabled(st, op) && Edited(op, st.byID[op.id]) == Admitted(s, auth)
              && SameIdentity(Admitted(s, auth), Identified(s, auth)) && Admitted(s, auth).subscriberIP == s.subscriberIP
  {
  }

  lemma AnsweredIs(s: Session, answer: Option<PGWResult>)
    ensures answer.Some? ==>
              Answered(s, answer.value).subscriberIP == if answer.value.subscriberIP.Some? then answer.value.subscriberIP else s.subscriberIP
  {
  }

  lemma StillCarries(s: Session, answer: Option<PGWResult>)
    ensures Carries(s, answer) ==> Carries(s.(state := Active), answer)
  {
  }

  /** The state a record is in does not matter to what an answer does to it. */
  lemma BroughtIs(s: Session, auth: AuthResult, t: Tally)
    ensures var housed := Housed(Admitted(s, auth), t).(state := PGWPending);
            && Brought(s, auth, t) == (if t.answer.Some? then Answered(housed, t.answer.value) else housed).(state := Active)
            && (housed.subscriberIP.Some? <==> s.subscriberIP.Some? || t.lease.Some?)
    ensures Brought(s, auth, t) == Brought(s, auth, t.(smooth := false)) == Brought(s, auth, t.(smooth := true))
  {
  }

  predicate InPending(st: Store, s: Session) {
    s.id in st.byID && st.byID[s.id] == s && s.state == PGWPending
  }

  /** Record s became s', in place and still pending; nothing else changed. */
  predicate Rewritten(st: Store, st': Store, s: Session, s': Session) {
    && st'.next == st.next && st'.byID == st.byID[s.id := s']
    && SameIdentity(s', s) && InPending(st', s')
  }

  function Early(cfg: Config, gaveBack: bool): nat {
    if gaveBack && !cfg.gtpMode then 1 else 0
  }

  lemma InStack(lease: seq<Resource>, depth: nat)
    ensures PGWContext in Stack(lease, depth)
  {
  }

  lemma PendingRewritten(st: Store, s: Session)
    ensures InPending(st, s) ==> Failable(st, s.id) && Rewritten(st, st, s, s)
  {
    if InPending(st, s) {
      assert st.byID[s.id := s] == st.byID;
    }
  }

  lemma RewrittenThenFailable(st: Store, st1: Store, s: Session, s1: Session)
    requires Rewritten(st, st1, s, s1) && s1.id == s.id
    ensures Failable(st1, s1.id)
    ensures forall st2 :: Withdrawn(st1, st2, s.id) ==> Withdrawn(st, st2, s.id)
  {
  }

  lemma EarlyRelease()
    ensures Without([Lease] + [PGWContext], Lease) == [] + [PGWContext]
    ensures Without([] + [PGWContext], Lease) == [] + [PGWContext]
  {
    WithoutFirst([Lease] + [PGWContext], Lease);
    WithoutRemoves([] + [PGWContext], Lease);
  }

  /** A rival stays a rival while only the session under the guard changes. */
  lemma RivalStays(st: Store, st': Store, s: Session, s': Session)
    ensures s'.id == s.id && SameIdentity(s, s') && st'.byID == st.byID[s.id := s'] ==>
              (HasRival(st, s) <==> HasRival(st', s'))
  {
    if s'.id == s.id && SameIdentity(s, s') && st'.byID == st.byID[s.id := s'] {
      if HasRival(st, s) {
        var k :| k in st.byID && LiveInStore(st, k) && k != s.id && Detects(st.byID[k], s);
        assert LiveInStore(st', k);
      }
      if HasRival(st', s') {
        var k :| k in st'.byID && LiveInStore(st', k) && k != s'.id && Detects(st'.byID[k], s');
        assert LiveInStore(st, k);
      }
    }
  }

  /** A session that an attach has just created and marked AuthPending. */
  predicate Ready(st: Store, s: Session) {
    s.id in st.byID && st.byID[s.id] == s && s.state == AuthPending
  }

  predicate Failable(st: Store, id: SessionID) {
    id in st.byID ==> st.byID[id].state != Terminated
  }

  /** Only session id changed, and it is Failed or gone. */
  predicate Withdrawn(st: Store, st': Store, id: SessionID) {
    && st'.next == st.next
    && st'.byID - {id} == st.byID - {id}
    && (id in st'.byID ==> st'.byID[id].state == Failed)
  }

  /** The identity a session takes on from its authorization. */
  function Identified(s: Session, auth: AuthResult): Session {
    s.(imsi := Coalesce(auth.imsi, s.imsi), apn := Coalesce(auth.apn, s.apn))
  }

  lemma Fresh(st: Store, calls: seq<Event>, s: Session)
    ensures Ledger(st, calls) && Enabled(st, ApplyAuthResult(s.id, "", "", "", "")) ==> NeverCreated(calls, s.id)
  {
    if Ledger(st, calls) && Enabled(st, ApplyAuthResult(s.id, "", "", "", "")) {
      forall i | 0 <= i < |calls| && Created(calls[i]) ensures calls[i].sess.id != s.id {
        assert Accounted(st, calls, i);
      }
    }
  }

  lemma NothingHeld()
    ensures Held([]) == [] && Disorder([]) == 0 && Tallied([]) == Untouched
  {
  }

  lemma LeaseGone()
    ensures Without([], Lease) == [] && Without([Lease], Lease) == []
  {
    WithoutLast([], Lease);
    assert [] + [Lease] == [Lease];
  }

  lemma NeverCreatedSettled(calls: seq<Event>, id: SessionID)
    ensures NeverCreated(calls, id) ==> Settled(calls, id)
  {
  }

  /** A live stored session the guard takes for another session of the same subscriber. */
  predicate HasRival(st: Store, s: Session) {
    exists k :: k in st.byID && LiveInStore(st, k) && k != s.id && Detects(st.byID[k], s)
  }

  /** The MAC address in common, or the IMSI and the APN. */
  predicate SharesWith(a: Session, b: Session) {
    (a.mac != "" && a.mac == b.mac) || (a.imsi != "" && a.imsi == b.imsi && Lower(a.apn) == Lower(b.apn))
  }

  /** An IMSI, a MAC address or an APN that both have and that is not the same. */
  predicate DiffersFrom(a: Session, b: Session) {
    || (a.imsi != "" && b.imsi != "" && a.imsi != b.imsi)
    || (a.mac != "" && b.mac != "" && a.mac != b.mac)
    || (a.apn != "" && b.apn != "" && Lower(a.apn) != Lower(b.apn))
  }

  /** Who is a rival, on the fields of the records. */
  lemma RivalOnFields(st: Store, s: Session)
    ensures HasRival(st, s) <==>
            exists k :: k in st.byID && k != s.id && st.byID[k].state != Terminated && st.byID[k].state != Failed
                        && SharesWith(st.byID[k], s) && !DiffersFrom(st.byID[k], s)
  {
    hide Lower;
    forall k | k in st.byID
      ensures Detects(st.byID[k], s) <==> SharesWith(st.byID[k], s) && !DiffersFrom(st.byID[k], s)
      ensures LiveInStore(st, k) <==> st.byID[k].state != Terminated && st.byID[k].state != Failed
    {
      GuardDetectsSameSubscriber(st.byID[k], s);
    }
    if HasRival(st, s) {
      var k :| k in st.byID && LiveInStore(st, k) && k != s.id && Detects(st.byID[k], s);
      assert SharesWith(st.byID[k], s) && !DiffersFrom(st.byID[k], s);
    }
    if k :| k in st.byID && k != s.id && st.byID[k].state != Terminated && st.byID[k].state != Failed
            && SharesWith(st.byID[k], s) && !DiffersFrom(st.byID[k], s) {
      assert LiveInStore(st, k) && Detects(st.byID[k], s);
    }
  }

  lemma WellFormedKept(st: Store, op: Op)
    requires WellFormed(st)
    ensures WellFormed(Exec(st, op))
  {
    forall id | id in Exec(st, op).byID ensures Exec(st, op).byID[id].id == id <= Exec(st, op).next {
      RecordStep(st, op, id);
    }
  }

  lemma CallLogged(calls: seq<Event>, e: Event, start: nat)
    requires start <= |calls| && !Created(e)
    ensures (calls + [e])[start..] == calls[start..] + [e]
    ensures Held(calls[start..] + [e]) == Hold(Held(calls[start..]), e)
    ensures Disorder(calls[start..] + [e]) == Disorder(calls[start..]) + Disturbs(Held(calls[start..]), e)
    ensures Tallied(calls[start..] + [e]) == Count(Tallied(calls[start..]), e)
    ensures e.kind == DeletePGW ==> Settled(calls + [e], e.sess.id)
    ensures Settled(calls, e.sess.id) ==> Settled(calls + [e], e.sess.id)
  {
    HeldAppend(calls[start..], e);
    TalliedAppend(calls[start..], e);
    if e.kind == DeletePGW {
      SettledByDelete(calls, e);
    }
    if Settled(calls, e.sess.id) {
      SettledLater(calls, e, e.sess.id);
    }
  }

  lemma Nothing()
    ensures Kinds([]) == [] && FatalErrors([]) == []
  {
  }

  lemma OneMore(es: seq<Event>, e: Event)
    ensures Kinds(es + [e]) == Kinds(es) + [e.kind]
    ensures FatalErrors(es + [e]) ==
            FatalErrors(es)
            + if e.err.Some? && !(e.kind == DeletePGW && NonFatal(e.err.value)) then [e.err.value] else []
  {
    assert (es + [e])[..|es|] == es;
  }

  lemma TerminatingEdit(st: Store, id: SessionID)
    ensures Enabled(st, MarkTerminating(id)) ==>
              id in st.byID && Edited(MarkTerminating(id), st.byID[id]) == st.byID[id].(state := Terminating)
  {
  }

  lemma DetachEffect(st: Store, id: SessionID)
    requires WellFormed(st) && Enabled(st, MarkTerminating(id))
    ensures var st' := Exec(st, MarkTerminating(id));
            && Enabled(st', Delete(id))
            && Exec(st', Delete(id)).byID == st.byID - {id} && Exec(st', Delete(id)).next == st.next
  {
    ExecOnTable(st, MarkTerminating(id), st.byID[id], Edited(MarkTerminating(id), st.byID[id]));
    var st' := Exec(st, MarkTerminating(id));
    ExecOnTable(st', Delete(id), st'.byID[id], Edited(Delete(id), st'.byID[id]));
  }
}