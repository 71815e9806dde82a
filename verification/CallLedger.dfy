/** What the lifecycle service asks of the outside world, as a list of calls, and the two
    readings of that list the proofs need: which resources are held, and whether PGW
    sessions of one subscriber alternate with their deletion. */
module CallLedger {
  import opened Wrappers
  import opened Sessions
  import opened SessionStore
  import opened OwnerGuard

  datatype Kind =
    | AllocateLease
    | ReleaseLease
    | CreatePGW
    | DeletePGW
    | InstallRoute
    | RemoveRoute
    | BindUser
    | UnbindUser
    | BindAccess
    | UnbindAccess

  datatype Failure = ContextNotFound | DeadlineExceeded | OtherFailure

  datatype PGWResult = PGWResult(
    subscriberIP: Option<IPv4>, controlIP: Option<IPv4>, userIP: Option<IPv4>,
    gtpcTEID: nat, localGTPUTEID: nat, remoteGTPUTEID: nat)

  /** What a successful call handed back, where that matters. */
  datatype Reply = Silent | Leased(ip: IPv4) | Replied(result: PGWResult)

  /** One foreign call, made for session sess; err and reply are what it returned. */
  datatype Event = Event(kind: Kind, sess: Session, err: Option<Failure>, reply: Reply := Silent)

  datatype Resource = Lease | PGWContext | Route | UserBinding | AccessBinding

  function Acquires(k: Kind): Option<Resource> {
    match k
    case AllocateLease => Some(Lease)
    case CreatePGW => Some(PGWContext)
    case InstallRoute => Some(Route)
    case BindUser => Some(UserBinding)
    case BindAccess => Some(AccessBinding)
    case _ => None
  }

  function Releases(k: Kind): Option<Resource> {
    match k
    case ReleaseLease => Some(Lease)
    case DeletePGW => Some(PGWContext)
    case RemoveRoute => Some(Route)
    case UnbindUser => Some(UserBinding)
    case UnbindAccess => Some(AccessBinding)
    case _ => None
  }

  function Without(held: seq<Resource>, r: Resource): seq<Resource> {
    if held == [] then []
    else
      var rest := Without(held[..|held| - 1], r);
      if held[|held| - 1] == r then rest else rest + [held[|held| - 1]]
  }

  /** A call that acquires counts when it succeeds; a call that releases counts when it is made. */
  function Hold(held: seq<Resource>, e: Event): seq<Resource> {
    if Acquires(e.kind).Some? && e.err.None? then held + [Acquires(e.kind).value]
    else if Releases(e.kind).Some? then Without(held, Releases(e.kind).value)
    else held
  }

  /** The resources held after a list of calls, in the order they were acquired. */
  function Held(calls: seq<Event>): seq<Resource> {
    if calls == [] then [] else Hold(Held(calls[..|calls| - 1]), calls[|calls| - 1])
  }

  /** Releases something that is held but was not the last thing acquired. */
  predicate OutOfOrder(held: seq<Resource>, e: Event) {
    Releases(e.kind).Some? && Releases(e.kind).value in held && held[|held| - 1] != Releases(e.kind).value
  }

  function Disturbs(held: seq<Resource>, e: Event): nat {
    if OutOfOrder(held, e) then 1 else 0
  }

  function Disorder(calls: seq<Event>): nat {
    if calls == [] then 0
    else
      var before := calls[..|calls| - 1];
      Disorder(before) + Disturbs(Held(before), calls[|calls| - 1])
  }

  lemma HeldAppend(calls: seq<Event>, e: Event)
    ensures Held(calls + [e]) == Hold(Held(calls), e)
    ensures Disorder(calls + [e]) == Disorder(calls) + Disturbs(Held(calls), e)
  {
    assert (calls + [e])[..|calls|] == calls;
  }

  lemma {:induction false} WithoutRemoves(held: seq<Resource>, r: Resource)
    ensures forall x :: x in Without(held, r) <==> x in held && x != r
    ensures r !in held ==> Without(held, r) == held
  {
    if held != [] {
      WithoutRemoves(held[..|held| - 1], r);
      assert held == held[..|held| - 1] + [held[|held| - 1]];
    }
  }

  /** Releasing the last thing acquired gives back what was held before it. */
  lemma WithoutLast(held: seq<Resource>, r: Resource)
    requires r !in held
    ensures Without(held + [r], r) == held
  {
    WithoutRemoves(held, r);
    assert (held + [r])[..|held|] == held;
  }

  lemma {:induction false} WithoutFirst(held: seq<Resource>, r: Resource)
    requires held != [] && held[0] == r && r !in held[1..]
    ensures Without(held, r) == held[1..]
  {
    var n := |held| - 1;
    if n > 0 {
      WithoutFirst(held[..n], r);
      assert held[..n][1..] + [held[n]] == held[1..];
    } else {
      assert Without([], r) == [];
    }
  }

  // --- how far an activation came ---

  /** What a list of calls amounts to: whether every call that acquires succeeded, the address
      that was leased, whether the PGW answered, and with what. */
  datatype Tally = Tally(smooth: bool, lease: Option<IPv4>, created: bool, answer: Option<PGWResult>)

  const Untouched: Tally := Tally(true, None, false, None)

  function Count(t: Tally, e: Event): Tally {
    if Acquires(e.kind).None? then t
    else if e.err.Some? then t.(smooth := false)
    else if e.kind == AllocateLease && e.reply.Leased? then t.(lease := Some(e.reply.ip))
    else if e.kind == CreatePGW then t.(created := true, answer := if e.reply.Replied? then Some(e.reply.result) else None)
    else t
  }

  function Tallied(calls: seq<Event>): Tally {
    if calls == [] then Untouched else Count(Tallied(calls[..|calls| - 1]), calls[|calls| - 1])
  }

  lemma TalliedAppend(calls: seq<Event>, e: Event)
    ensures Tallied(calls + [e]) == Count(Tallied(calls), e)
  {
    assert (calls + [e])[..|calls|] == calls;
  }

  /** Calls that acquire nothing do not count. */
  lemma {:induction false} TalliedBefore(calls: seq<Event>, es: seq<Event>)
    requires forall e :: e in es ==> Acquires(e.kind).None?
    ensures Tallied(calls + es) == Tallied(calls)
  {
    if es == [] {
      assert calls + es == calls;
    } else {
      var n := |es| - 1;
      assert calls + es == (calls + es[..n]) + [es[n]];
      TalliedBefore(calls, es[..n]);
      TalliedAppend(calls + es[..n], es[n]);
    }
  }

  // --- alternation of PGW sessions ---

  predicate Created(e: Event) {
    e.kind == CreatePGW && e.err.None?
  }

  predicate DeletesPGWOf(e: Event, id: SessionID) {
    e.kind == DeletePGW && e.sess.id == id
  }

  predicate DeletedBetween(calls: seq<Event>, i: int, j: int, id: SessionID) {
    exists k :: 0 <= i < k < j && k < |calls| && DeletesPGWOf(calls[k], id)
  }

  /** Between two PGW sessions of one subscriber there is an attempt to delete the first. */
  predicate Alternates(calls: seq<Event>) {
    forall i, j :: 0 <= i < j < |calls| && Created(calls[i]) && Created(calls[j])
      && (calls[i].sess.id == calls[j].sess.id || Detects(calls[i].sess, calls[j].sess))
      ==> DeletedBetween(calls, i, j, calls[i].sess.id)
  }

  /** Every PGW session opened for id so far has had its deletion attempted. */
  predicate Settled(calls: seq<Event>, id: SessionID) {
    forall i :: 0 <= i < |calls| && Created(calls[i]) && calls[i].sess.id == id
      ==> DeletedBetween(calls, i, |calls|, id)
  }

  predicate NeverCreated(calls: seq<Event>, id: SessionID) {
    forall i :: 0 <= i < |calls| && Created(calls[i]) ==> calls[i].sess.id != id
  }

  /** A PGW session that is not settled belongs to a live stored session of that identity,
      and no session that ever had one can start over. */
  predicate Accounted(st: Store, calls: seq<Event>, i: int)
    requires 0 <= i < |calls|
  {
    var s := calls[i].sess;
    && s.id <= st.next
    && (s.id in st.byID ==> Rank(st.byID[s.id].state) >= Rank(PGWPending))
    && (DeletedBetween(calls, i, |calls|, s.id)
        || (LiveInStore(st, s.id) && SameIdentity(st.byID[s.id], s)))
  }

  predicate Ledger(st: Store, calls: seq<Event>) {
    && WellFormed(st)
    && Alternates(calls)
    && forall i :: 0 <= i < |calls| && Created(calls[i]) ==> Accounted(st, calls, i)
  }

  lemma DeletedLater(calls: seq<Event>, e: Event, i: int, j: int, id: SessionID)
    requires DeletedBetween(calls, i, j, id) && j <= |calls|
    ensures DeletedBetween(calls + [e], i, j, id) && DeletedBetween(calls + [e], i, |calls| + 1, id)
  {
    var k :| 0 <= i < k < j && k < |calls| && DeletesPGWOf(calls[k], id);
    assert (calls + [e])[k] == calls[k];
  }

  lemma DeletedEarlier(calls: seq<Event>, e: Event, i: int, id: SessionID)
    ensures DeletedBetween(calls + [e], i, |calls|, id) ==> DeletedBetween(calls, i, |calls|, id)
  {
    if DeletedBetween(calls + [e], i, |calls|, id) {
      var k :| 0 <= i < k < |calls| && DeletesPGWOf((calls + [e])[k], id);
      assert calls[k] == (calls + [e])[k];
    }
  }

  lemma AccountedLater(st: Store, calls: seq<Event>, e: Event, i: int)
    requires 0 <= i < |calls| && Accounted(st, calls, i)
    ensures Accounted(st, calls + [e], i)
  {
    var id := calls[i].sess.id;
    if DeletedBetween(calls, i, |calls|, id) {
      DeletedLater(calls, e, i, |calls|, id);
    }
  }

  /** A call that opens no PGW session. */
  lemma OtherCallKeepsLedger(st: Store, calls: seq<Event>, e: Event)
    requires Ledger(st, calls) && !Created(e)
    ensures Ledger(st, calls + [e])
  {
    var calls' := calls + [e];
    forall i | 0 <= i < |calls'| && Created(calls'[i]) ensures Accounted(st, calls', i) {
      AccountedLater(st, calls, e, i);
    }
    forall i, j | 0 <= i < j < |calls'| && Created(calls'[i]) && Created(calls'[j])
      && (calls'[i].sess.id == calls'[j].sess.id || Detects(calls'[i].sess, calls'[j].sess))
      ensures DeletedBetween(calls', i, j, calls'[i].sess.id)
    {
      DeletedLater(calls, e, i, j, calls[i].sess.id);
    }
  }

  /** The session of a new PGW session is stored, live, far enough and known under this identity. */
  predicate MayHold(st: Store, s: Session) {
    LiveInStore(st, s.id) && SameIdentity(st.byID[s.id], s) && Rank(st.byID[s.id].state) >= Rank(PGWPending)
  }

  /** An earlier PGW session, still without a deletion, of the session s or its subscriber. */
  predicate Overlaps(calls: seq<Event>, i: int, s: Session) {
    && 0 <= i < |calls| && Created(calls[i]) && !DeletedBetween(calls, i, |calls|, calls[i].sess.id)
    && (calls[i].sess.id == s.id || Detects(calls[i].sess, s))
  }

  /** Opening a PGW session keeps the ledger exactly when its session is still there to hold
      it and it overlaps no earlier one. */
  lemma CreateKeepsLedgerIff(st: Store, calls: seq<Event>, e: Event)
    requires Ledger(st, calls) && Created(e)
    ensures Ledger(st, calls + [e]) <==> MayHold(st, e.sess) && forall i :: 0 <= i < |calls| ==> !Overlaps(calls, i, e.sess)
  {
    var calls' := calls + [e];
    var n := |calls|;
    forall i | 0 <= i < n ensures calls'[i] == calls[i] && (Overlaps(calls, i, e.sess) ==> !Ledger(st, calls')) {
      if Overlaps(calls, i, e.sess) {
        DeletedEarlier(calls, e, i, calls[i].sess.id);
        assert Created(calls'[i]) && Created(calls'[n]);
      }
    }
    if Ledger(st, calls') {
      assert Accounted(st, calls', n);
      assert !DeletedBetween(calls', n, n + 1, e.sess.id);
    }
    if MayHold(st, e.sess) && forall i :: 0 <= i < n ==> !Overlaps(calls, i, e.sess) {
      forall i | 0 <= i < n + 1 && Created(calls'[i]) ensures Accounted(st, calls', i) {
        if i < n {
          AccountedLater(st, calls, e, i);
        }
      }
      forall i, j | 0 <= i < j < n + 1 && Created(calls'[i]) && Created(calls'[j])
        && (calls'[i].sess.id == calls'[j].sess.id || Detects(calls'[i].sess, calls'[j].sess))
        ensures DeletedBetween(calls', i, j, calls'[i].sess.id)
      {
        assert j == n ==> !Overlaps(calls, i, e.sess);
        DeletedLater(calls, e, i, j, calls[i].sess.id);
      }
    }
  }

  lemma CallKeepsLedger(st: Store, calls: seq<Event>, e: Event)
    requires Ledger(st, calls)
    requires Created(e) ==>
               && MayHold(st, e.sess) && NeverCreated(calls, e.sess.id)
               && forall k :: LiveInStore(st, k) && k != e.sess.id ==> !Detects(st.byID[k], e.sess)
    ensures Ledger(st, calls + [e])
  {
    if Created(e) {
      forall i | 0 <= i < |calls| ensures !Overlaps(calls, i, e.sess) {
        if Created(calls[i]) {
          assert Accounted(st, calls, i);
        }
      }
      CreateKeepsLedgerIff(st, calls, e);
    } else {
      OtherCallKeepsLedger(st, calls, e);
    }
  }

  /** The operation takes a live session out of life. */
  predicate Ends(st: Store, op: Op, id: SessionID) {
    LiveInStore(st, id) && !LiveInStore(Exec(st, op), id)
  }

  /** A store operation, expiry included, keeps the ledger exactly when it ends no session
      whose PGW context is unsettled. */
  lemma OpKeepsLedgerIff(st: Store, calls: seq<Event>, op: Op)
    requires Ledger(st, calls)
    ensures Ledger(Exec(st, op), calls) <==> forall id :: Ends(st, op, id) ==> Settled(calls, id)
  {
    hide Exec, DeletedBetween, Detects;
    var st' := Exec(st, op);
    forall id | id in st'.byID ensures st'.byID[id].id == id && id <= st'.next {
      RecordStep(st, op, id);
    }
    forall i | 0 <= i < |calls| && Created(calls[i])
      ensures Accounted(st', calls, i) <==> (Ends(st, op, calls[i].sess.id) ==> DeletedBetween(calls, i, |calls|, calls[i].sess.id))
    {
      assert Accounted(st, calls, i);
      AccountedAfter(st, calls, op, i);
    }
  }

  lemma AccountedAfter(st: Store, calls: seq<Event>, op: Op, i: int)
    requires WellFormed(st) && 0 <= i < |calls| && Accounted(st, calls, i)
    ensures Accounted(Exec(st, op), calls, i) <==>
            (Ends(st, op, calls[i].sess.id) ==> DeletedBetween(calls, i, |calls|, calls[i].sess.id))
  {
    var s := calls[i].sess;
    var st' := Exec(st, op);
    NextGrows(st, op);
    if s.id in st'.byID {
      RecordStep(st, op, s.id);
      if st'.byID[s.id] != st.byID[s.id] {
        RankOnlyRises(op, st.byID[s.id]);
      }
    }
    if LiveInStore(st', s.id) {
      PendingIdentityFixed(st, op, s.id);
    }
  }

  predicate EndsLife(op: Op) {
    op.MarkFailed? || op.Delete?
  }

  /** The operations on one session that can end it are failure and deletion. */
  lemma OpKeepsLedger(st: Store, calls: seq<Event>, op: Op)
    requires Ledger(st, calls) && !op.ExpireInactive?
    requires EndsLife(op) ==> Settled(calls, op.id)
    ensures Ledger(Exec(st, op), calls)
  {
    OpKeepsLedgerIff(st, calls, op);
    forall id | Ends(st, op, id) ensures Settled(calls, id) {
      if !(EndsLife(op) && op.id == id) {
        StaysLive(st, op, id);
      }
    }
  }

  /** Expiry drops a session without asking for the deletion of its PGW context, which breaks
      the ledger exactly when an expired live session is unsettled. */
  lemma ExpiryKeepsLedgerIff(st: Store, calls: seq<Event>, now: Time)
    requires Ledger(st, calls)
    ensures Ledger(Exec(st, ExpireInactive(now)), calls) <==>
            forall id :: id in ExpiredSet(st, now) && LiveInStore(st, id) ==> Settled(calls, id)
  {
    OpKeepsLedgerIff(st, calls, ExpireInactive(now));
    forall id ensures Ends(st, ExpireInactive(now), id) <==> id in ExpiredSet(st, now) && LiveInStore(st, id) {
    }
  }

  lemma RankOnlyRises(op: Op, s: Session)
    requires Target(op).Some? ==> ValidTransition(s.state, Target(op).value)
    ensures Rank(Edited(op, s).state) >= Rank(s.state)
  {
  }

  lemma StaysLive(st: Store, op: Op, id: SessionID)
    requires WellFormed(st) && LiveInStore(st, id) && !op.ExpireInactive? && (EndsLife(op) ==> op.id != id)
    ensures LiveInStore(Exec(st, op), id)
  {
    if Enabled(st, op) && !op.Create? {
      ExecOnTable(st, op, st.byID[op.id], Edited(op, st.byID[op.id]));
    }
  }

  lemma SettledByDelete(calls: seq<Event>, e: Event)
    requires e.kind == DeletePGW
    ensures Settled(calls + [e], e.sess.id)
  {
    var calls' := calls + [e];
    forall i | 0 <= i < |calls'| && Created(calls'[i]) && calls'[i].sess.id == e.sess.id
      ensures DeletedBetween(calls', i, |calls'|, e.sess.id)
    {
      assert DeletesPGWOf(calls'[|calls|], e.sess.id);
    }
  }

  lemma SettledLater(calls: seq<Event>, e: Event, id: SessionID)
    requires Settled(calls, id) && !(Created(e) && e.sess.id == id)
    ensures Settled(calls + [e], id)
  {
    forall i | 0 <= i < |calls + [e]| && Created((calls + [e])[i]) && (calls + [e])[i].sess.id == id
      ensures DeletedBetween(calls + [e], i, |calls| + 1, id)
    {
      DeletedLater(calls, e, i, |calls|, id);
    }
  }
}
