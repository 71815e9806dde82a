/** The session store as a value: the primary map, its four secondary indexes, and one
    function that gives the effect of every operation of the session manager. */
module SessionStore {
  import opened Wrappers
  import opened Sessions

  /** Secondary indexes map a key to the id of the session they point to. An IP key of None
      is the key the manager writes for a missing address. */
  datatype Store = Store(
    next: nat,
    byID: map<SessionID, Session>,
    byIMSI: map<string, SessionID>,
    byMAC: map<string, SessionID>,
    byIP: map<Option<IPv4>, SessionID>,
    byTEID: map<nat, SessionID>)

  const Empty: Store := Store(0, map[], map[], map[], map[], map[])

  datatype Op =
    | Create(input: CreateInput)
    | MarkAuthPending(id: SessionID)
    | MarkAuthorized(id: SessionID)
    | ApplyAuthResult(id: SessionID, imsi: string, msisdn: string, apn: string, reason: string)
    | SetSubscriberIP(id: SessionID, ip: Option<IPv4>)
    | UpdateSubscriberIP(id: SessionID, ip: Option<IPv4>)
    | MarkPGWPending(id: SessionID)
    | MarkActive(id: SessionID)
    | MarkRecovering(id: SessionID, reason: string)
    | MarkTerminating(id: SessionID)
    | MarkFailed(id: SessionID, reason: string)
    | BindTEIDs(id: SessionID, gtpc: nat, localGTPU: nat, remoteGTPU: nat)
    | ApplyPGWResult(id: SessionID, controlIP: Option<IPv4>, userIP: Option<IPv4>,
                     gtpc: nat, localGTPU: nat, remoteGTPU: nat)
    | RecordGTPUError(id: SessionID, reason: string)
    | ApplyAccounting(id: SessionID, acctSessionID: string)
    | Delete(id: SessionID)
    | ExpireInactive(now: Time)

  /** The state an operation moves its session to, for the operations that move it. */
  function Target(op: Op): Option<State> {
    match op
    case MarkAuthPending(_) => Some(AuthPending)
    case MarkAuthorized(_) => Some(Authorized)
    case ApplyAuthResult(_, _, _, _, _) => Some(Authorized)
    case SetSubscriberIP(_, _) => Some(IPAllocated)
    case MarkPGWPending(_) => Some(PGWPending)
    case MarkActive(_) => Some(Active)
    case MarkRecovering(_, _) => Some(Recovering)
    case MarkTerminating(_) => Some(Terminating)
    case MarkFailed(_, _) => Some(Failed)
    case Delete(_) => Some(Terminated)
    case _ => None
  }

  /** The fields an operation changes in the record of its session, the state aside. */
  function Edit(op: Op, s: Session): Session {
    match op
    case MarkAuthorized(_) => s.(authenticated := true, authorized := true)
    case ApplyAuthResult(_, imsi, msisdn, apn, reason) =>
      s.(imsi := if imsi != "" then imsi else s.imsi,
         msisdn := if msisdn != "" then msisdn else s.msisdn,
         apn := if apn != "" then apn else s.apn,
         reason := reason, authenticated := true, authorized := true)
    case SetSubscriberIP(_, ip) => s.(subscriberIP := ip)
    case UpdateSubscriberIP(_, ip) => s.(subscriberIP := ip)
    case MarkRecovering(_, reason) => s.(reason := reason)
    case MarkFailed(_, reason) => s.(reason := reason)
    case BindTEIDs(_, gtpc, local, remote) =>
      s.(gtpcTEID := gtpc, localGTPUTEID := local, remoteGTPUTEID := remote)
    case ApplyPGWResult(_, control, user, gtpc, local, remote) =>
      s.(pgwControlIP := control, pgwUserIP := user,
         gtpcTEID := gtpc, localGTPUTEID := local, remoteGTPUTEID := remote)
    case RecordGTPUError(_, reason) => s.(gtpuErrorCount := s.gtpuErrorCount + 1, reason := reason)
    case ApplyAccounting(_, acct) => s.(acctSessionID := if acct != "" then acct else s.acctSessionID)
    case _ => s
  }

  function Edited(op: Op, s: Session): (r: Session)
    ensures r.id == s.id && r.mac == s.mac && r.expiresAt == s.expiresAt
    ensures !op.ApplyAuthResult? ==> SameIdentity(r, s)
    ensures Target(op).Some? ==> r.state == Target(op).value
    ensures Target(op).None? ==> r.state == s.state
  {
    match Target(op)
    case Some(to) => Edit(op, s).(state := to)
    case None => Edit(op, s)
  }

  /** Whether the manager performs the operation or returns an error. */
  predicate Enabled(st: Store, op: Op) {
    match op
    case Create(_) => true
    case ExpireInactive(_) => true
    case _ =>
      && op.id in st.byID
      && (Target(op).Some? ==> ValidTransition(st.byID[op.id].state, Target(op).value))
  }

  predicate Expired(s: Session, now: Time) {
    s.expiresAt != 0 && s.expiresAt <= now
  }

  function Index(st: Store, s: Session): Store {
    st.(byID := st.byID[s.id := s],
        byIMSI := if s.imsi != "" then st.byIMSI[s.imsi := s.id] else st.byIMSI,
        byMAC := if s.mac != "" then st.byMAC[s.mac := s.id] else st.byMAC,
        byIP := if s.subscriberIP.Some? then st.byIP[s.subscriberIP := s.id] else st.byIP,
        byTEID := if s.gtpcTEID != 0 then st.byTEID[s.gtpcTEID := s.id] else st.byTEID)
  }

  /** Removal deletes the keys of the record without asking which session holds them. */
  function Unindex(st: Store, s: Session): Store {
    st.(byID := st.byID - {s.id},
        byIMSI := st.byIMSI - {s.imsi},
        byMAC := st.byMAC - {s.mac},
        byIP := if s.subscriberIP.Some? then st.byIP - {s.subscriberIP} else st.byIP,
        byTEID := if s.gtpcTEID != 0 then st.byTEID - {s.gtpcTEID} else st.byTEID)
  }

  function RekeyIP(st: Store, s: Session, s': Session, always: bool): Store {
    var byIP := if s.subscriberIP.Some? then st.byIP - {s.subscriberIP} else st.byIP;
    st.(byID := st.byID[s.id := s'],
        byIP := if always || s'.subscriberIP.Some? then byIP[s'.subscriberIP := s.id] else byIP)
  }

  function RekeyTEID(st: Store, s: Session, s': Session): Store {
    var byTEID := if s.gtpcTEID != 0 then st.byTEID - {s.gtpcTEID} else st.byTEID;
    st.(byID := st.byID[s.id := s'],
        byTEID := if s'.gtpcTEID != 0 then byTEID[s'.gtpcTEID := s.id] else byTEID)
  }

  function ExpiredSet(st: Store, now: Time): set<SessionID> {
    set id | id in st.byID && Expired(st.byID[id], now)
  }

  function RemoveAll(st: Store, ids: set<SessionID>): Store
    requires ids <= st.byID.Keys
  {
    st.(byID := st.byID - ids,
        byIMSI := st.byIMSI - set id | id in ids :: st.byID[id].imsi,
        byMAC := st.byMAC - set id | id in ids :: st.byID[id].mac,
        byIP := st.byIP - set id | id in ids && st.byID[id].subscriberIP.Some? :: st.byID[id].subscriberIP,
        byTEID := st.byTEID - set id | id in ids && st.byID[id].gtpcTEID != 0 :: st.byID[id].gtpcTEID)
  }

  /** The effect of an accepted operation on the session s it names. */
  function ExecOn(st: Store, op: Op, s: Session, s': Session): Store {
    if op.ApplyAuthResult? then Index(Unindex(st, s), s')
    else if op.SetSubscriberIP? then RekeyIP(st, s, s', true)
    else if op.UpdateSubscriberIP? then RekeyIP(st, s, s', false)
    else if op.BindTEIDs? || op.ApplyPGWResult? then RekeyTEID(st, s, s')
    else if op.Delete? then Unindex(st, s)
    else st.(byID := st.byID[s.id := s'])
  }

  /** The store after an operation. A refused operation changes nothing. */
  function Exec(st: Store, op: Op): Store {
    if !Enabled(st, op) then st
    else if op.Create? then Index(st.(next := st.next + 1), NewSession(st.next + 1, op.input))
    else if op.ExpireInactive? then RemoveAll(st, ExpiredSet(st, op.now))
    else ExecOn(st, op, st.byID[op.id], Edited(op, st.byID[op.id]))
  }

  function Run(st: Store, ops: seq<Op>): Store
    decreases |ops|
  {
    if ops == [] then st else Run(Exec(st, ops[0]), ops[1..])
  }

  /** Every session is stored under its own id, and ids are never handed out twice. */
  predicate WellFormed(st: Store) {
    forall id :: id in st.byID ==> st.byID[id].id == id && id <= st.next
  }

  /** Every index entry points to a stored session whose current field is that key. */
  predicate Sound(st: Store) {
    && WellFormed(st)
    && (forall k :: k in st.byIMSI ==> k != "" && st.byIMSI[k] in st.byID && st.byID[st.byIMSI[k]].imsi == k)
    && (forall k :: k in st.byMAC ==> k != "" && st.byMAC[k] in st.byID && st.byID[st.byMAC[k]].mac == k)
    && (forall k :: k in st.byIP ==> k.Some? && st.byIP[k] in st.byID && st.byID[st.byIP[k]].subscriberIP == k)
    && (forall k :: k in st.byTEID ==> k != 0 && st.byTEID[k] in st.byID && st.byID[st.byTEID[k]].gtpcTEID == k)
  }

  /** Every key a stored session has is in the index, pointing at that session. */
  predicate Complete(st: Store) {
    forall id :: id in st.byID ==> Indexed(st, st.byID[id])
  }

  predicate Indexed(st: Store, s: Session) {
    && (s.imsi != "" ==> s.imsi in st.byIMSI && st.byIMSI[s.imsi] == s.id)
    && (s.mac != "" ==> s.mac in st.byMAC && st.byMAC[s.mac] == s.id)
    && (s.subscriberIP.Some? ==> s.subscriberIP in st.byIP && st.byIP[s.subscriberIP] == s.id)
    && (s.gtpcTEID != 0 ==> s.gtpcTEID in st.byTEID && st.byTEID[s.gtpcTEID] == s.id)
  }

  predicate SharesKey(a: Session, b: Session) {
    || (a.imsi != "" && a.imsi == b.imsi)
    || (a.mac != "" && a.mac == b.mac)
    || (a.subscriberIP.Some? && a.subscriberIP == b.subscriberIP)
    || (a.gtpcTEID != 0 && a.gtpcTEID == b.gtpcTEID)
  }

  /** No other stored session has one of the keys of s. */
  predicate KeysFree(st: Store, s: Session) {
    forall id :: id in st.byID && id != s.id ==> !SharesKey(s, st.byID[id])
  }

  // --- soundness, one building block at a time ---

  lemma IndexKeepsSound(st: Store, s: Session)
    requires Sound(st) && s.id !in st.byID && s.id <= st.next
    ensures Sound(Index(st, s))
  {
  }

  lemma UnindexKeepsSound(st: Store, s: Session)
    requires Sound(st) && s.id in st.byID && st.byID[s.id] == s
    ensures Sound(Unindex(st, s))
  {
  }

  lemma RekeyIPSoundIff(st: Store, s: Session, s': Session, always: bool)
    requires Sound(st) && s.id in st.byID && st.byID[s.id] == s
    requires s' == s.(subscriberIP := s'.subscriberIP, state := s'.state)
    ensures Sound(RekeyIP(st, s, s', always)) <==> !always || s'.subscriberIP.Some?
  {
    if always && s'.subscriberIP.None? {
      assert None in RekeyIP(st, s, s', always).byIP;
    }
  }

  lemma RekeyTEIDKeepsSound(st: Store, s: Session, s': Session)
    requires Sound(st) && s.id in st.byID && st.byID[s.id] == s
    requires s'.id == s.id && SameIdentity(s, s') && s'.subscriberIP == s.subscriberIP
    ensures Sound(RekeyTEID(st, s, s'))
  {
  }

  lemma RewriteKeepsSound(st: Store, s: Session, s': Session)
    requires Sound(st) && s.id in st.byID && st.byID[s.id] == s
    requires s'.id == s.id && SameIdentity(s, s')
    requires s'.subscriberIP == s.subscriberIP && s'.gtpcTEID == s.gtpcTEID
    ensures Sound(st.(byID := st.byID[s.id := s']))
  {
  }

  lemma RemoveAllKeepsSound(st: Store, ids: set<SessionID>)
    requires Sound(st) && ids <= st.byID.Keys
    ensures Sound(RemoveAll(st, ids))
  {
  }

  /** The one operation argument that breaks the IP index: an address that is not there. */
  predicate PlantsMissingIP(st: Store, op: Op) {
    op.SetSubscriberIP? && op.ip.None? && Enabled(st, op)
  }

  lemma ExecOnSoundIff(st: Store, op: Op, s: Session, s': Session)
    requires Sound(st) && !op.Create? && !op.ExpireInactive?
    requires s.id == op.id && op.id in st.byID && st.byID[op.id] == s && s' == Edited(op, s)
    ensures Sound(ExecOn(st, op, s, s')) <==> !(op.SetSubscriberIP? && op.ip.None?)
  {
    if op.ApplyAuthResult? {
      UnindexKeepsSound(st, s);
      IndexKeepsSound(Unindex(st, s), s');
    } else if op.SetSubscriberIP? || op.UpdateSubscriberIP? {
      RekeyIPSoundIff(st, s, s', op.SetSubscriberIP?);
    } else if op.BindTEIDs? || op.ApplyPGWResult? {
      RekeyTEIDKeepsSound(st, s, s');
    } else if op.Delete? {
      UnindexKeepsSound(st, s);
    } else {
      RewriteKeepsSound(st, s, s');
    }
  }

  /** An operation keeps every index entry honest exactly when it does not plant a missing IP. */
  lemma ExecSoundIff(st: Store, op: Op)
    requires Sound(st)
    ensures Sound(Exec(st, op)) <==> !PlantsMissingIP(st, op)
  {
    if Enabled(st, op) {
      if op.Create? {
        IndexKeepsSound(st.(next := st.next + 1), NewSession(st.next + 1, op.input));
      } else if op.ExpireInactive? {
        RemoveAllKeepsSound(st, ExpiredSet(st, op.now));
      } else {
        ExecOnSoundIff(st, op, st.byID[op.id], Edited(op, st.byID[op.id]));
      }
    }
  }

  predicate NeverPlantsMissingIP(st: Store, ops: seq<Op>)
    decreases |ops|
  {
    ops != [] ==> !PlantsMissingIP(st, ops[0]) && NeverPlantsMissingIP(Exec(st, ops[0]), ops[1..])
  }

  /** Over whole runs: no lookup ever yields a deleted or a re-keyed session. */
  lemma {:induction false} RunKeepsSound(st: Store, ops: seq<Op>)
    requires Sound(st) && NeverPlantsMissingIP(st, ops)
    ensures Sound(Run(st, ops))
    decreases |ops|
  {
    if ops != [] {
      ExecSoundIff(st, ops[0]);
      RunKeepsSound(Exec(st, ops[0]), ops[1..]);
    }
  }

  lemma TerminationLeavesMissingIP(st: Store, id: SessionID)
    requires id in st.byID && st.byID[id].id == id && st.byID[id].state == IPAllocated
    requires st.byID[id].subscriberIP.None? && None in st.byIP
    ensures var gone := Exec(Exec(st, MarkTerminating(id)), Delete(id));
            id !in gone.byID && None in gone.byIP && gone.byIP[None] == st.byIP[None]
  {
    var terminating := Exec(st, MarkTerminating(id));
    assert terminating == st.(byID := st.byID[id := Edited(MarkTerminating(id), st.byID[id])]);
  }

  /** A missing address, once planted, still answers lookups after its session is gone. */
  lemma MissingIPOutlivesSession(st: Store, id: SessionID)
    requires WellFormed(st) && PlantsMissingIP(st, SetSubscriberIP(id, None))
    ensures var planted := Exec(st, SetSubscriberIP(id, None));
            var gone := Exec(Exec(planted, MarkTerminating(id)), Delete(id));
            id !in gone.byID && None in gone.byIP && gone.byIP[None] == id
  {
    var planted := Exec(st, SetSubscriberIP(id, None));
    assert planted.byIP[None] == id && planted.byID[id] == Edited(SetSubscriberIP(id, None), st.byID[id]);
    TerminationLeavesMissingIP(planted, id);
  }

  // --- completeness ---

  lemma IndexCompleteIff(st: Store, s: Session)
    requires WellFormed(st) && Complete(st) && s.id !in st.byID
    ensures Complete(Index(st, s)) <==> KeysFree(st, s)
  {
    var st' := Index(st, s);
    if Complete(st') {
      forall id | id in st.byID && id != s.id ensures !SharesKey(s, st.byID[id]) {
        assert Indexed(st', st'.byID[id]) && Indexed(st', st'.byID[s.id]);
      }
    }
    if KeysFree(st, s) {
      forall id | id in st'.byID ensures Indexed(st', st'.byID[id]) {
        if id != s.id {
          assert Indexed(st, st.byID[id]) && !SharesKey(s, st.byID[id]);
        }
      }
    }
  }

  lemma CompleteMeansFree(st: Store, s: Session)
    requires WellFormed(st) && Complete(st) && s.id in st.byID && st.byID[s.id] == s
    ensures KeysFree(st, s)
  {
    forall id | id in st.byID && id != s.id ensures !SharesKey(s, st.byID[id]) {
      assert Indexed(st, s) && Indexed(st, st.byID[id]);
    }
  }

  lemma UnindexKeepsComplete(st: Store, s: Session)
    requires WellFormed(st) && Complete(st) && s.id in st.byID && st.byID[s.id] == s
    ensures Complete(Unindex(st, s))
  {
    CompleteMeansFree(st, s);
    var st' := Unindex(st, s);
    forall id | id in st'.byID ensures Indexed(st', st'.byID[id]) {
      assert Indexed(st, st.byID[id]) && !SharesKey(s, st.byID[id]);
    }
  }

  lemma RekeyIPCompleteIff(st: Store, s: Session, s': Session, always: bool)
    requires WellFormed(st) && Complete(st) && s.id in st.byID && st.byID[s.id] == s
    requires s'.id == s.id && SameIdentity(s, s') && s'.gtpcTEID == s.gtpcTEID
    ensures Complete(RekeyIP(st, s, s', always)) <==> KeysFree(st, s')
  {
    CompleteMeansFree(st, s);
    var st' := RekeyIP(st, s, s', always);
    assert Indexed(st, s);
    if Complete(st') {
      forall id | id in st.byID && id != s.id ensures !SharesKey(s', st.byID[id]) {
        assert Indexed(st', st'.byID[id]) && Indexed(st', st'.byID[s.id]);
      }
    }
    if KeysFree(st, s') {
      forall id | id in st'.byID ensures Indexed(st', st'.byID[id]) {
        if id != s.id {
          assert Indexed(st, st.byID[id]) && !SharesKey(s, st.byID[id]) && !SharesKey(s', st.byID[id]);
        }
      }
    }
  }

  lemma RekeyTEIDCompleteIff(st: Store, s: Session, s': Session)
    requires WellFormed(st) && Complete(st) && s.id in st.byID && st.byID[s.id] == s
    requires s'.id == s.id && SameIdentity(s, s') && s'.subscriberIP == s.subscriberIP
    ensures Complete(RekeyTEID(st, s, s')) <==> KeysFree(st, s')
  {
    CompleteMeansFree(st, s);
    var st' := RekeyTEID(st, s, s');
    assert Indexed(st, s);
    if Complete(st') {
      forall id | id in st.byID && id != s.id ensures !SharesKey(s', st.byID[id]) {
        assert Indexed(st', st'.byID[id]) && Indexed(st', st'.byID[s.id]);
      }
    }
    if KeysFree(st, s') {
      forall id | id in st'.byID ensures Indexed(st', st'.byID[id]) {
        if id != s.id {
          assert Indexed(st, st.byID[id]) && !SharesKey(s, st.byID[id]) && !SharesKey(s', st.byID[id]);
        }
      }
    }
  }

  lemma RewriteKeepsComplete(st: Store, s: Session, s': Session)
    requires WellFormed(st) && Complete(st) && s.id in st.byID && st.byID[s.id] == s
    requires s'.id == s.id && SameIdentity(s, s')
    requires s'.subscriberIP == s.subscriberIP && s'.gtpcTEID == s.gtpcTEID
    ensures Complete(st.(byID := st.byID[s.id := s'])) && KeysFree(st, s')
  {
    CompleteMeansFree(st, s);
    var st' := st.(byID := st.byID[s.id := s']);
    assert Indexed(st, s);
    forall id | id in st'.byID ensures Indexed(st', st'.byID[id]) {
      assert id != s.id ==> Indexed(st, st.byID[id]);
    }
    forall id | id in st.byID && id != s.id ensures !SharesKey(s', st.byID[id]) {
      assert !SharesKey(s, st.byID[id]);
    }
  }

  lemma RemoveAllKeepsComplete(st: Store, ids: set<SessionID>)
    requires WellFormed(st) && Complete(st) && ids <= st.byID.Keys
    ensures Complete(RemoveAll(st, ids))
  {
    var st' := RemoveAll(st, ids);
    forall id | id in st'.byID ensures Indexed(st', st'.byID[id]) {
      assert Indexed(st, st.byID[id]);
      forall x | x in ids ensures !SharesKey(st.byID[x], st.byID[id]) {
        assert Indexed(st, st.byID[x]);
      }
    }
  }

  /** Would the operation give a session a key that another stored session has? */
  predicate GivesTakenKey(st: Store, op: Op) {
    Enabled(st, op) &&
    if op.Create? then !KeysFree(st, NewSession(st.next + 1, op.input))
    else if op.ExpireInactive? || op.Delete? then false
    else !KeysFree(st, Edited(op, st.byID[op.id]))
  }

  lemma ExecOnCompleteIff(st: Store, op: Op, s: Session, s': Session)
    requires WellFormed(st) && Complete(st) && !op.Create? && !op.ExpireInactive?
    requires s.id == op.id && op.id in st.byID && st.byID[op.id] == s && s' == Edited(op, s)
    ensures Complete(ExecOn(st, op, s, s')) <==> op.Delete? || KeysFree(st, s')
  {
    if op.ApplyAuthResult? {
      UnindexKeepsComplete(st, s);
      IndexCompleteIff(Unindex(st, s), s');
      FreeOfRemoved(st, s, s');
    } else if op.SetSubscriberIP? || op.UpdateSubscriberIP? {
      RekeyIPCompleteIff(st, s, s', op.SetSubscriberIP?);
    } else if op.BindTEIDs? || op.ApplyPGWResult? {
      RekeyTEIDCompleteIff(st, s, s');
    } else if op.Delete? {
      UnindexKeepsComplete(st, s);
    } else {
      RewriteKeepsComplete(st, s, s');
    }
  }

  lemma FreeOfRemoved(st: Store, s: Session, s': Session)
    requires s.id == s'.id
    ensures KeysFree(Unindex(st, s), s') <==> KeysFree(st, s')
  {
    assert forall id :: id != s.id ==> (id in st.byID <==> id in Unindex(st, s).byID);
  }

  lemma CreateCompleteIff(st: Store, s: Session)
    requires WellFormed(st) && Complete(st) && s.id == st.next + 1
    ensures Complete(Index(st.(next := st.next + 1), s)) <==> KeysFree(st, s)
  {
    var st1 := st.(next := st.next + 1);
    forall id | id in st1.byID ensures Indexed(st1, st1.byID[id]) {
      assert Indexed(st, st.byID[id]);
    }
    IndexCompleteIff(st1, s);
  }

  /** The index stays complete exactly when the operation hands out no key already taken. */
  lemma ExecCompleteIff(st: Store, op: Op)
    requires WellFormed(st) && Complete(st)
    ensures Complete(Exec(st, op)) <==> !GivesTakenKey(st, op)
  {
    hide Complete, KeysFree, Index, RemoveAll, ExecOn, Edited;
    if Enabled(st, op) {
      if op.Create? {
        CreateCompleteIff(st, NewSession(st.next + 1, op.input));
      } else if op.ExpireInactive? {
        RemoveAllKeepsComplete(st, ExpiredSet(st, op.now));
      } else {
        ExecOnCompleteIff(st, op, st.byID[op.id], Edited(op, st.byID[op.id]));
      }
    }
  }

  predicate NeverGivesTakenKey(st: Store, ops: seq<Op>)
    decreases |ops|
  {
    ops != [] ==> !GivesTakenKey(st, ops[0]) && NeverGivesTakenKey(Exec(st, ops[0]), ops[1..])
  }

  // --- lookups against the scan of the primary map ---

  function LookupByIMSI(st: Store, imsi: string): Option<Session> {
    if imsi in st.byIMSI && st.byIMSI[imsi] in st.byID then Some(st.byID[st.byIMSI[imsi]]) else None
  }

  function LookupByMAC(st: Store, mac: string): Option<Session> {
    if mac in st.byMAC && st.byMAC[mac] in st.byID then Some(st.byID[st.byMAC[mac]]) else None
  }

  function LookupByIP(st: Store, ip: Option<IPv4>): Option<Session> {
    if ip in st.byIP && st.byIP[ip] in st.byID then Some(st.byID[st.byIP[ip]]) else None
  }

  function LookupByTEID(st: Store, teid: nat): Option<Session> {
    if teid in st.byTEID && st.byTEID[teid] in st.byID then Some(st.byID[st.byTEID[teid]]) else None
  }

  /** Whatever the run, a lookup answers only with a stored session that has the key now. */
  lemma LookupsAreHonest(ops: seq<Op>, imsi: string, mac: string, ip: Option<IPv4>, teid: nat)
    requires NeverPlantsMissingIP(Empty, ops)
    ensures var st := Run(Empty, ops);
            && (imsi in st.byIMSI ==> LookupByIMSI(st, imsi).Some? && LookupByIMSI(st, imsi).value.imsi == imsi)
            && (mac in st.byMAC ==> LookupByMAC(st, mac).Some? && LookupByMAC(st, mac).value.mac == mac)
            && (ip in st.byIP ==> LookupByIP(st, ip).Some? && LookupByIP(st, ip).value.subscriberIP == ip)
            && (teid in st.byTEID ==> LookupByTEID(st, teid).Some? && LookupByTEID(st, teid).value.gtpcTEID == teid)
  {
    RunKeepsSound(Empty, ops);
  }

  lemma {:induction false} RunKeepsComplete(st: Store, ops: seq<Op>)
    requires Sound(st) && Complete(st) && NeverPlantsMissingIP(st, ops) && NeverGivesTakenKey(st, ops)
    ensures Sound(Run(st, ops)) && Complete(Run(st, ops))
    decreases |ops|
  {
    if ops != [] {
      ExecSoundIff(st, ops[0]);
      ExecCompleteIff(st, ops[0]);
      RunKeepsComplete(Exec(st, ops[0]), ops[1..]);
    }
  }

  /** In runs that share no key, every index lookup is the linear scan. */
  lemma LookupsEqualScan(ops: seq<Op>, s: Session)
    requires NeverPlantsMissingIP(Empty, ops) && NeverGivesTakenKey(Empty, ops)
    ensures var st := Run(Empty, ops);
            var stored := s in st.byID.Values;
            && (forall k :: k != "" ==> (LookupByIMSI(st, k) == Some(s) <==> stored && s.imsi == k))
            && (forall k :: k != "" ==> (LookupByMAC(st, k) == Some(s) <==> stored && s.mac == k))
            && (forall k: Option<IPv4> :: k.Some? ==> (LookupByIP(st, k) == Some(s) <==> stored && s.subscriberIP == k))
            && (forall k: nat :: k != 0 ==> (LookupByTEID(st, k) == Some(s) <==> stored && s.gtpcTEID == k))
  {
    RunKeepsComplete(Empty, ops);
    var st := Run(Empty, ops);
    if s in st.byID.Values {
      assert st.byID[s.id] == s && Indexed(st, s);
    }
  }

  // --- one record over a run ---

  lemma ExecOnTable(st: Store, op: Op, s: Session, s': Session)
    requires s'.id == s.id
    ensures ExecOn(st, op, s, s').next == st.next
    ensures ExecOn(st, op, s, s').byID == if op.Delete? then st.byID - {s.id} else st.byID[s.id := s']
  {
    assert (st.byID - {s.id})[s.id := s'] == st.byID[s.id := s'];
  }

  /** What one operation can do to one record: nothing, its own edit, or its creation. */
  lemma RecordStep(st: Store, op: Op, id: SessionID)
    requires WellFormed(st) && id in Exec(st, op).byID
    ensures WellFormed(Exec(st, op)) && st.next <= Exec(st, op).next
    ensures id !in st.byID ==> op.Create? && id == st.next + 1 && Exec(st, op).byID[id] == NewSession(id, op.input)
    ensures id in st.byID ==>
              || Exec(st, op).byID[id] == st.byID[id]
              || (Enabled(st, op) && !op.Create? && !op.ExpireInactive? && !op.Delete? && op.id == id
                  && Exec(st, op).byID[id] == Edited(op, st.byID[id]))
  {
    if Enabled(st, op) && !op.Create? && !op.ExpireInactive? {
      ExecOnTable(st, op, st.byID[op.id], Edited(op, st.byID[op.id]));
    }
  }

  /** Field by field, what an accepted operation makes of the record it names. */
  lemma RecordFields(st: Store, op: Op)
    requires WellFormed(st) && Enabled(st, op) && !op.Create? && !op.ExpireInactive? && !op.Delete?
    ensures op.id in Exec(st, op).byID
    ensures var s, r := st.byID[op.id], Exec(st, op).byID[op.id];
            var connected := op.BindTEIDs? || op.ApplyPGWResult?;
            && r.id == s.id && r.mac == s.mac && r.expiresAt == s.expiresAt
            && r.imsi == (if op.ApplyAuthResult? && op.imsi != "" then op.imsi else s.imsi)
            && r.msisdn == (if op.ApplyAuthResult? && op.msisdn != "" then op.msisdn else s.msisdn)
            && r.apn == (if op.ApplyAuthResult? && op.apn != "" then op.apn else s.apn)
            && r.acctSessionID == (if op.ApplyAccounting? && op.acctSessionID != "" then op.acctSessionID else s.acctSessionID)
            && r.subscriberIP == (if op.SetSubscriberIP? || op.UpdateSubscriberIP? then op.ip else s.subscriberIP)
            && r.pgwControlIP == (if op.ApplyPGWResult? then op.controlIP else s.pgwControlIP)
            && r.pgwUserIP == (if op.ApplyPGWResult? then op.userIP else s.pgwUserIP)
            && r.gtpcTEID == (if connected then op.gtpc else s.gtpcTEID)
            && r.localGTPUTEID == (if connected then op.localGTPU else s.localGTPUTEID)
            && r.remoteGTPUTEID == (if connected then op.remoteGTPU else s.remoteGTPUTEID)
            && r.gtpuErrorCount == s.gtpuErrorCount + (if op.RecordGTPUError? then 1 else 0)
            && r.authenticated == (s.authenticated || op.MarkAuthorized? || op.ApplyAuthResult?)
            && r.authorized == (s.authorized || op.MarkAuthorized? || op.ApplyAuthResult?)
            && r.reason == if op.ApplyAuthResult? || op.MarkRecovering? || op.MarkFailed? || op.RecordGTPUError?
                           then op.reason else s.reason
  {
    ExecOnTable(st, op, st.byID[op.id], Edited(op, st.byID[op.id]));
  }

  lemma Reindexed(st: Store, s: Session)
    ensures Indexed(Index(st, s), s) && Index(st, s).byID[s.id] == s
  {
  }

  lemma Readdressed(st: Store, s: Session, s': Session, always: bool)
    requires s'.id == s.id
    ensures var st' := RekeyIP(st, s, s', always);
            && (s'.subscriberIP.Some? ==> LookupByIP(st', s'.subscriberIP) == Some(s'))
            && (s.subscriberIP.Some? && s.subscriberIP != s'.subscriberIP ==> LookupByIP(st', s.subscriberIP) == None)
  {
  }

  lemma Retunnelled(st: Store, s: Session, s': Session)
    requires s'.id == s.id
    ensures var st' := RekeyTEID(st, s, s');
            && (s'.gtpcTEID != 0 ==> LookupByTEID(st', s'.gtpcTEID) == Some(s'))
            && (s.gtpcTEID != 0 && s.gtpcTEID != s'.gtpcTEID ==> LookupByTEID(st', s.gtpcTEID) == None)
  {
  }

  /** A session that got a new identity, address or tunnel is found under it at once, and no
      longer under the address or the tunnel it had. */
  lemma NewKeysAnswer(st: Store, op: Op)
    requires WellFormed(st) && Enabled(st, op) && !op.Create? && !op.ExpireInactive?
    ensures var st', s := Exec(st, op), st.byID[op.id];
            && (op.ApplyAuthResult? ==> Indexed(st', st'.byID[op.id]))
            && ((op.SetSubscriberIP? || op.UpdateSubscriberIP?) && op.ip.Some? ==>
                  && LookupByIP(st', op.ip) == Some(st'.byID[op.id])
                  && (s.subscriberIP.Some? && s.subscriberIP != op.ip ==> LookupByIP(st', s.subscriberIP) == None))
            && ((op.BindTEIDs? || op.ApplyPGWResult?) && op.gtpc != 0 ==>
                  && LookupByTEID(st', op.gtpc) == Some(st'.byID[op.id])
                  && (s.gtpcTEID != 0 && s.gtpcTEID != op.gtpc ==> LookupByTEID(st', s.gtpcTEID) == None))
            && (op.Delete? ==> op.id !in st'.byID && LookupByIMSI(st', s.imsi) == None && LookupByMAC(st', s.mac) == None)
  {
    hide Index, RekeyIP, RekeyTEID, Indexed, LookupByIP, LookupByTEID;
    var s := st.byID[op.id];
    var s' := Edited(op, s);
    ExecOnTable(st, op, s, s');
    Reindexed(Unindex(st, s), s');
    Readdressed(st, s, s', op.SetSubscriberIP?);
    Retunnelled(st, s, s');
  }

  /** A new session has what it was created with, no address and no tunnel, and is found. */
  lemma RecordCreated(st: Store, input: CreateInput)
    requires WellFormed(st)
    ensures var st' := Exec(st, Create(input));
            var id := st.next + 1;
            && id !in st.byID && id in st'.byID && st'.next == id && st'.byID - {id} == st.byID
            && var r := st'.byID[id];
               && r.imsi == input.imsi && r.msisdn == input.msisdn && r.mac == input.mac && r.apn == input.apn
               && r.acctSessionID == input.acctSessionID && r.expiresAt == input.expiresAt && r.state == Pending
               && r.subscriberIP.None? && r.gtpcTEID == 0 && r.remoteGTPUTEID == 0 && r.gtpuErrorCount == 0
               && !r.authenticated && !r.authorized && Indexed(st', r)
  {
    assert st.byID - {st.next + 1} == st.byID;
  }

  /** Expiry removes exactly the sessions whose time is set and over. */
  lemma ExpiryIsExact(st: Store, now: Time)
    requires WellFormed(st)
    ensures var st' := Exec(st, ExpireInactive(now));
            && st'.next == st.next
            && (forall id :: id in st'.byID <==> id in st.byID && (st.byID[id].expiresAt == 0 || now < st.byID[id].expiresAt))
            && forall id :: id in st'.byID ==> st'.byID[id] == st.byID[id]
  {
  }

  lemma {:induction false} RunAppend(st: Store, ops: seq<Op>, op: Op)
    ensures Run(st, ops + [op]) == Exec(Run(st, ops), op)
    decreases |ops|
  {
    if ops == [] {
      assert Run(Exec(st, op), []) == Exec(st, op);
      assert [op][1..] == [];
    } else {
      assert (ops + [op])[0] == ops[0] && (ops + [op])[1..] == ops[1..] + [op];
      RunAppend(Exec(st, ops[0]), ops[1..], op);
    }
  }

  predicate BeyondAuthorization(s: State) {
    s == Authorized || s == IPAllocated || s == PGWPending || s == Active || s == Recovering
  }

  ghost predicate AuthorizedAt(ops: seq<Op>, i: nat, id: SessionID) {
    && i <= |ops|
    && id in Run(Empty, ops[..i]).byID
    && Run(Empty, ops[..i]).byID[id].state == Authorized
  }

  lemma EditAuthorization(op: Op, s: Session)
    requires Target(op).Some? ==> ValidTransition(s.state, Target(op).value)
    requires BeyondAuthorization(Edited(op, s).state)
    ensures s.authenticated ==> Edited(op, s).authenticated
    ensures s.authorized ==> Edited(op, s).authorized
    ensures !BeyondAuthorization(s.state) ==>
              Edited(op, s).state == Authorized && Edited(op, s).authenticated && Edited(op, s).authorized
  {
  }

  /** A session in or beyond Authorized was once in Authorized, and still carries both flags. */
  lemma {:induction false} WentThroughAuthorized(ops: seq<Op>, id: SessionID) returns (i: nat)
    requires id in Run(Empty, ops).byID && BeyondAuthorization(Run(Empty, ops).byID[id].state)
    ensures AuthorizedAt(ops, i, id)
    ensures Run(Empty, ops).byID[id].authenticated && Run(Empty, ops).byID[id].authorized
    decreases |ops|
  {
    var n := |ops| - 1;
    var before := Run(Empty, ops[..n]);
    assert ops == ops[..n] + [ops[n]];
    RunAppend(Empty, ops[..n], ops[n]);
    RunWellFormed(ops[..n]);
    RecordStep(before, ops[n], id);
    if id in before.byID && Run(Empty, ops).byID[id] != before.byID[id] {
      EditAuthorization(ops[n], before.byID[id]);
    }
    if id in before.byID && BeyondAuthorization(before.byID[id].state) {
      i := WentThroughAuthorized(ops[..n], id);
      assert ops[..n][..i] == ops[..i];
    } else {
      i := |ops|;
      assert ops[..i] == ops;
    }
  }

  lemma {:induction false} RunWellFormed(ops: seq<Op>)
    ensures WellFormed(Run(Empty, ops))
    decreases |ops|
  {
    if ops != [] {
      var n := |ops| - 1;
      assert ops == ops[..n] + [ops[n]];
      RunAppend(Empty, ops[..n], ops[n]);
      RunWellFormed(ops[..n]);
      var before := Run(Empty, ops[..n]);
      forall id | id in Exec(before, ops[n]).byID
        ensures Exec(before, ops[n]).byID[id].id == id <= Exec(before, ops[n]).next
      {
        RecordStep(before, ops[n], id);
      }
    }
  }
}
