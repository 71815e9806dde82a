/** The session manager as it runs: maps that share pointers to mutable sessions. Each
    method is proved to have the effect that SessionStore.Exec gives its operation. */
module SessionManager {
  import opened Wrappers
  import opened Sessions
  import opened SessionStore

  datatype StoreError = NotFound | InvalidTransition(from: State, to: State)

  /** A session on the heap; every map of the manager that finds it points to the same cell. */
  class Cell {
    const id: SessionID
    var val: Session

    constructor (s: Session)
      ensures id == s.id && val == s
    {
      id := s.id;
      val := s;
    }
  }

  /** The ids behind an index. */
  function Ids<K>(index: map<K, Cell>): map<K, SessionID> {
    map k | k in index :: index[k].id
  }

  /** Every pointer of an index is the pointer stored in the primary map under that id. */
  predicate PointsInto<K>(index: map<K, Cell>, byID: map<SessionID, Cell>) {
    forall k :: k in index ==> index[k].id in byID && byID[index[k].id] == index[k]
  }

  function PutIf<K>(present: bool, index: map<K, Cell>, k: K, c: Cell): map<K, Cell> {
    if present then index[k := c] else index
  }

  function DropIf<K>(present: bool, index: map<K, Cell>, k: K): map<K, Cell> {
    if present then index - {k} else index
  }

  lemma PutPointer<K>(present: bool, index: map<K, Cell>, byID: map<SessionID, Cell>, k: K, c: Cell)
    requires PointsInto(index, byID) && (c.id in byID ==> byID[c.id] == c)
    ensures PointsInto(PutIf(present, index, k, c), byID[c.id := c])
    ensures Ids(PutIf(present, index, k, c)) == if present then Ids(index)[k := c.id] else Ids(index)
  {
  }

  /** Dropping a stored session drops its pointers when the index is honest about its key. */
  lemma DropPointer<K>(present: bool, index: map<K, Cell>, byID: map<SessionID, Cell>, id: SessionID, k: K)
    requires PointsInto(index, byID)
    requires forall x :: x in index && index[x].id == id ==> x == k && present
    ensures PointsInto(DropIf(present, index, k), byID - {id}) && PointsInto(DropIf(present, index, k), byID)
    ensures Ids(DropIf(present, index, k)) == if present then Ids(index) - {k} else Ids(index)
  {
  }

  lemma CreateEffect(st: Store, input: CreateInput)
    requires Sound(st)
    ensures Exec(st, Create(input)) == Index(st.(next := st.next + 1), NewSession(st.next + 1, input))
    ensures Sound(Exec(st, Create(input)))
  {
    ExecSoundIff(st, Create(input));
  }

  lemma ApplyAuthEffect(st: Store, id: SessionID, imsi: string, msisdn: string, apn: string, reason: string)
    requires Sound(st)
    ensures var op := ApplyAuthResult(id, imsi, msisdn, apn, reason);
            && Sound(Exec(st, op))
            && (Enabled(st, op) ==> Exec(st, op) == Index(Unindex(st, st.byID[id]), Edited(op, st.byID[id])))
            && (!Enabled(st, op) ==> Exec(st, op) == st)
            && (id in st.byID ==>
                  var s := st.byID[id];
                  Edited(op, s) == s.(imsi := if imsi != "" then imsi else s.imsi,
                                      msisdn := if msisdn != "" then msisdn else s.msisdn,
                                      apn := if apn != "" then apn else s.apn,
                                      reason := reason, authenticated := true, authorized := true,
                                      state := Authorized))
  {
    ExecSoundIff(st, ApplyAuthResult(id, imsi, msisdn, apn, reason));
  }

  lemma AddressEffect(st: Store, op: Op)
    requires Sound(st) && (op.UpdateSubscriberIP? || op.SetSubscriberIP?)
    ensures (Sound(Exec(st, op)) <==> !PlantsMissingIP(st, op)) && (!Enabled(st, op) ==> Exec(st, op) == st)
    ensures Enabled(st, op) ==> Exec(st, op) == RekeyIP(st, st.byID[op.id], Edited(op, st.byID[op.id]), op.SetSubscriberIP?)
    ensures op.id in st.byID ==> var s := st.byID[op.id];
              Edited(op, s) == s.(subscriberIP := op.ip, state := if op.SetSubscriberIP? then IPAllocated else s.state)
  {
    ExecSoundIff(st, op);
  }

  lemma TEIDEffect(st: Store, op: Op)
    requires Sound(st) && (op.BindTEIDs? || op.ApplyPGWResult?)
    ensures Sound(Exec(st, op)) && (!Enabled(st, op) ==> Exec(st, op) == st)
    ensures Enabled(st, op) ==> Exec(st, op) == RekeyTEID(st, st.byID[op.id], Edited(op, st.byID[op.id]))
    ensures op.id in st.byID ==> var s := st.byID[op.id];
              var t := s.(gtpcTEID := op.gtpc, localGTPUTEID := op.localGTPU, remoteGTPUTEID := op.remoteGTPU);
              Edited(op, s) == if op.BindTEIDs? then t else t.(pgwControlIP := op.controlIP, pgwUserIP := op.userIP)
  {
    ExecSoundIff(st, op);
  }

  lemma RemovalEffect(st: Store, id: SessionID)
    requires Sound(st)
    ensures Sound(Exec(st, Delete(id))) && (!Enabled(st, Delete(id)) ==> Exec(st, Delete(id)) == st)
    ensures Enabled(st, Delete(id)) ==> Exec(st, Delete(id)) == Unindex(st, st.byID[id])
  {
    ExecSoundIff(st, Delete(id));
  }

  lemma ExpiryEffect(st: Store, now: Time)
    requires Sound(st)
    ensures WellFormed(st) && ExpiredSet(st, now) <= st.byID.Keys
    ensures RemoveAll(st, {}) == st && Exec(st, ExpireInactive(now)) == RemoveAll(st, ExpiredSet(st, now))
  {
  }

  lemma StoredUnderOwnID(st: Store)
    requires Sound(st)
    ensures WellFormed(st)
  {
  }

  lemma RemoveAllTable(st: Store, gone: set<SessionID>)
    requires gone <= st.byID.Keys
    ensures RemoveAll(st, gone).byID == st.byID - gone
  {
  }

  lemma RemoveOneMore(st: Store, gone: set<SessionID>, id: SessionID)
    requires WellFormed(st) && gone <= st.byID.Keys && id in st.byID && id !in gone
    ensures RemoveAll(st, gone).byID[id] == st.byID[id]
    ensures RemoveAll(st, gone + {id}) == Unindex(RemoveAll(st, gone), st.byID[id])
  {
    var a, b := RemoveAll(st, gone + {id}), Unindex(RemoveAll(st, gone), st.byID[id]);
    assert a.byID == b.byID;
    assert a.byIMSI == b.byIMSI;
    assert a.byMAC == b.byMAC;
    assert a.byIP == b.byIP;
    assert a.byTEID == b.byTEID;
  }

  /** What the manager answers to an operation on one session. */
  function Response(st: Store, op: Op): Result<Session, StoreError>
    requires !op.Create? && !op.ExpireInactive?
  {
    if op.id !in st.byID then Err(NotFound)
    else if Enabled(st, op) then Ok(Edited(op, st.byID[op.id]))
    else Err(InvalidTransition(st.byID[op.id].state, Target(op).value))
  }

  /** The shared body of the state-changing operations that leave the indexes alone. */
  function Moved(st: Store, id: SessionID, to: State, fn: Session -> Session): Store {
    if id in st.byID && ValidTransition(st.byID[id].state, to)
    then st.(byID := st.byID[id := fn(st.byID[id]).(state := to)]) else st
  }

  function MovedResponse(st: Store, id: SessionID, to: State, fn: Session -> Session): Result<Session, StoreError> {
    if id !in st.byID then Err(NotFound)
    else if ValidTransition(st.byID[id].state, to) then Ok(fn(st.byID[id]).(state := to))
    else Err(InvalidTransition(st.byID[id].state, to))
  }

  function Changed(st: Store, id: SessionID, fn: Session -> Session): Store {
    if id in st.byID then st.(byID := st.byID[id := fn(st.byID[id])]) else st
  }

  function ChangedResponse(st: Store, id: SessionID, fn: Session -> Session): Result<Session, StoreError> {
    if id in st.byID then Ok(fn(st.byID[id])) else Err(NotFound)
  }

  predicate LeavesIndexes(op: Op) {
    && !op.Create? && !op.ExpireInactive? && !op.ApplyAuthResult? && !op.Delete?
    && !op.SetSubscriberIP? && !op.UpdateSubscriberIP? && !op.BindTEIDs? && !op.ApplyPGWResult?
  }

  lemma MoveEffect(st: Store, op: Op, fn: Session -> Session)
    requires Sound(st) && LeavesIndexes(op) && Target(op).Some?
    requires forall s :: fn(s) == Edit(op, s)
    ensures Exec(st, op) == Moved(st, op.id, Target(op).value, fn) && Sound(Exec(st, op))
    ensures Response(st, op) == MovedResponse(st, op.id, Target(op).value, fn)
  {
    ExecSoundIff(st, op);
  }

  lemma ChangeEffect(st: Store, op: Op, fn: Session -> Session)
    requires Sound(st) && LeavesIndexes(op) && Target(op).None?
    requires forall s :: fn(s) == Edit(op, s)
    ensures Exec(st, op) == Changed(st, op.id, fn) && Sound(Exec(st, op))
    ensures Response(st, op) == ChangedResponse(st, op.id, fn)
  {
    ExecSoundIff(st, op);
  }

  class Manager {
    var next: nat
    var byID: map<SessionID, Cell>
    var byIMSI: map<string, Cell>
    var byMAC: map<string, Cell>
    var byIP: map<Option<IPv4>, Cell>
    var byTEID: map<nat, Cell>

    ghost predicate Linked()
      reads this, byID.Values
    {
      && (forall id :: id in byID ==> byID[id].id == id && byID[id].val.id == id)
      && PointsInto(byIMSI, byID) && PointsInto(byMAC, byID)
      && PointsInto(byIP, byID) && PointsInto(byTEID, byID)
    }

    ghost predicate Valid()
      reads this, byID.Values
    {
      Linked() && Sound(View())
    }

    ghost function View(): Store
      reads this, byID.Values
    {
      Store(next, map id | id in byID :: byID[id].val, Ids(byIMSI), Ids(byMAC), Ids(byIP), Ids(byTEID))
    }

    constructor ()
      ensures Valid() && byID == map[] && View() == Empty
    {
      next := 0;
      byID, byIMSI, byMAC, byIP, byTEID := map[], map[], map[], map[], map[];
    }

    /** No pointer of an index is out of date. */
    lemma Honest()
      requires Valid()
      ensures forall k :: k in byIMSI ==> byIMSI[k].val.imsi == k != ""
      ensures forall k :: k in byMAC ==> byMAC[k].val.mac == k != ""
      ensures forall k :: k in byIP ==> byIP[k].val.subscriberIP == k && k.Some?
      ensures forall k :: k in byTEID ==> byTEID[k].val.gtpcTEID == k != 0
    {
      var v := View();
      assert forall k :: k in byIMSI ==> v.byIMSI[k] == byIMSI[k].id;
      assert forall k :: k in byMAC ==> v.byMAC[k] == byMAC[k].id;
      assert forall k :: k in byIP ==> v.byIP[k] == byIP[k].id;
      assert forall k :: k in byTEID ==> v.byTEID[k] == byTEID[k].id;
    }

    method IndexLocked(c: Cell)
      requires Linked() && c.val.id == c.id && c.id !in byID
      modifies this
      ensures Linked() && next == old(next) && byID == old(byID)[c.id := c]
      ensures View() == Index(old(View()), c.val)
    {
      hide PointsInto, Ids, PutIf;
      var s := c.val;
      PutPointer(s.imsi != "", byIMSI, byID, s.imsi, c);
      PutPointer(s.mac != "", byMAC, byID, s.mac, c);
      PutPointer(s.subscriberIP != None, byIP, byID, s.subscriberIP, c);
      PutPointer(s.gtpcTEID != 0, byTEID, byID, s.gtpcTEID, c);
      byID := byID[c.id := c];
      byIMSI := PutIf(s.imsi != "", byIMSI, s.imsi, c);
      byMAC := PutIf(s.mac != "", byMAC, s.mac, c);
      byIP := PutIf(s.subscriberIP != None, byIP, s.subscriberIP, c);
      byTEID := PutIf(s.gtpcTEID != 0, byTEID, s.gtpcTEID, c);
      assert View().byID == old(View()).byID[c.id := s];
    }

    ghost predicate HonestAt(c: Cell)
      reads this, c
    {
      && (forall k :: k in byIMSI && byIMSI[k].id == c.id ==> k == c.val.imsi)
      && (forall k :: k in byMAC && byMAC[k].id == c.id ==> k == c.val.mac)
      && (forall k :: k in byIP && byIP[k].id == c.id ==> k == c.val.subscriberIP && k != None)
      && (forall k :: k in byTEID && byTEID[k].id == c.id ==> k == c.val.gtpcTEID != 0)
    }

    lemma HonestCell(c: Cell)
      requires Valid() && c.id in byID && byID[c.id] == c
      ensures HonestAt(c)
    {
      Honest();
    }

    method UnindexLocked(c: Cell)
      requires Linked() && c.id in byID && byID[c.id] == c && HonestAt(c)
      modifies this
      ensures Linked() && byID == old(byID) - {c.id} && View() == Unindex(old(View()), c.val)
    {
      hide PointsInto, Ids, DropIf;
      var s := c.val;
      DropPointer(true, byIMSI, byID, c.id, s.imsi);
      DropPointer(true, byMAC, byID, c.id, s.mac);
      DropPointer(s.subscriberIP != None, byIP, byID, c.id, s.subscriberIP);
      DropPointer(s.gtpcTEID != 0, byTEID, byID, c.id, s.gtpcTEID);
      byID := byID - {c.id};
      byIMSI := DropIf(true, byIMSI, s.imsi);
      byMAC := DropIf(true, byMAC, s.mac);
      byIP := DropIf(s.subscriberIP != None, byIP, s.subscriberIP);
      byTEID := DropIf(s.gtpcTEID != 0, byTEID, s.gtpcTEID);
      assert View().byID == old(View()).byID - {c.id};
    }

    lemma UnusedID()
      requires Valid()
      ensures next + 1 !in byID
    {
      assert forall id :: id in byID ==> id in View().byID;
    }

    method Create(input: CreateInput) returns (s: Session)
      requires Valid()
      modifies this
      ensures Valid() && fresh(byID.Values - old(byID.Values))
      ensures View() == Exec(old(View()), Op.Create(input))
      ensures s == NewSession(next, input) && next in byID && byID[next].val == s
    {
      hide Sound, Exec, Index, PointsInto, Ids;
      ghost var was := View();
      UnusedID();
      CreateEffect(was, input);
      next := next + 1;
      s := NewSession(next, input);
      var c := new Cell(s);
      assert View() == was.(next := next);
      IndexLocked(c);
    }

    /** Overwrites the session behind a pointer; every map that reaches it sees the change. */
    method Write(c: Cell, s: Session)
      requires Linked() && c.id in byID && byID[c.id] == c && s.id == c.id
      modifies c
      ensures Linked() && c.val == s
      ensures View() == old(View()).(byID := old(View()).byID[c.id := s])
    {
      c.val := s;
      assert View().byID == old(View()).byID[c.id := s];
    }

    method Transition(id: SessionID, to: State, fn: Session -> Session) returns (r: Result<Session, StoreError>)
      requires Linked() && forall s :: fn(s).id == s.id
      modifies byID.Values
      ensures Linked() && View() == Moved(old(View()), id, to, fn) && r == MovedResponse(old(View()), id, to, fn)
    {
      if id !in byID {
        return Err(NotFound);
      }
      var c := byID[id];
      if !ValidTransition(c.val.state, to) {
        return Err(InvalidTransition(c.val.state, to));
      }
      Write(c, fn(c.val).(state := to));
      r := Ok(c.val);
    }

    method Update(id: SessionID, fn: Session -> Session) returns (r: Result<Session, StoreError>)
      requires Linked() && forall s :: fn(s).id == s.id
      modifies byID.Values
      ensures Linked() && View() == Changed(old(View()), id, fn) && r == ChangedResponse(old(View()), id, fn)
    {
      if id !in byID {
        return Err(NotFound);
      }
      var c := byID[id];
      Write(c, fn(c.val));
      r := Ok(c.val);
    }

    method MarkAuthPending(id: SessionID) returns (r: Result<Session, StoreError>)
      requires Valid()
      modifies byID.Values
      ensures Valid() && View() == Exec(old(View()), Op.MarkAuthPending(id))
      ensures r == Response(old(View()), Op.MarkAuthPending(id))
    {
      hide Exec, Response, Sound, Moved, MovedResponse;
      var fn := (s: Session) => s;
      MoveEffect(View(), Op.MarkAuthPending(id), fn);
      r := Transition(id, AuthPending, fn);
    }

    method MarkAuthorized(id: SessionID) returns (r: Result<Session, StoreError>)
      requires Valid()
      modifies byID.Values
      ensures Valid() && View() == Exec(old(View()), Op.MarkAuthorized(id))
      ensures r == Response(old(View()), Op.MarkAuthorized(id))
    {
      hide Exec, Response, Sound, Moved, MovedResponse;
      var fn := (s: Session) => s.(authenticated := true, authorized := true);
      MoveEffect(View(), Op.MarkAuthorized(id), fn);
      r := Transition(id, Authorized, fn);
    }

    method MarkPGWPending(id: SessionID) returns (r: Result<Session, StoreError>)
      requires Valid()
      modifies byID.Values
      ensures Valid() && View() == Exec(old(View()), Op.MarkPGWPending(id))
      ensures r == Response(old(View()), Op.MarkPGWPending(id))
    {
      hide Exec, Response, Sound, Moved, MovedResponse;
      var fn := (s: Session) => s;
      MoveEffect(View(), Op.MarkPGWPending(id), fn);
      r := Transition(id, PGWPending, fn);
    }

    method MarkActive(id: SessionID) returns (r: Result<Session, StoreError>)
      requires Valid()
      modifies byID.Values
      ensures Valid() && View() == Exec(old(View()), Op.MarkActive(id))
      ensures r == Response(old(View()), Op.MarkActive(id))
    {
      hide Exec, Response, Sound, Moved, MovedResponse;
      var fn := (s: Session) => s;
      MoveEffect(View(), Op.MarkActive(id), fn);
      r := Transition(id, Active, fn);
    }

    method MarkRecovering(id: SessionID, reason: string) returns (r: Result<Session, StoreError>)
      requires Valid()
      modifies byID.Values
      ensures Valid() && View() == Exec(old(View()), Op.MarkRecovering(id, reason))
      ensures r == Response(old(View()), Op.MarkRecovering(id, reason))
    {
      hide Exec, Response, Sound, Moved, MovedResponse;
      var fn := (s: Session) => s.(reason := reason);
      MoveEffect(View(), Op.MarkRecovering(id, reason), fn);
      r := Transition(id, Recovering, fn);
    }

    method MarkTerminating(id: SessionID) returns (r: Result<Session, StoreError>)
      requires Valid()
      modifies byID.Values
      ensures Valid() && View() == Exec(old(View()), Op.MarkTerminating(id))
      ensures r == Response(old(View()), Op.MarkTerminating(id))
    {
      hide Exec, Response, Sound, Moved, MovedResponse;
      var fn := (s: Session) => s;
      MoveEffect(View(), Op.MarkTerminating(id), fn);
      r := Transition(id, Terminating, fn);
    }

    method MarkFailed(id: SessionID, reason: string) returns (r: Result<Session, StoreError>)
      requires Valid()
      modifies byID.Values
      ensures Valid() && View() == Exec(old(View()), Op.MarkFailed(id, reason))
      ensures r == Response(old(View()), Op.MarkFailed(id, reason))
    {
      hide Exec, Response, Sound, Moved, MovedResponse;
      var fn := (s: Session) => s.(reason := reason);
      MoveEffect(View(), Op.MarkFailed(id, reason), fn);
      r := Transition(id, Failed, fn);
    }

    method RecordGTPUError(id: SessionID, reason: string) returns (r: Result<Session, StoreError>)
      requires Valid()
      modifies byID.Values
      ensures Valid() && View() == Exec(old(View()), Op.RecordGTPUError(id, reason))
      ensures r == Response(old(View()), Op.RecordGTPUError(id, reason))
    {
      hide Exec, Response, Sound, Changed, ChangedResponse;
      var fn := (s: Session) => s.(gtpuErrorCount := s.gtpuErrorCount + 1, reason := reason);
      ChangeEffect(View(), Op.RecordGTPUError(id, reason), fn);
      r := Update(id, fn);
    }

    method ApplyAccounting(id: SessionID, acct: string) returns (r: Result<Session, StoreError>)
      requires Valid()
      modifies byID.Values
      ensures Valid() && View() == Exec(old(View()), Op.ApplyAccounting(id, acct))
      ensures r == Response(old(View()), Op.ApplyAccounting(id, acct))
    {
      hide Exec, Response, Sound, Changed, ChangedResponse;
      var fn := (s: Session) => s.(acctSessionID := if acct != "" then acct else s.acctSessionID);
      ChangeEffect(View(), Op.ApplyAccounting(id, acct), fn);
      r := Update(id, fn);
    }

    /** Takes the session out of every map, changes its identity and puts it back. */
    method ApplyAuthResult(id: SessionID, imsi: string, msisdn: string, apn: string, reason: string)
      returns (r: Result<Session, StoreError>)
      requires Valid()
      modifies this, byID.Values
      ensures Valid() && byID == old(byID)
      ensures View() == Exec(old(View()), Op.ApplyAuthResult(id, imsi, msisdn, apn, reason))
      ensures r == Response(old(View()), Op.ApplyAuthResult(id, imsi, msisdn, apn, reason))
    {
      hide Sound, Exec, Index, Unindex, PointsInto, Ids, Edited;
      ghost var op := Op.ApplyAuthResult(id, imsi, msisdn, apn, reason);
      ghost var was := View();
      ApplyAuthEffect(was, id, imsi, msisdn, apn, reason);
      if id !in byID {
        return Err(NotFound);
      }
      var c := byID[id];
      if !ValidTransition(c.val.state, Authorized) {
        return Err(InvalidTransition(c.val.state, Authorized));
      }
      HonestCell(c);
      UnindexLocked(c);
      var s := c.val;
      c.val := s.(imsi := if imsi != "" then imsi else s.imsi,
                  msisdn := if msisdn != "" then msisdn else s.msisdn,
                  apn := if apn != "" then apn else s.apn,
                  reason := reason, authenticated := true, authorized := true, state := Authorized);
      assert View().byID == Unindex(was, s).byID;
      IndexLocked(c);
      r := Ok(c.val);
    }

    /** Moves the address pointer of a session from its old address to a new one; with always
        it is entered even when there is no address. */
    method Readdress(c: Cell, s': Session, always: bool)
      requires Linked() && c.id in byID && byID[c.id] == c && s'.id == c.id
      requires forall k :: k in byIP && byIP[k].id == c.id ==> k == c.val.subscriberIP && k != None
      modifies this, c
      ensures Linked() && byID == old(byID) && c.val == s'
      ensures View() == RekeyIP(old(View()), old(c.val), s', always)
    {
      hide PointsInto, Ids, PutIf, DropIf;
      var s := c.val;
      DropPointer(s.subscriberIP != None, byIP, byID, c.id, s.subscriberIP);
      byIP := DropIf(s.subscriberIP != None, byIP, s.subscriberIP);
      c.val := s';
      PutPointer(always || s'.subscriberIP != None, byIP, byID, s'.subscriberIP, c);
      assert byID[c.id := c] == byID;
      byIP := PutIf(always || s'.subscriberIP != None, byIP, s'.subscriberIP, c);
      assert View().byID == old(View()).byID[c.id := s'];
    }

    /** A missing address is entered like any other, which is the one way to leave the indexes
        of the manager in disorder. */
    method SetSubscriberIP(id: SessionID, ip: Option<IPv4>) returns (r: Result<Session, StoreError>)
      requires Valid()
      modifies this, byID.Values
      ensures Linked() && byID == old(byID) && (Valid() <==> !(ip.None? && r.Ok?))
      ensures View() == Exec(old(View()), Op.SetSubscriberIP(id, ip))
      ensures r == Response(old(View()), Op.SetSubscriberIP(id, ip))
    {
      hide Sound, Exec, RekeyIP, PointsInto, Ids, Edited;
      AddressEffect(View(), Op.SetSubscriberIP(id, ip));
      if id !in byID {
        return Err(NotFound);
      }
      var c := byID[id];
      if !ValidTransition(c.val.state, IPAllocated) {
        return Err(InvalidTransition(c.val.state, IPAllocated));
      }
      HonestCell(c);
      Readdress(c, c.val.(subscriberIP := ip, state := IPAllocated), true);
      r := Ok(c.val);
    }

    method UpdateSubscriberIP(id: SessionID, ip: Option<IPv4>) returns (r: Result<Session, StoreError>)
      requires Valid()
      modifies this, byID.Values
      ensures Valid() && byID == old(byID)
      ensures View() == Exec(old(View()), Op.UpdateSubscriberIP(id, ip))
      ensures r == Response(old(View()), Op.UpdateSubscriberIP(id, ip))
    {
      hide Sound, Exec, RekeyIP, PointsInto, Ids, Edited;
      AddressEffect(View(), Op.UpdateSubscriberIP(id, ip));
      if id !in byID {
        return Err(NotFound);
      }
      var c := byID[id];
      HonestCell(c);
      Readdress(c, c.val.(subscriberIP := ip), false);
      r := Ok(c.val);
    }

    /** Moves the TEID pointer of a session from its old control TEID to a new one. */
    method Retunnel(c: Cell, s': Session)
      requires Linked() && c.id in byID && byID[c.id] == c && s'.id == c.id
      requires forall k :: k in byTEID && byTEID[k].id == c.id ==> k == c.val.gtpcTEID != 0
      modifies this, c
      ensures Linked() && byID == old(byID) && c.val == s'
      ensures View() == RekeyTEID(old(View()), old(c.val), s')
    {
      hide PointsInto, Ids, PutIf, DropIf;
      var s := c.val;
      DropPointer(s.gtpcTEID != 0, byTEID, byID, c.id, s.gtpcTEID);
      byTEID := DropIf(s.gtpcTEID != 0, byTEID, s.gtpcTEID);
      c.val := s';
      PutPointer(s'.gtpcTEID != 0, byTEID, byID, s'.gtpcTEID, c);
      assert byID[c.id := c] == byID;
      byTEID := PutIf(s'.gtpcTEID != 0, byTEID, s'.gtpcTEID, c);
      assert View().byID == old(View()).byID[c.id := s'];
    }

    method BindTEIDs(id: SessionID, gtpc: nat, local: nat, remote: nat) returns (r: Result<Session, StoreError>)
      requires Valid()
      modifies this, byID.Values
      ensures Valid() && byID == old(byID)
      ensures View() == Exec(old(View()), Op.BindTEIDs(id, gtpc, local, remote))
      ensures r == Response(old(View()), Op.BindTEIDs(id, gtpc, local, remote))
    {
      hide Sound, Exec, RekeyTEID, PointsInto, Ids, Edited;
      TEIDEffect(View(), Op.BindTEIDs(id, gtpc, local, remote));
      if id !in byID {
        return Err(NotFound);
      }
      var c := byID[id];
      HonestCell(c);
      Retunnel(c, c.val.(gtpcTEID := gtpc, localGTPUTEID := local, remoteGTPUTEID := remote));
      r := Ok(c.val);
    }

    method ApplyPGWResult(id: SessionID, control: Option<IPv4>, user: Option<IPv4>,
                          gtpc: nat, local: nat, remote: nat)
      returns (r: Result<Session, StoreError>)
      requires Valid()
      modifies this, byID.Values
      ensures Valid() && byID == old(byID)
      ensures View() == Exec(old(View()), Op.ApplyPGWResult(id, control, user, gtpc, local, remote))
      ensures r == Response(old(View()), Op.ApplyPGWResult(id, control, user, gtpc, local, remote))
    {
      hide Sound, Exec, RekeyTEID, PointsInto, Ids, Edited;
      TEIDEffect(View(), Op.ApplyPGWResult(id, control, user, gtpc, local, remote));
      if id !in byID {
        return Err(NotFound);
      }
      var c := byID[id];
      HonestCell(c);
      Retunnel(c, c.val.(pgwControlIP := control, pgwUserIP := user,
                         gtpcTEID := gtpc, localGTPUTEID := local, remoteGTPUTEID := remote));
      r := Ok(c.val);
    }

    /** Unindexes a session and marks its record, which callers may still hold, Terminated. */
    method RemoveLocked(c: Cell)
      requires Valid() && c.id in byID && byID[c.id] == c
      modifies this, c
      ensures Linked() && byID == old(byID) - {c.id} && c.val == old(c.val).(state := Terminated)
      ensures View() == Unindex(old(View()), old(c.val))
    {
      hide Sound, Unindex, PointsInto, Ids;
      HonestCell(c);
      UnindexLocked(c);
      label removed:
      c.val := c.val.(state := Terminated);
      assert View() == old@removed(View());
    }

    /** Removes a terminating session; the record handed back is marked Terminated. */
    method Delete(id: SessionID) returns (r: Option<Session>)
      requires Valid()
      modifies this, byID.Values
      ensures Valid() && byID.Values <= old(byID.Values)
      ensures View() == Exec(old(View()), Op.Delete(id))
      ensures r == if Enabled(old(View()), Op.Delete(id)) then Some(old(View()).byID[id].(state := Terminated)) else None
    {
      hide Sound, Exec, Unindex, PointsInto, Ids;
      RemovalEffect(View(), id);
      if id !in byID {
        return None;
      }
      var c := byID[id];
      if !ValidTransition(c.val.state, Terminated) {
        return None;
      }
      RemoveLocked(c);
      r := Some(c.val);
    }

    /** The loop body of ExpireInactive; gone is what earlier rounds removed from was. */
    method ExpireOne(id: SessionID, now: Time, ghost was: Store, ghost gone: set<SessionID>)
      returns (expired: Option<Session>)
      requires Valid() && Sound(was) && gone <= was.byID.Keys && View() == RemoveAll(was, gone) && id in byID
      modifies this, byID.Values
      ensures Valid() && id in was.byID
      ensures byID == if expired.Some? then old(byID) - {id} else old(byID)
      ensures expired == if Expired(was.byID[id], now) then Some(was.byID[id].(state := Terminated)) else None
      ensures View() == RemoveAll(was, if expired.Some? then gone + {id} else gone)
    {
      hide Sound, Unindex, RemoveAll, PointsInto, Ids;
      RemoveAllTable(was, gone);
      var c := byID[id];
      assert id in View().byID && View().byID[id] == c.val;
      if c.val.expiresAt == 0 || now < c.val.expiresAt {
        return None;
      }
      StoredUnderOwnID(was);
      RemoveOneMore(was, gone, id);
      RemoveAllKeepsSound(was, gone + {id});
      RemoveLocked(c);
      expired := Some(c.val);
    }

    /** Removes every session whose lifetime has passed, one after the other. */
    method ExpireInactive(now: Time) returns (expired: set<Session>)
      requires Valid()
      modifies this, byID.Values
      ensures Valid() && byID.Values <= old(byID.Values)
      ensures View() == Exec(old(View()), Op.ExpireInactive(now))
      ensures expired == set id | id in ExpiredSet(old(View()), now) :: old(View()).byID[id].(state := Terminated)
    {
      hide Sound, Exec, RemoveAll, PointsInto, Ids, Linked;
      ghost var was := View();
      ExpiryEffect(was, now);
      expired := {};
      var todo := byID.Keys;
      ghost var gone := {};
      while todo != {}
        invariant todo <= byID.Keys && byID.Values <= old(byID.Values)
        invariant Valid() && gone <= was.byID.Keys && View() == RemoveAll(was, gone)
        invariant gone == set id | id in ExpiredSet(was, now) && id !in todo
        invariant expired == set id | id in gone :: was.byID[id].(state := Terminated)
        decreases todo
      {
        var id :| id in todo;
        var one := ExpireOne(id, now, was, gone);
        todo := todo - {id};
        if one.Some? {
          expired := expired + {one.value};
          gone := gone + {id};
        }
      }
      assert gone == ExpiredSet(was, now);
    }

    method LookupByIMSI(imsi: string) returns (r: Option<Session>)
      requires Valid()
      ensures r == SessionStore.LookupByIMSI(View(), imsi)
    {
      r := if imsi in byIMSI then Some(byIMSI[imsi].val) else None;
    }

    method LookupByMAC(mac: string) returns (r: Option<Session>)
      requires Valid()
      ensures r == SessionStore.LookupByMAC(View(), mac)
    {
      r := if mac in byMAC then Some(byMAC[mac].val) else None;
    }

    method LookupByIP(ip: Option<IPv4>) returns (r: Option<Session>)
      requires Valid()
      ensures r == SessionStore.LookupByIP(View(), ip)
    {
      r := if ip in byIP then Some(byIP[ip].val) else None;
    }

    method LookupByTEID(teid: nat) returns (r: Option<Session>)
      requires Valid()
      ensures r == SessionStore.LookupByTEID(View(), teid)
    {
      r := if teid in byTEID then Some(byTEID[teid].val) else None;
    }
  }
}
