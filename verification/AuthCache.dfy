/** The cache of earlier authorizations: one primary map with lazy expiry and three
    secondary indexes over pointers to the same entries. An entry with an accounting session
    is indexed under four combinations of that session with its NAS. */
module AuthCache {
  import opened Wrappers
  import opened Sessions

  datatype Key = Key(mac: string, imsi: string, apn: string)

  datatype AcctKey = AcctKey(acctSessionID: string, nasIP: string, nasIdentifier: string)

  datatype Value = Value(
    mac: string, imsi: string, apn: string, msisdn: string, nasIP: string, nasIdentifier: string,
    acctSessionID: string, startedAt: Time, expiresAt: Time, lastSeen: Time)

  /** An empty string or a zero time leaves the field of the entry as it is. */
  datatype Update = Update(
    mac: string, imsi: string, apn: string, msisdn: string, nasIP: string, nasIdentifier: string,
    acctSessionID: string, startedAt: Time, expiresAt: Time, lastSeen: Time)

  function CacheKey(mac: string, imsi: string, apn: string): Key {
    Key(mac, imsi, Lower(apn))
  }

  function KeyOf(v: Value): Key {
    CacheKey(v.mac, v.imsi, v.apn)
  }

  function Fallbacks(acct: string, nasIP: string, nasIdentifier: string): seq<AcctKey> {
    [AcctKey(acct, nasIP, nasIdentifier), AcctKey(acct, nasIP, ""), AcctKey(acct, "", nasIdentifier), AcctKey(acct, "", "")]
  }

  /** The accounting keys an entry owns. */
  function AcctKeys(v: Value): set<AcctKey> {
    if v.acctSessionID == "" then {}
    else set k | k in Fallbacks(v.acctSessionID, v.nasIP, v.nasIdentifier)
  }

  predicate Expired(v: Value, now: Time) {
    v.expiresAt != 0 && v.expiresAt <= now
  }

  predicate CompatibleAPN(v: Value, apn: string) {
    apn == "" || v.apn == "" || SameAPN(v.apn, apn)
  }

  function NewValue(mac: string, imsi: string, apn: string, now: Time): Value {
    Value(mac, imsi, apn, "", "", "", "", now, 0, 0)
  }

  function Or(a: string, b: string): string {
    if a != "" then a else b
  }

  function OrTime(a: Time, b: Time): Time {
    if a != 0 then a else b
  }

  function Merged(v: Value, u: Update, now: Time): (r: Value)
    ensures KeyOf(r) == KeyOf(v)
  {
    v.(msisdn := Or(u.msisdn, v.msisdn), nasIP := Or(u.nasIP, v.nasIP),
       nasIdentifier := Or(u.nasIdentifier, v.nasIdentifier), acctSessionID := Or(u.acctSessionID, v.acctSessionID),
       startedAt := OrTime(u.startedAt, v.startedAt), expiresAt := OrTime(u.expiresAt, v.expiresAt),
       lastSeen := OrTime(u.lastSeen, now))
  }

  /** The cache as a value: a pointer to an entry is the key the entry sits under. */
  datatype Store = Store(
    byKey: map<Key, Value>, byMAC: map<string, Key>, byIMSI: map<string, Key>, byAcct: map<AcctKey, Key>)

  const Empty: Store := Store(map[], map[], map[], map[])

  function FanOut<T>(v: Value, target: T): map<AcctKey, T> {
    map a | a in AcctKeys(v) :: target
  }

  function Index(st: Store, v: Value): Store {
    Store(st.byKey[KeyOf(v) := v], st.byMAC[v.mac := KeyOf(v)], st.byIMSI[v.imsi := KeyOf(v)],
          st.byAcct + FanOut(v, KeyOf(v)))
  }

  /** Removal deletes the keys of the entry without asking whose they are. */
  function Unindex(st: Store, v: Value): Store {
    Store(st.byKey - {KeyOf(v)}, st.byMAC - {v.mac}, st.byIMSI - {v.imsi}, st.byAcct - AcctKeys(v))
  }

  /** The entry an update leaves: what the plain map had for its key, or a new one, merged. */
  function Upserted(plain: map<Key, Value>, u: Update, now: Time): (r: Value)
    requires forall k :: k in plain ==> KeyOf(plain[k]) == k
    ensures KeyOf(r) == CacheKey(u.mac, u.imsi, u.apn)
  {
    var k := CacheKey(u.mac, u.imsi, u.apn);
    Merged(if k in plain then plain[k] else NewValue(u.mac, u.imsi, u.apn, now), u, now)
  }

  function Upsert(st: Store, u: Update, now: Time): Store
    requires Sound(st)
  {
    var k := CacheKey(u.mac, u.imsi, u.apn);
    if u.mac == "" || u.imsi == "" then st
    else Index(if k in st.byKey then Unindex(st, st.byKey[k]) else st, Upserted(st.byKey, u, now))
  }

  /** An entry under a key unless it has expired; an expired one is dropped on the way. */
  function Fetch(st: Store, k: Key, now: Time): (Store, Option<Value>)
    requires k in st.byKey
  {
    if Expired(st.byKey[k], now) then (Unindex(st, st.byKey[k]), None) else (st, Some(st.byKey[k]))
  }

  /** Where a lookup finds its candidate: both identities, then without APN, then either. */
  function Candidate(st: Store, mac: string, imsi: string, apn: string): Option<Key> {
    if mac != "" && imsi != "" && CacheKey(mac, imsi, apn) in st.byKey then Some(CacheKey(mac, imsi, apn))
    else if mac != "" && imsi != "" && CacheKey(mac, imsi, "") in st.byKey then Some(CacheKey(mac, imsi, ""))
    else if mac != "" && mac in st.byMAC then Some(st.byMAC[mac])
    else if imsi != "" && imsi in st.byIMSI then Some(st.byIMSI[imsi])
    else None
  }

  function LookupValid(st: Store, mac: string, imsi: string, apn: string, now: Time): (Store, Option<Value>)
    requires Sound(st)
  {
    match Candidate(st, mac, imsi, apn)
    case None => (st, None)
    case Some(k) =>
      var (st', v) := Fetch(st, k, now);
      (st', if v.Some? && CompatibleAPN(v.value, apn) then v else None)
  }

  /** The first live entry under a list of accounting keys. */
  function LookupByKeys(st: Store, keys: seq<AcctKey>, now: Time): (Store, Option<Value>)
    requires Sound(st)
    decreases |keys|
  {
    if keys == [] then (st, None)
    else if keys[0] !in st.byAcct then LookupByKeys(st, keys[1..], now)
    else
      var (st', v) := Fetch(st, st.byAcct[keys[0]], now);
      UnindexKeepsSound(st, st.byAcct[keys[0]]);
      if v.Some? then (st', v) else LookupByKeys(st', keys[1..], now)
  }

  function LookupByAcct(st: Store, acct: string, nasIP: string, nasIdentifier: string, now: Time): (Store, Option<Value>)
    requires Sound(st)
  {
    if acct == "" then (st, None) else LookupByKeys(st, Fallbacks(acct, nasIP, nasIdentifier), now)
  }

  function DeleteTarget(st: Store, mac: string, imsi: string, apn: string): Option<Key> {
    if CacheKey(mac, imsi, apn) in st.byKey then Some(CacheKey(mac, imsi, apn))
    else if mac != "" && mac in st.byMAC then Some(st.byMAC[mac])
    else None
  }

  function Delete(st: Store, mac: string, imsi: string, apn: string): Store
    requires Sound(st)
  {
    match DeleteTarget(st, mac, imsi, apn)
    case None => st
    case Some(k) => Unindex(st, st.byKey[k])
  }

  /** Every entry sits under its own key, and every secondary entry leads to an entry of the
      primary map that owns the key it is found under. */
  predicate Sound(st: Store) {
    && (forall k :: k in st.byKey ==> KeyOf(st.byKey[k]) == k && k.mac != "" && k.imsi != "")
    && (forall m :: m in st.byMAC ==> st.byMAC[m] in st.byKey && st.byMAC[m].mac == m)
    && (forall i :: i in st.byIMSI ==> st.byIMSI[i] in st.byKey && st.byIMSI[i].imsi == i)
    && (forall a :: a in st.byAcct ==> st.byAcct[a] in st.byKey && a in AcctKeys(st.byKey[st.byAcct[a]]))
  }

  predicate Indexed(st: Store, v: Value) {
    && v.mac in st.byMAC && st.byMAC[v.mac] == KeyOf(v)
    && v.imsi in st.byIMSI && st.byIMSI[v.imsi] == KeyOf(v)
    && forall a :: a in AcctKeys(v) ==> a in st.byAcct && st.byAcct[a] == KeyOf(v)
  }

  /** Every entry is found under every key it owns. */
  predicate Complete(st: Store) {
    forall k :: k in st.byKey ==> Indexed(st, st.byKey[k])
  }

  predicate SharesIndexKey(a: Value, b: Value) {
    a.mac == b.mac || a.imsi == b.imsi || exists k :: k in AcctKeys(a) && k in AcctKeys(b)
  }

  /** No entry other than the one under v's own key has one of v's index keys. */
  predicate KeysFree(st: Store, v: Value) {
    forall k :: k in st.byKey && k != KeyOf(v) ==> !SharesIndexKey(st.byKey[k], v)
  }

  lemma UnindexKeepsSound(st: Store, k: Key)
    requires Sound(st) && k in st.byKey
    ensures Sound(Unindex(st, st.byKey[k])) && Unindex(st, st.byKey[k]).byKey == st.byKey - {k}
  {
  }

  lemma IndexKeepsSound(st: Store, v: Value)
    requires Sound(st) && KeyOf(v) !in st.byKey && v.mac != "" && v.imsi != ""
    ensures Sound(Index(st, v))
  {
  }

  lemma SoundKeys(st: Store)
    requires Sound(st)
    ensures forall k :: k in st.byKey ==> KeyOf(st.byKey[k]) == k && st.byKey[k].mac != "" && st.byKey[k].imsi != ""
  {
  }

  lemma NewlyIndexed(st: Store, v: Value)
    ensures Indexed(Index(st, v), v)
  {
  }

  /** An update changes the primary map at its own key only, and leaves every entry findable
      under every key it has now, also when the accounting session or the NAS changed. */
  lemma UpsertRefines(st: Store, u: Update, now: Time)
    requires Sound(st)
    ensures Sound(Upsert(st, u, now))
    ensures Upsert(st, u, now).byKey ==
            if u.mac == "" || u.imsi == "" then st.byKey
            else st.byKey[CacheKey(u.mac, u.imsi, u.apn) := Upserted(st.byKey, u, now)]
    ensures u.mac != "" && u.imsi != "" ==> Indexed(Upsert(st, u, now), Upserted(st.byKey, u, now))
  {
    hide Sound, AcctKeys, Merged, Upserted;
    var k := CacheKey(u.mac, u.imsi, u.apn);
    SoundKeys(st);
    if u.mac != "" && u.imsi != "" {
      if k in st.byKey {
        UnindexKeepsSound(st, k);
        IndexKeepsSound(Unindex(st, st.byKey[k]), Upserted(st.byKey, u, now));
        NewlyIndexed(Unindex(st, st.byKey[k]), Upserted(st.byKey, u, now));
        assert (st.byKey - {k})[k := Upserted(st.byKey, u, now)] == st.byKey[k := Upserted(st.byKey, u, now)];
      } else {
        IndexKeepsSound(st, Upserted(st.byKey, u, now));
        NewlyIndexed(st, Upserted(st.byKey, u, now));
      }
    }
  }

  lemma UnindexKeepsComplete(st: Store, k: Key)
    requires Sound(st) && Complete(st) && k in st.byKey
    ensures Complete(Unindex(st, st.byKey[k])) && KeysFree(st, st.byKey[k])
  {
    var v := st.byKey[k];
    forall l | l in st.byKey && l != k ensures !SharesIndexKey(st.byKey[l], v) {
      assert Indexed(st, v) && Indexed(st, st.byKey[l]);
    }
    var st' := Unindex(st, v);
    forall l | l in st'.byKey ensures Indexed(st', st'.byKey[l]) {
      assert Indexed(st, st.byKey[l]) && !SharesIndexKey(st.byKey[l], v);
    }
  }

  lemma IndexedBeside(st: Store, v: Value, w: Value)
    requires KeyOf(w) != KeyOf(v)
    ensures Indexed(Index(st, v), w) <==> Indexed(st, w) && !SharesIndexKey(w, v)
  {
    hide AcctKeys;
    var st' := Index(st, v);
    if Indexed(st', w) {
      forall a | a in AcctKeys(w) ensures a !in AcctKeys(v) && a in st.byAcct && st.byAcct[a] == KeyOf(w) {
        assert a in st'.byAcct && st'.byAcct[a] == KeyOf(w);
      }
    }
  }

  lemma IndexCompleteIff(st: Store, v: Value)
    requires Sound(st) && Complete(st) && KeyOf(v) !in st.byKey
    ensures Complete(Index(st, v)) <==> KeysFree(st, v)
  {
    hide AcctKeys, Indexed, SharesIndexKey, Sound;
    SoundKeys(st);
    NewlyIndexed(st, v);
    var st' := Index(st, v);
    forall k | k in st.byKey
      ensures st'.byKey[k] == st.byKey[k] && (Indexed(st', st'.byKey[k]) <==> !SharesIndexKey(st.byKey[k], v))
    {
      assert Indexed(st, st.byKey[k]);
      IndexedBeside(st, v, st.byKey[k]);
    }
  }

  /** Every entry stays findable under all its keys exactly when the update takes no key from
      another entry. */
  lemma UpsertCompleteIff(st: Store, u: Update, now: Time)
    requires Sound(st) && Complete(st) && u.mac != "" && u.imsi != ""
    ensures Complete(Upsert(st, u, now)) <==> KeysFree(st, Upserted(st.byKey, u, now))
  {
    hide Sound, AcctKeys, Merged, Upserted, Complete, Indexed, SharesIndexKey;
    SoundKeys(st);
    var k := CacheKey(u.mac, u.imsi, u.apn);
    var v := Upserted(st.byKey, u, now);
    if k in st.byKey {
      UnindexKeepsSound(st, k);
      UnindexKeepsComplete(st, k);
      IndexCompleteIff(Unindex(st, st.byKey[k]), v);
      assert KeysFree(Unindex(st, st.byKey[k]), v) <==> KeysFree(st, v);
    } else {
      IndexCompleteIff(st, v);
    }
  }

  /** What a lookup answers: an entry that was in the primary map, not expired, compatible
      with the APN asked for and sharing the MAC or the IMSI. The map loses at most an entry
      that has expired. */
  lemma LookupValidIsHonest(st: Store, mac: string, imsi: string, apn: string, now: Time)
    requires Sound(st)
    ensures var (st', r) := LookupValid(st, mac, imsi, apn, now);
            && Sound(st')
            && (r.Some? ==> KeyOf(r.value) in st.byKey && st.byKey[KeyOf(r.value)] == r.value && st' == st)
            && (r.Some? ==> !Expired(r.value, now) && CompatibleAPN(r.value, apn))
            && (r.Some? ==> (mac != "" && r.value.mac == mac) || (imsi != "" && r.value.imsi == imsi))
            && (forall k :: k in st'.byKey ==> k in st.byKey && st'.byKey[k] == st.byKey[k])
            && (forall k :: k in st.byKey && k !in st'.byKey ==> Expired(st.byKey[k], now))
    ensures mac != "" && imsi != "" && CacheKey(mac, imsi, apn) in st.byKey ==>
              LookupValid(st, mac, imsi, apn, now).1 ==
              var v := st.byKey[CacheKey(mac, imsi, apn)];
              if Expired(v, now) then None else Some(v)
  {
    var c := Candidate(st, mac, imsi, apn);
    if c.Some? {
      UnindexKeepsSound(st, c.value);
    }
  }

  lemma OwnerOfKey(st: Store, a: AcctKey)
    requires Sound(st)
    ensures a in st.byAcct ==>
              && st.byAcct[a] in st.byKey && a in AcctKeys(st.byKey[st.byAcct[a]])
              && KeyOf(st.byKey[st.byAcct[a]]) == st.byAcct[a]
    ensures Complete(st) ==> forall k :: k in st.byKey && a in AcctKeys(st.byKey[k]) ==> a in st.byAcct && st.byAcct[a] == k
  {
    hide AcctKeys;
    forall k | Complete(st) && k in st.byKey && a in AcctKeys(st.byKey[k]) ensures a in st.byAcct && st.byAcct[a] == k {
      assert Indexed(st, st.byKey[k]);
    }
  }

  /** The same for lookups by accounting session, which drop every expired entry they meet. */
  lemma {:induction false} LookupByKeysIsHonest(st: Store, keys: seq<AcctKey>, now: Time)
    requires Sound(st)
    ensures var (st', r) := LookupByKeys(st, keys, now);
            && Sound(st')
            && (r.Some? ==> KeyOf(r.value) in st.byKey && st.byKey[KeyOf(r.value)] == r.value && !Expired(r.value, now))
            && (r.Some? ==> exists a :: a in keys && a in AcctKeys(r.value))
            && (forall k :: k in st'.byKey ==> k in st.byKey && st'.byKey[k] == st.byKey[k])
            && (forall k :: k in st.byKey && k !in st'.byKey ==> Expired(st.byKey[k], now))
            && (Complete(st) ==> Complete(st'))
            && (Complete(st) && r.None? ==>
                  forall k, a :: k in st.byKey && a in keys && a in AcctKeys(st.byKey[k]) ==> Expired(st.byKey[k], now))
    decreases |keys|
  {
    hide AcctKeys, Complete, Sound, Unindex;
    if keys != [] {
      OwnerOfKey(st, keys[0]);
      assert keys == [keys[0]] + keys[1..];
    }
    if keys != [] && keys[0] in st.byAcct {
      var k := st.byAcct[keys[0]];
      UnindexKeepsSound(st, k);
      if Expired(st.byKey[k], now) {
        var st' := Unindex(st, st.byKey[k]);
        LookupByKeysIsHonest(st', keys[1..], now);
        if Complete(st) {
          UnindexKeepsComplete(st, k);
        }
      }
    } else if keys != [] {
      LookupByKeysIsHonest(st, keys[1..], now);
    }
  }

  /** An expired entry found under its full accounting key takes all four keys with it, so the
      lookup fails even when another, live entry had been found under one of the others. */
  lemma ExpiredEntryHidesOthers(st: Store, acct: string, nasIP: string, nasIdentifier: string, now: Time)
    requires Sound(st) && acct != "" && AcctKey(acct, nasIP, nasIdentifier) in st.byAcct
    requires var v := st.byKey[st.byAcct[AcctKey(acct, nasIP, nasIdentifier)]];
             Expired(v, now) && v.acctSessionID == acct && v.nasIP == nasIP && v.nasIdentifier == nasIdentifier
    ensures LookupByAcct(st, acct, nasIP, nasIdentifier, now).1 == None
  {
    var keys := Fallbacks(acct, nasIP, nasIdentifier);
    var k := st.byAcct[keys[0]];
    UnindexKeepsSound(st, k);
    var st' := Unindex(st, st.byKey[k]);
    forall i | 0 <= i < 4 ensures keys[i] !in st'.byAcct {
      assert keys[i] in keys;
    }
    assert keys[1..][0] == keys[1] && keys[1..][1..][0] == keys[2] && keys[1..][1..][1..][0] == keys[3];
    NothingUnder(st', keys[1..], now);
  }

  lemma {:induction false} NothingUnder(st: Store, keys: seq<AcctKey>, now: Time)
    requires Sound(st) && forall a :: a in keys ==> a !in st.byAcct
    ensures LookupByKeys(st, keys, now) == (st, None)
    decreases |keys|
  {
    if keys != [] {
      assert keys[0] in keys;
      NothingUnder(st, keys[1..], now);
    }
  }

  // --- what updates, lookups and deletions mean for the fields ---

  /** An update field by field: what it names is in the entry afterwards, whatever was there;
      what it leaves empty stays; a new entry starts now and never expires; and an update that
      does not say when the client was seen means now. */
  lemma UpsertFields(st: Store, u: Update, now: Time)
    requires Sound(st) && u.mac != "" && u.imsi != ""
    ensures var k := CacheKey(u.mac, u.imsi, u.apn);
            k in Upsert(st, u, now).byKey &&
            var e := Upsert(st, u, now).byKey[k];
            && e.mac == u.mac && e.imsi == u.imsi && Lower(e.apn) == Lower(u.apn)
            && (u.msisdn != "" ==> e.msisdn == u.msisdn)
            && (u.nasIP != "" ==> e.nasIP == u.nasIP)
            && (u.nasIdentifier != "" ==> e.nasIdentifier == u.nasIdentifier)
            && (u.acctSessionID != "" ==> e.acctSessionID == u.acctSessionID)
            && (u.startedAt != 0 ==> e.startedAt == u.startedAt)
            && (u.expiresAt != 0 ==> e.expiresAt == u.expiresAt)
            && e.lastSeen == (if u.lastSeen != 0 then u.lastSeen else now)
            && (k in st.byKey ==>
                  var v := st.byKey[k];
                  && e.apn == v.apn
                  && (u.msisdn == "" ==> e.msisdn == v.msisdn)
                  && (u.nasIP == "" ==> e.nasIP == v.nasIP)
                  && (u.nasIdentifier == "" ==> e.nasIdentifier == v.nasIdentifier)
                  && (u.acctSessionID == "" ==> e.acctSessionID == v.acctSessionID)
                  && (u.startedAt == 0 ==> e.startedAt == v.startedAt)
                  && (u.expiresAt == 0 ==> e.expiresAt == v.expiresAt))
            && (k !in st.byKey ==>
                  && e.apn == u.apn && (u.startedAt == 0 ==> e.startedAt == now)
                  && e.msisdn == u.msisdn && e.nasIP == u.nasIP && e.nasIdentifier == u.nasIdentifier
                  && e.acctSessionID == u.acctSessionID && e.expiresAt == u.expiresAt)
    ensures forall k :: k != CacheKey(u.mac, u.imsi, u.apn) ==>
              (k in Upsert(st, u, now).byKey <==> k in st.byKey)
              && (k in st.byKey ==> Upsert(st, u, now).byKey[k] == st.byKey[k])
  {
    hide AcctKeys, Lower;
    UpsertRefines(st, u, now);
  }

  /** A re-authentication renews the entry: until the new expiry the lookup under its identity
      finds it, with the new values, however soon the entry before had been due to expire. */
  lemma RenewedEntryIsFound(st: Store, u: Update, at: Time, now: Time)
    requires Sound(st) && u.mac != "" && u.imsi != "" && u.expiresAt != 0 && now < u.expiresAt
    ensures Sound(Upsert(st, u, at))
    ensures var r := LookupValid(Upsert(st, u, at), u.mac, u.imsi, u.apn, now);
            && r.0 == Upsert(st, u, at) && r.1.Some?
            && r.1.value.mac == u.mac && r.1.value.imsi == u.imsi && r.1.value.expiresAt == u.expiresAt
            && (u.msisdn != "" ==> r.1.value.msisdn == u.msisdn)
  {
    hide AcctKeys, Sound, Upsert;
    UpsertRefines(st, u, at);
    UpsertFields(st, u, at);
    LookupValidIsHonest(Upsert(st, u, at), u.mac, u.imsi, u.apn, now);
  }

  /** Which entry a lookup looks at: the one under both identities and the APN, then the one
      without an APN, then the one of the MAC address, then the one of the IMSI; and what it
      answers about that entry. An earlier one decides even when it turns out useless. */
  lemma LookupOrder(st: Store, mac: string, imsi: string, apn: string, now: Time)
    requires Sound(st)
    ensures var r := LookupValid(st, mac, imsi, apn, now).1;
            var exact, bare := Key(mac, imsi, Lower(apn)), Key(mac, imsi, "");
            var both := mac != "" && imsi != "";
            if both && exact in st.byKey then r == Judged(st.byKey[exact], apn, now)
            else if both && bare in st.byKey then r == Judged(st.byKey[bare], apn, now)
            else if mac != "" && mac in st.byMAC then r == Judged(st.byKey[st.byMAC[mac]], apn, now)
            else if imsi != "" && imsi in st.byIMSI then r == Judged(st.byKey[st.byIMSI[imsi]], apn, now)
            else r == None
  {
    hide AcctKeys;
    assert Lower("") == "";
  }

  /** An entry counts unless its time is over, or both APNs are there and differ. */
  function Judged(v: Value, apn: string, now: Time): Option<Value> {
    if (v.expiresAt != 0 && v.expiresAt <= now) || (apn != "" && v.apn != "" && Lower(v.apn) != Lower(apn)) then None
    else Some(v)
  }

  /** In complete caches the lookup misses nobody: a failure means that no entry has this MAC
      address or IMSI, or that the entry it looked at has expired or is for another APN. */
  lemma LookupMissesNobody(st: Store, mac: string, imsi: string, apn: string, now: Time)
    requires Sound(st) && Complete(st) && LookupValid(st, mac, imsi, apn, now).1 == None
    ensures || (forall k :: k in st.byKey ==> (mac == "" || st.byKey[k].mac != mac) && (imsi == "" || st.byKey[k].imsi != imsi))
            || exists k :: k in st.byKey && (st.byKey[k].mac == mac || st.byKey[k].imsi == imsi)
                           && Judged(st.byKey[k], apn, now) == None
  {
    hide AcctKeys, Judged;
    LookupOrder(st, mac, imsi, apn, now);
    var c := Candidate(st, mac, imsi, apn);
    if c.Some? {
      assert Judged(st.byKey[c.value], apn, now) == None by {
        JudgedAsLookup(st, c.value, apn, now);
      }
    } else {
      forall k | k in st.byKey ensures (mac == "" || st.byKey[k].mac != mac) && (imsi == "" || st.byKey[k].imsi != imsi) {
        assert Indexed(st, st.byKey[k]);
      }
    }
  }

  lemma JudgedAsLookup(st: Store, k: Key, apn: string, now: Time)
    requires k in st.byKey
    ensures Judged(st.byKey[k], apn, now) ==
            if Fetch(st, k, now).1.Some? && CompatibleAPN(st.byKey[k], apn) then Some(st.byKey[k]) else None
  {
  }

  /** The accounting keys of an entry: its session, with or without each half of its NAS. */
  lemma AcctKeysAre(v: Value, k: AcctKey)
    ensures k in AcctKeys(v) <==>
            && v.acctSessionID != "" && k.acctSessionID == v.acctSessionID
            && (k.nasIP == v.nasIP || k.nasIP == "") && (k.nasIdentifier == v.nasIdentifier || k.nasIdentifier == "")
  {
    var keys := Fallbacks(v.acctSessionID, v.nasIP, v.nasIdentifier);
    assert keys[0] in keys && keys[1] in keys && keys[2] in keys && keys[3] in keys;
  }

  /** A lookup by accounting session tries the full key first, then without the identifier, then
      without the address, then the session alone: the first live entry is the answer when the
      keys before it lead nowhere. */
  lemma AcctOrder(st: Store, acct: string, nasIP: string, nasIdentifier: string, now: Time, j: nat)
    requires Sound(st) && acct != "" && j < 4
    requires var keys := [AcctKey(acct, nasIP, nasIdentifier), AcctKey(acct, nasIP, ""), AcctKey(acct, "", nasIdentifier),
                          AcctKey(acct, "", "")];
             && (forall i :: 0 <= i < j ==> keys[i] !in st.byAcct)
             && keys[j] in st.byAcct && (st.byKey[st.byAcct[keys[j]]].expiresAt == 0 || now < st.byKey[st.byAcct[keys[j]]].expiresAt)
    ensures var keys := [AcctKey(acct, nasIP, nasIdentifier), AcctKey(acct, nasIP, ""), AcctKey(acct, "", nasIdentifier),
                         AcctKey(acct, "", "")];
            LookupByAcct(st, acct, nasIP, nasIdentifier, now) == (st, Some(st.byKey[st.byAcct[keys[j]]]))
  {
    hide AcctKeys;
    FirstLive(st, [AcctKey(acct, nasIP, nasIdentifier), AcctKey(acct, nasIP, ""), AcctKey(acct, "", nasIdentifier),
                   AcctKey(acct, "", "")], now, j);
  }

  lemma {:induction false} FirstLive(st: Store, keys: seq<AcctKey>, now: Time, j: nat)
    requires Sound(st) && j < |keys| && (forall i :: 0 <= i < j ==> keys[i] !in st.byAcct)
    requires keys[j] in st.byAcct && !Expired(st.byKey[st.byAcct[keys[j]]], now)
    ensures LookupByKeys(st, keys, now) == (st, Some(st.byKey[st.byAcct[keys[j]]]))
    decreases j
  {
    hide AcctKeys;
    if j > 0 {
      assert keys[1..][j - 1] == keys[j];
      FirstLive(st, keys[1..], now, j - 1);
    }
  }

  /** A deletion drops the entry under both identities and the APN, else the one of the MAC
      address, and nothing else. */
  lemma DeleteDrops(st: Store, mac: string, imsi: string, apn: string)
    requires Sound(st)
    ensures var plain := Delete(st, mac, imsi, apn).byKey;
            var exact := Key(mac, imsi, Lower(apn));
            if exact in st.byKey then plain == st.byKey - {exact}
            else if mac != "" && mac in st.byMAC then plain == st.byKey - {st.byMAC[mac]}
            else plain == st.byKey
  {
    hide AcctKeys;
    if DeleteTarget(st, mac, imsi, apn).Some? {
      UnindexKeepsSound(st, DeleteTarget(st, mac, imsi, apn).value);
    }
  }

  // --- when a live entry is hidden ---

  function Owner(st: Store, a: AcctKey): Value
    requires Sound(st) && a in st.byAcct
  {
    st.byKey[st.byAcct[a]]
  }

  predicate OwnedLive(st: Store, a: AcctKey, now: Time)
    requires Sound(st)
  {
    a in st.byAcct && !Expired(Owner(st, a), now)
  }

  /** The lookup, were it to go through all the keys, still finds something under the i-th. */
  predicate Met(st: Store, keys: seq<AcctKey>, i: nat, now: Time): (r: bool)
    requires Sound(st)
    ensures r ==> i < |keys| && keys[i] in st.byAcct
    decreases i, 0
  {
    i < |keys| && keys[i] in st.byAcct && forall h: nat :: h < i ==> !Takes(st, keys, h, i, now)
  }

  /** An expired entry that is met under the h-th key is dropped, and the i-th key with it. */
  predicate Takes(st: Store, keys: seq<AcctKey>, h: nat, i: nat, now: Time)
    requires Sound(st) && i < |keys| && h < i
    decreases h, 1
  {
    Met(st, keys, h, now) && Expired(Owner(st, keys[h]), now) && keys[i] in AcctKeys(Owner(st, keys[h]))
  }

  lemma OwnersAfter(st: Store, k: Key, a: AcctKey)
    requires Sound(st) && k in st.byKey
    ensures var st' := Unindex(st, st.byKey[k]);
            && Sound(st') && (a in st'.byAcct <==> a in st.byAcct && a !in AcctKeys(st.byKey[k]))
            && (a in st'.byAcct ==> Owner(st', a) == Owner(st, a))
  {
    UnindexKeepsSound(st, k);
  }

  /** What is met after the first key, when that one leads nowhere. */
  lemma {:induction false} MetWithoutFirst(st: Store, keys: seq<AcctKey>, i: nat, now: Time)
    requires Sound(st) && keys != [] && keys[0] !in st.byAcct
    ensures Met(st, keys, i + 1, now) <==> Met(st, keys[1..], i, now)
    decreases i
  {
    hide AcctKeys, Sound;
    forall h: nat | h < i ensures Met(st, keys, h + 1, now) <==> Met(st, keys[1..], h, now) {
      MetWithoutFirst(st, keys, h, now);
    }
    if i < |keys[1..]| {
      var m := i + 1;
      assert keys[1..][i] == keys[m];
      forall h: nat | h < i ensures Takes(st, keys, h + 1, m, now) <==> Takes(st, keys[1..], h, i, now) {
        assert keys[1..][h] == keys[h + 1];
      }
      forall h: nat | h < m && Met(st, keys[1..], i, now) ensures !Takes(st, keys, h, m, now) {
        if h > 0 {
          assert !Takes(st, keys[1..], h - 1, i, now);
        }
      }
    }
  }

  /** What is met after the first key, when that one led to an expired entry. */
  lemma {:induction false} MetAfterExpired(st: Store, keys: seq<AcctKey>, i: nat, now: Time)
    requires Sound(st) && keys != [] && keys[0] in st.byAcct && Expired(Owner(st, keys[0]), now)
    requires Sound(Unindex(st, Owner(st, keys[0])))
    ensures Met(st, keys, i + 1, now) <==> Met(Unindex(st, Owner(st, keys[0])), keys[1..], i, now)
    decreases i
  {
    hide AcctKeys, Sound, Unindex;
    var st' := Unindex(st, Owner(st, keys[0]));
    assert Met(st, keys, 0, now);
    if i < |keys[1..]| {
      var m := i + 1;
      assert keys[1..][i] == keys[m];
      OwnerOfKey(st, keys[0]);
      OwnersAfter(st, st.byAcct[keys[0]], keys[m]);
      assert Takes(st, keys, 0, m, now) <==> keys[m] in AcctKeys(Owner(st, keys[0]));
      forall h: nat | h < i ensures Takes(st, keys, h + 1, m, now) <==> Takes(st', keys[1..], h, i, now) {
        assert keys[1..][h] == keys[h + 1];
        MetAfterExpired(st, keys, h, now);
        OwnersAfter(st, st.byAcct[keys[0]], keys[h + 1]);
      }
      forall h: nat | h < m && Met(st', keys[1..], i, now) ensures !Takes(st, keys, h, m, now) {
        if h > 0 {
          assert !Takes(st', keys[1..], h - 1, i, now);
        }
      }
    }
  }

  predicate MetLive(st: Store, keys: seq<AcctKey>, i: nat, now: Time)
    requires Sound(st)
  {
    Met(st, keys, i, now) && !Expired(Owner(st, keys[i]), now)
  }

  lemma MetLiveWithoutFirst(st: Store, keys: seq<AcctKey>, i: nat, now: Time)
    requires Sound(st) && keys != [] && keys[0] !in st.byAcct
    ensures MetLive(st, keys, i + 1, now) <==> MetLive(st, keys[1..], i, now)
    ensures !MetLive(st, keys, 0, now)
  {
    hide Sound, AcctKeys;
    MetWithoutFirst(st, keys, i, now);
  }

  lemma MetLiveAfterExpired(st: Store, keys: seq<AcctKey>, i: nat, now: Time)
    requires Sound(st) && keys != [] && keys[0] in st.byAcct && Expired(Owner(st, keys[0]), now)
    requires Sound(Unindex(st, Owner(st, keys[0])))
    ensures MetLive(st, keys, i + 1, now) <==> MetLive(Unindex(st, Owner(st, keys[0])), keys[1..], i, now)
    ensures !MetLive(st, keys, 0, now)
  {
    hide Sound, AcctKeys, Unindex;
    MetAfterExpired(st, keys, i, now);
    if i < |keys[1..]| {
      OwnerOfKey(st, keys[0]);
      OwnersAfter(st, st.byAcct[keys[0]], keys[i + 1]);
    }
  }

  /** A lookup fails exactly when every entry it meets has expired. */
  lemma {:induction false} LookupFailsIff(st: Store, keys: seq<AcctKey>, now: Time)
    requires Sound(st)
    ensures LookupByKeys(st, keys, now).1 == None <==> forall i: nat :: !MetLive(st, keys, i, now)
    decreases |keys|
  {
    hide AcctKeys, Sound, Unindex, Met;
    if keys != [] && keys[0] !in st.byAcct {
      LookupFailsIff(st, keys[1..], now);
      MetLiveWithoutFirst(st, keys, 0, now);
      forall i: nat ensures MetLive(st, keys, i + 1, now) <==> MetLive(st, keys[1..], i, now) {
        MetLiveWithoutFirst(st, keys, i, now);
      }
      Shifted(st, st, keys, now);
    } else if keys != [] {
      OwnerOfKey(st, keys[0]);
      UnindexKeepsSound(st, st.byAcct[keys[0]]);
      if Expired(Owner(st, keys[0]), now) {
        var st' := Unindex(st, Owner(st, keys[0]));
        LookupFailsIff(st', keys[1..], now);
        MetLiveAfterExpired(st, keys, 0, now);
        forall i: nat ensures MetLive(st, keys, i + 1, now) <==> MetLive(st', keys[1..], i, now) {
          MetLiveAfterExpired(st, keys, i, now);
        }
        Shifted(st, st', keys, now);
      } else {
        FirstIsLive(st, keys, now);
      }
    }
  }

  lemma FirstIsLive(st: Store, keys: seq<AcctKey>, now: Time)
    requires Sound(st) && keys != [] && OwnedLive(st, keys[0], now)
    ensures MetLive(st, keys, 0, now)
  {
  }

  lemma Shifted(st: Store, st': Store, keys: seq<AcctKey>, now: Time)
    requires Sound(st) && Sound(st') && keys != [] && !MetLive(st, keys, 0, now)
    requires forall i: nat :: MetLive(st, keys, i + 1, now) <==> MetLive(st', keys[1..], i, now)
    ensures (forall i: nat :: !MetLive(st, keys, i, now)) <==> (forall i: nat :: !MetLive(st', keys[1..], i, now))
  {
    hide Sound, MetLive;
    if forall i: nat :: !MetLive(st', keys[1..], i, now) {
      forall i: nat ensures !MetLive(st, keys, i, now) {
        if i > 0 {
          assert !MetLive(st', keys[1..], i - 1, now);
        }
      }
    }
    forall i: nat | MetLive(st', keys[1..], i, now) ensures MetLive(st, keys, i + 1, now) {
    }
  }

  /** An earlier key leads to an expired entry that is met, and owns the j-th key as well. */
  predicate Shadowed(st: Store, keys: seq<AcctKey>, j: nat, now: Time)
    requires Sound(st) && j < |keys|
  {
    exists h: nat :: h < j && Takes(st, keys, h, j, now)
  }

  lemma MetUnlessShadowed(st: Store, keys: seq<AcctKey>, j: nat, now: Time)
    requires Sound(st) && j < |keys|
    ensures Met(st, keys, j, now) <==> keys[j] in st.byAcct && !Shadowed(st, keys, j, now)
  {
    hide AcctKeys, Sound;
    if keys[j] in st.byAcct && !Shadowed(st, keys, j, now) {
      forall h: nat | h < j ensures !Takes(st, keys, h, j, now) {
      }
      assert Met(st, keys, j, now);
    }
  }

  /** A live entry is indexed under one of the keys and the lookup fails all the same: exactly
      when each key of a live entry is shadowed by an earlier, expired one. */
  lemma LookupHidesIff(st: Store, acct: string, nasIP: string, nasIdentifier: string, now: Time)
    requires Sound(st) && acct != ""
    ensures var keys := Fallbacks(acct, nasIP, nasIdentifier);
            LookupByAcct(st, acct, nasIP, nasIdentifier, now).1 == None <==>
            forall j: nat :: j < |keys| && OwnedLive(st, keys[j], now) ==> Shadowed(st, keys, j, now)
  {
    hide AcctKeys, Sound;
    var keys := Fallbacks(acct, nasIP, nasIdentifier);
    LookupFailsIff(st, keys, now);
    forall j: nat | j < |keys| ensures MetLive(st, keys, j, now) <==> OwnedLive(st, keys[j], now) && !Shadowed(st, keys, j, now) {
      MetUnlessShadowed(st, keys, j, now);
    }
    if forall j: nat :: j < |keys| && OwnedLive(st, keys[j], now) ==> Shadowed(st, keys, j, now) {
      forall i: nat ensures !MetLive(st, keys, i, now) {
        assert i < |keys| ==> (OwnedLive(st, keys[i], now) ==> Shadowed(st, keys, i, now));
      }
    }
  }

  // --- whole runs ---

  datatype Op =
    | UpsertOp(u: Update, now: Time)
    | LookupOp(mac: string, imsi: string, apn: string, now: Time)
    | AcctOp(acct: string, nasIP: string, nasIdentifier: string, now: Time)
    | DeleteOp(mac: string, imsi: string, apn: string)

  function Exec(st: Store, op: Op): (r: Store)
    requires Sound(st)
    ensures Sound(r)
  {
    match op
    case UpsertOp(u, now) =>
      UpsertRefines(st, u, now);
      Upsert(st, u, now)
    case LookupOp(mac, imsi, apn, now) =>
      LookupValidIsHonest(st, mac, imsi, apn, now);
      LookupValid(st, mac, imsi, apn, now).0
    case AcctOp(acct, nasIP, nasIdentifier, now) =>
      LookupByKeysIsHonest(st, Fallbacks(acct, nasIP, nasIdentifier), now);
      LookupByAcct(st, acct, nasIP, nasIdentifier, now).0
    case DeleteOp(mac, imsi, apn) =>
      var target := DeleteTarget(st, mac, imsi, apn);
      if target.Some? then
        UnindexKeepsSound(st, target.value);
        Delete(st, mac, imsi, apn)
      else st
  }

  /** Whatever happens, no index entry of the cache is ever stale. */
  function Run(st: Store, ops: seq<Op>): (r: Store)
    requires Sound(st)
    ensures Sound(r)
    decreases |ops|
  {
    if ops == [] then st else Run(Exec(st, ops[0]), ops[1..])
  }

  const First: Value := Value("m1", "i1", "", "", "n", "x", "acct", 0, 1, 0)
  const Second: Value := Value("m2", "i2", "", "", "n", "y", "acct", 0, 0, 0)

  function Storing(v: Value): Op {
    UpsertOp(Update(v.mac, v.imsi, v.apn, v.msisdn, v.nasIP, v.nasIdentifier, v.acctSessionID, v.startedAt, v.expiresAt, v.lastSeen), 0)
  }

  lemma StoresIt(st: Store, v: Value)
    requires Sound(st) && KeyOf(v) !in st.byKey && v.mac != "" && v.imsi != "" && v.startedAt == 0 == v.lastSeen
    ensures Exec(st, Storing(v)) == Index(st, v)
  {
    hide AcctKeys, Sound, Index, Lower;
  }

  lemma EmptyIsSound()
    ensures Sound(Empty)
  {
  }

  lemma {:induction false} TwoStored()
    ensures Run(Empty, [Storing(First), Storing(Second)]) == Index(Index(Empty, First), Second)
  {
    hide Index, Exec, Sound;
    EmptyIsSound();
    StoresIt(Empty, First);
    IndexedOne(Empty, First);
    KeysOfBoth();
    StoresIt(Index(Empty, First), Second);
    var ops := [Storing(First), Storing(Second)];
    var rest := [Storing(Second)];
    assert ops[0] == Storing(First) && ops[1..] == rest && rest[1..] == [];
    var st1 := Exec(Empty, Storing(First));
    assert Run(st1, rest) == Run(Exec(st1, Storing(Second)), []);
  }

  lemma IndexedOne(st: Store, v: Value)
    ensures Index(st, v).byKey == st.byKey[KeyOf(v) := v]
    ensures forall a :: a in AcctKeys(v) ==> a in Index(st, v).byAcct && Index(st, v).byAcct[a] == KeyOf(v)
    ensures forall a :: a !in AcctKeys(v) ==>
              (a in Index(st, v).byAcct <==> a in st.byAcct) && (a in st.byAcct ==> Index(st, v).byAcct[a] == st.byAcct[a])
  {
    hide AcctKeys;
  }

  /** A run that hides a live entry: of two entries that share accounting session and NAS
      address one has expired, and the lookup for that one's NAS drops the keys of both. */
  lemma LiveEntryHidden()
    ensures var st := Run(Empty, [Storing(First), Storing(Second)]);
            && OwnedLive(st, AcctKey("acct", "n", ""), 1) && AcctKey("acct", "n", "") in Fallbacks("acct", "n", "x")
            && LookupByAcct(st, "acct", "n", "x", 1).1 == None
  {
    hide Index, Exec, Sound, Run, Lower;
    EmptyIsSound();
    var st := Run(Empty, [Storing(First), Storing(Second)]);
    TwoStored();
    IndexedOne(Empty, First);
    IndexedOne(Index(Empty, First), Second);
    KeysOfBoth();
    ExpiredEntryHidesOthers(st, "acct", "n", "x", 1);
  }

  lemma KeysOfBoth()
    ensures AcctKey("acct", "n", "x") in AcctKeys(First) && AcctKey("acct", "n", "x") !in AcctKeys(Second)
    ensures AcctKey("acct", "n", "") in AcctKeys(Second) && AcctKey("acct", "n", "") in Fallbacks("acct", "n", "x")
    ensures KeyOf(First) != KeyOf(Second)
  {
    assert Fallbacks("acct", "n", "x")[0] == AcctKey("acct", "n", "x") && Fallbacks("acct", "n", "x")[1] == AcctKey("acct", "n", "");
    assert Fallbacks("acct", "n", "y")[1] == AcctKey("acct", "n", "");
  }

  /** What one operation may do to the primary map: write under the key of an update, drop
      the entry a deletion names, or drop entries that have expired. */
  lemma ExecRefinesMap(st: Store, op: Op)
    requires Sound(st)
    ensures var plain := Exec(st, op).byKey;
            match op
            case UpsertOp(u, now) =>
              plain == if u.mac == "" || u.imsi == "" then st.byKey
                       else st.byKey[CacheKey(u.mac, u.imsi, u.apn) := Upserted(st.byKey, u, now)]
            case DeleteOp(mac, imsi, apn) =>
              exists drop: set<Key> :: plain == st.byKey - drop && |drop| <= 1 && forall k :: k in drop ==> k.mac == mac
            case _ =>
              && (forall k :: k in plain ==> k in st.byKey && plain[k] == st.byKey[k])
              && (forall k :: k in st.byKey && k !in plain ==> Expired(st.byKey[k], op.now))
  {
    match op
    case UpsertOp(u, now) => UpsertRefines(st, u, now);
    case LookupOp(mac, imsi, apn, now) => LookupValidIsHonest(st, mac, imsi, apn, now);
    case AcctOp(acct, nasIP, nasIdentifier, now) =>
      LookupByKeysIsHonest(st, Fallbacks(acct, nasIP, nasIdentifier), now);
    case DeleteOp(mac, imsi, apn) =>
      var target := DeleteTarget(st, mac, imsi, apn);
      if target.Some? {
        UnindexKeepsSound(st, target.value);
        assert Exec(st, op).byKey == st.byKey - {target.value};
      } else {
        assert st.byKey == st.byKey - {};
      }
  }

  // --- the cache itself ---

  class Entry {
    const key: Key
    var val: Value

    constructor (val: Value)
      ensures this.val == val && key == KeyOf(val)
    {
      this.key := KeyOf(val);
      this.val := val;
    }
  }

  function Keys<K>(m: map<K, Entry>): map<K, Key> {
    map k | k in m :: m[k].key
  }

  /** A map of pointers into a primary map leads to entries stored there. */
  predicate Leads<K>(m: map<K, Entry>, byKey: map<Key, Entry>) {
    forall k :: k in m ==> m[k].key in byKey && byKey[m[k].key] == m[k]
  }

  lemma LeadsMinus<K>(m: map<K, Entry>, ks: set<K>, byKey: map<Key, Entry>, e: Entry)
    requires Leads(m, byKey) && e.key in byKey && byKey[e.key] == e
    requires forall k :: k in Keys(m) && Keys(m)[k] == e.key ==> k in ks
    ensures Leads(m - ks, byKey - {e.key}) && Keys(m - ks) == Keys(m) - ks
  {
  }

  lemma LeadsFanOut(m: map<AcctKey, Entry>, v: Value, byKey: map<Key, Entry>, e: Entry)
    requires Leads(m, byKey) && e.key !in byKey
    ensures Leads(m + FanOut(v, e), byKey[e.key := e])
    ensures Keys(m + FanOut(v, e)) == Keys(m) + FanOut(v, e.key)
  {
  }

  lemma LeadsPut<K>(m: map<K, Entry>, k: K, byKey: map<Key, Entry>, e: Entry)
    requires Leads(m, byKey) && e.key !in byKey
    ensures Leads(m[k := e], byKey[e.key := e]) && Keys(m[k := e]) == Keys(m)[k := e.key]
  {
  }

  /** Every pointer leads to the entry that is stored under its own key. */
  predicate Links(byKey: map<Key, Entry>, byMAC: map<string, Entry>, byIMSI: map<string, Entry>, byAcct: map<AcctKey, Entry>) {
    && (forall k :: k in byKey ==> byKey[k].key == k)
    && Leads(byMAC, byKey) && Leads(byIMSI, byKey) && Leads(byAcct, byKey)
  }

  lemma Unlinked(byKey: map<Key, Entry>, byMAC: map<string, Entry>, byIMSI: map<string, Entry>,
                 byAcct: map<AcctKey, Entry>, st: Store, e: Entry, v: Value)
    requires Links(byKey, byMAC, byIMSI, byAcct) && e.key in byKey && byKey[e.key] == e
    requires Sound(st) && st == Store(st.byKey, Keys(byMAC), Keys(byIMSI), Keys(byAcct))
    requires e.key in st.byKey && st.byKey[e.key] == v
    ensures Links(byKey - {e.key}, byMAC - {v.mac}, byIMSI - {v.imsi}, byAcct - AcctKeys(v))
    ensures Sound(Unindex(st, v))
    ensures Unindex(st, v) == Store(st.byKey - {e.key}, Keys(byMAC - {v.mac}), Keys(byIMSI - {v.imsi}), Keys(byAcct - AcctKeys(v)))
  {
    hide Sound, AcctKeys, KeyOf, Keys, Leads;
    SoundKeys(st);
    UnindexKeepsSound(st, e.key);
    PointersOf(st, e.key);
    LeadsMinus(byMAC, {v.mac}, byKey, e);
    LeadsMinus(byIMSI, {v.imsi}, byKey, e);
    LeadsMinus(byAcct, AcctKeys(v), byKey, e);
  }

  lemma Linked(byKey: map<Key, Entry>, byMAC: map<string, Entry>, byIMSI: map<string, Entry>,
               byAcct: map<AcctKey, Entry>, st: Store, e: Entry, v: Value)
    requires Links(byKey, byMAC, byIMSI, byAcct) && e.key !in byKey && e.key !in st.byKey
    requires Sound(st) && st == Store(st.byKey, Keys(byMAC), Keys(byIMSI), Keys(byAcct))
    requires e.key == KeyOf(v) && v.mac != "" && v.imsi != ""
    ensures Links(byKey[e.key := e], byMAC[v.mac := e], byIMSI[v.imsi := e], byAcct + FanOut(v, e))
    ensures Sound(Index(st, v))
    ensures Index(st, v) == Store(st.byKey[e.key := v], Keys(byMAC[v.mac := e]), Keys(byIMSI[v.imsi := e]),
                                  Keys(byAcct + FanOut(v, e)))
  {
    hide Sound, KeyOf, Keys, Leads, FanOut;
    IndexKeepsSound(st, v);
    LeadsPut(byMAC, v.mac, byKey, e);
    LeadsPut(byIMSI, v.imsi, byKey, e);
    LeadsFanOut(byAcct, v, byKey, e);
  }

  /** Deletes the four accounting keys of an entry, one at a time. */
  method WithoutAcct(m: map<AcctKey, Entry>, v: Value) returns (r: map<AcctKey, Entry>)
    ensures r == m - AcctKeys(v)
  {
    r := m;
    if v.acctSessionID != "" {
      var keys := Fallbacks(v.acctSessionID, v.nasIP, v.nasIdentifier);
      r := r - {keys[0]};
      r := r - {keys[1]};
      r := r - {keys[2]};
      r := r - {keys[3]};
    }
  }

  /** Writes the four accounting keys of an entry. */
  method WithAcct(m: map<AcctKey, Entry>, e: Entry) returns (r: map<AcctKey, Entry>)
    ensures r == m + FanOut(e.val, e)
  {
    r := m;
    if e.val.acctSessionID != "" {
      var keys := Fallbacks(e.val.acctSessionID, e.val.nasIP, e.val.nasIdentifier);
      r := r[keys[0] := e][keys[1] := e][keys[2] := e][keys[3] := e];
    }
  }

  class Cache {
    var byKey: map<Key, Entry>
    var byMAC: map<string, Entry>
    var byIMSI: map<string, Entry>
    var byAcct: map<AcctKey, Entry>

    constructor ()
      ensures Valid() && View() == Empty
    {
      byKey, byMAC, byIMSI, byAcct := map[], map[], map[], map[];
    }

    ghost function Plain(): map<Key, Value>
      reads this, byKey.Values
    {
      map k | k in byKey :: byKey[k].val
    }

    ghost function View(): Store
      reads this, byKey.Values
    {
      Store(Plain(), Keys(byMAC), Keys(byIMSI), Keys(byAcct))
    }

    ghost predicate Valid()
      reads this, byKey.Values
    {
      Links(byKey, byMAC, byIMSI, byAcct) && Sound(View())
    }

    method UnindexEntry(e: Entry)
      requires Valid() && e.key in byKey && byKey[e.key] == e
      modifies this
      ensures Valid() && View() == Unindex(old(View()), e.val) && byKey == old(byKey) - {e.key}
    {
      hide Sound, AcctKeys, KeyOf, Keys, Links, Unindex;
      ghost var was := View();
      Unlinked(byKey, byMAC, byIMSI, byAcct, was, e, e.val);
      var acct := WithoutAcct(byAcct, e.val);
      byKey, byMAC, byIMSI, byAcct := byKey - {e.key}, byMAC - {e.val.mac}, byIMSI - {e.val.imsi}, acct;
      assert Plain() == was.byKey - {e.key};
    }

    /** Enters an entry under all its keys. */
    method IndexEntry(e: Entry)
      requires Valid() && e.key == KeyOf(e.val) && e.key !in byKey && e.val.mac != "" && e.val.imsi != ""
      modifies this
      ensures Valid() && View() == Index(old(View()), e.val) && byKey == old(byKey)[e.key := e]
    {
      hide Sound, AcctKeys, KeyOf, Keys, Links, FanOut, Index;
      ghost var was := View();
      Linked(byKey, byMAC, byIMSI, byAcct, was, e, e.val);
      var acct := WithAcct(byAcct, e);
      byKey, byMAC, byIMSI, byAcct := byKey[e.key := e], byMAC[e.val.mac := e], byIMSI[e.val.imsi := e], acct;
      assert Plain() == was.byKey[e.key := e.val];
    }

    method UpsertAuthCache(u: Update, now: Time) returns (r: Option<Value>)
      requires Valid()
      modifies this, byKey.Values
      ensures Valid() && View() == Upsert(old(View()), u, now)
      ensures r == if u.mac == "" || u.imsi == "" then None else Some(Upserted(old(View()).byKey, u, now))
    {
      hide Sound, AcctKeys, Keys, Leads, Index, Unindex, CacheKey;
      SoundKeys(View());
      if u.mac == "" || u.imsi == "" {
        return None;
      }
      var k := CacheKey(u.mac, u.imsi, u.apn);
      CacheKeyOf(u.mac, u.imsi, u.apn, now);
      var e: Entry;
      if k in byKey {
        e := byKey[k];
        assert View().byKey[k] == e.val;
        UnindexEntry(e);
        e.val := Merged(e.val, u, now);
      } else {
        e := new Entry(Merged(NewValue(u.mac, u.imsi, u.apn, now), u, now));
      }
      IndexEntry(e);
      r := Some(e.val);
    }

    /** An entry unless it has expired; an expired one is dropped. */
    method FetchEntry(e: Entry, now: Time) returns (r: Option<Value>)
      requires Valid() && e.key in byKey && byKey[e.key] == e
      modifies this
      ensures Valid() && (View(), r) == Fetch(old(View()), e.key, now)
    {
      hide Sound, AcctKeys, Keys, Links, Unindex, KeyOf;
      if Expired(e.val, now) {
        UnindexEntry(e);
        return None;
      }
      r := Some(e.val);
    }

    method LookupValidAuthCache(mac: string, imsi: string, apn: string, now: Time) returns (r: Option<Value>)
      requires Valid()
      modifies this
      ensures Valid() && (View(), r) == LookupValid(old(View()), mac, imsi, apn, now)
    {
      hide Sound, AcctKeys, Unindex, KeyOf, CacheKey;
      var e: Entry?;
      e := null;
      if mac != "" && imsi != "" {
        if CacheKey(mac, imsi, apn) in byKey {
          e := byKey[CacheKey(mac, imsi, apn)];
        } else if apn != "" && CacheKey(mac, imsi, "") in byKey {
          e := byKey[CacheKey(mac, imsi, "")];
        }
      }
      if e == null && mac != "" && mac in byMAC {
        e := byMAC[mac];
      }
      if e == null && imsi != "" && imsi in byIMSI {
        e := byIMSI[imsi];
      }
      if e == null {
        return None;
      }
      r := FetchEntry(e, now);
      if r.Some? && !CompatibleAPN(r.value, apn) {
        return None;
      }
    }

    method LookupValidAuthCacheByAcct(acct: string, nasIP: string, nasIdentifier: string, now: Time)
      returns (r: Option<Value>)
      requires Valid()
      modifies this
      ensures Valid() && (View(), r) == LookupByAcct(old(View()), acct, nasIP, nasIdentifier, now)
    {
      hide Sound, AcctKeys, Unindex, KeyOf;
      if acct == "" {
        return None;
      }
      var keys := Fallbacks(acct, nasIP, nasIdentifier);
      for i := 0 to 4
        invariant Valid()
        invariant LookupByKeys(old(View()), keys, now) == LookupByKeys(View(), keys[i..], now)
      {
        if keys[i] in byAcct {
          r := FetchEntry(byAcct[keys[i]], now);
          if r.Some? {
            return;
          }
        }
        assert keys[i..][1..] == keys[i + 1..];
      }
      r := None;
    }

    method DeleteAuthCache(mac: string, imsi: string, apn: string) returns (found: bool)
      requires Valid()
      modifies this
      ensures Valid() && View() == Delete(old(View()), mac, imsi, apn)
      ensures found <==> DeleteTarget(old(View()), mac, imsi, apn).Some?
    {
      hide Sound, AcctKeys, Unindex, KeyOf, CacheKey;
      if CacheKey(mac, imsi, apn) in byKey {
        UnindexEntry(byKey[CacheKey(mac, imsi, apn)]);
        return true;
      }
      if mac != "" && mac in byMAC {
        UnindexEntry(byMAC[mac]);
        return true;
      }
      found := false;
    }
  }

  lemma CacheKeyOf(mac: string, imsi: string, apn: string, now: Time)
    ensures KeyOf(NewValue(mac, imsi, apn, now)) == CacheKey(mac, imsi, apn)
    ensures CacheKey(mac, imsi, apn).mac == mac && CacheKey(mac, imsi, apn).imsi == imsi
  {
  }

  /** Only the index entries under an entry's own keys lead to it. */
  lemma PointersOf(st: Store, k: Key)
    requires Sound(st) && k in st.byKey
    ensures forall m :: m in st.byMAC && st.byMAC[m] == k ==> m == st.byKey[k].mac
    ensures forall i :: i in st.byIMSI && st.byIMSI[i] == k ==> i == st.byKey[k].imsi
    ensures forall a :: a in st.byAcct && st.byAcct[a] == k ==> a in AcctKeys(st.byKey[k])
  {
  }
}
