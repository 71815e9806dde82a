/** The local address allocator: IPv4 arithmetic on four octets, the scan over a pool, and the
    two inverse maps of leases. */
module AddressPool {
  import opened Wrappers
  import opened Sessions
  import opened Bytes

  const WORD: nat := 0x1_0000_0000

  /** A network: its base address in four octets and the length of its prefix. */
  datatype Pool = Pool(base: seq<Byte>, prefix: nat)

  /** How many bits of octet i belong to the host part. */
  function HostBits(prefix: nat, i: nat): (k: nat)
    ensures k <= 8
  {
    if prefix >= 8 * i + 8 then 0 else if prefix <= 8 * i then 8 else 8 * i + 8 - prefix
  }

  function MaskOctet(prefix: nat, i: nat): Byte {
    PowUpTo8(HostBits(prefix, i));
    Pow2(8) - Pow2(HostBits(prefix, i))
  }

  /** A parsed network: four octets, with the host part cleared. */
  predicate ValidPool(p: Pool) {
    && |p.base| == 4 && p.prefix <= 32
    && forall i: nat :: i < 4 ==> And(p.base[i], MaskOctet(p.prefix, i), 8) == p.base[i]
  }

  predicate Contains(p: Pool, ip: seq<Byte>)
    requires |p.base| == 4 && |ip| == 4
  {
    forall i: nat :: i < 4 ==> And(p.base[i], MaskOctet(p.prefix, i), 8) == And(ip[i], MaskOctet(p.prefix, i), 8)
  }

  predicate IsBroadcast(p: Pool, ip: seq<Byte>)
    requires |p.base| == 4 && |ip| == 4
  {
    forall i: nat :: i < 4 ==> ip[i] as nat == Or(p.base[i], 255 - MaskOctet(p.prefix, i), 8)
  }

  function Base(p: Pool): IPv4
    requires |p.base| == 4
  {
    Get32(p.base)
  }

  function Size(p: Pool): nat
    requires p.prefix <= 32
  {
    Pow2(32 - p.prefix)
  }

  lemma PowUpTo8(k: nat)
    ensures Pow2(0) == 1 && Pow2(1) == 2 && Pow2(2) == 4 && Pow2(3) == 8 && Pow2(4) == 16
    ensures Pow2(5) == 32 && Pow2(6) == 64 && Pow2(7) == 128 && Pow2(8) == 256
    ensures k <= 8 ==> 1 <= Pow2(k) <= 256
  {
    assert Pow2(0) == 1 && Pow2(1) == 2 && Pow2(2) == 4 && Pow2(3) == 8;
    assert Pow2(4) == 16 && Pow2(5) == 32 && Pow2(6) == 64 && Pow2(7) == 128;
  }

  lemma PowPlus8(k: nat)
    ensures Pow2(k + 8) == 256 * Pow2(k)
  {
    assert Pow2(k + 4) == 16 * Pow2(k) by {
      assert Pow2(k + 2) == 4 * Pow2(k);
    }
    assert Pow2(k + 8) == 16 * Pow2(k + 4) by {
      assert Pow2(k + 6) == 4 * Pow2(k + 4);
    }
  }

  lemma FloorBlock(base: nat, ip: nat, p: nat)
    requires p >= 1 && base % p == 0
    ensures ip - ip % p == base <==> base <= ip < base + p
  {
    var c, d := base / p, ip / p;
    assert base == c * p && ip == d * p + ip % p;
    if base <= ip < base + p {
      ModOf(c, p, ip - base);
    }
  }

  lemma BlockEnds(base: Byte, k: nat)
    requires k <= 8 && base % Pow2(k) == 0
    ensures base + Pow2(k) <= 256
  {
    PowUpTo8(k);
    if k == 8 {
    } else if k == 7 {
    } else if k == 6 {
    } else if k == 5 {
    } else if k == 4 {
    } else if k == 3 {
    } else if k == 2 {
    } else if k == 1 {
    }
  }

  /** What the octet at i says about membership and about the last address. */
  lemma OctetBlock(base: Byte, ip: Byte, prefix: nat, i: nat)
    requires And(base, MaskOctet(prefix, i), 8) == base
    ensures var p := Pow2(HostBits(prefix, i));
            && (And(ip, MaskOctet(prefix, i), 8) == base <==> base <= ip < base + p)
            && Or(base, 255 - MaskOctet(prefix, i), 8) == base + p - 1
            && base + p <= 256
  {
    hide And, Or, HostBits, Pow2;
    var k := HostBits(prefix, i);
    PowUpTo8(k);
    AndMask(base, k, 8);
    AndMask(ip, k, 8);
    BlockEnds(base, k);
    OrLow(base, k, 8);
    FloorBlock(base, ip, Pow2(k));
  }

  /** Four octets that each lie in a block, and the number they make. */
  lemma BlocksMakeRange(b: seq<Byte>, ip: seq<Byte>, q: seq<nat>, size: nat)
    requires |b| == |ip| == |q| == 4
    requires forall i :: 0 <= i < 4 ==> q[i] >= 1 && b[i] + q[i] <= 256
    requires || (q[1] == q[2] == q[3] == 256 && size == q[0] * 0x100_0000)
             || (q[0] == 1 && q[2] == q[3] == 256 && size == q[1] * 0x1_0000)
             || (q[0] == q[1] == 1 && q[3] == 256 && size == q[2] * 0x100)
             || (q[0] == q[1] == q[2] == 1 && size == q[3])
    ensures (forall i :: 0 <= i < 4 ==> b[i] <= ip[i] < b[i] + q[i]) <==> Get32(b) <= Get32(ip) < Get32(b) + size
    ensures (forall i :: 0 <= i < 4 ==> ip[i] as nat == b[i] + q[i] - 1) <==> Get32(ip) == Get32(b) + size - 1
    ensures Get32(b) + size <= WORD
  {
    assert (forall i :: 0 <= i < 4 ==> b[i] <= ip[i] < b[i] + q[i]) <==>
           b[0] <= ip[0] < b[0] + q[0] && b[1] <= ip[1] < b[1] + q[1] && b[2] <= ip[2] < b[2] + q[2] && b[3] <= ip[3] < b[3] + q[3];
    assert (forall i :: 0 <= i < 4 ==> ip[i] as nat == b[i] + q[i] - 1) <==>
           ip[0] as nat == b[0] + q[0] - 1 && ip[1] as nat == b[1] + q[1] - 1
           && ip[2] as nat == b[2] + q[2] - 1 && ip[3] as nat == b[3] + q[3] - 1;
  }

  /** Membership is a range test, and the last address of the range is the broadcast address. */
  lemma PoolIsRange(p: Pool, ip: seq<Byte>)
    requires ValidPool(p) && |ip| == 4
    ensures Contains(p, ip) <==> Base(p) <= Get32(ip) < Base(p) + Size(p)
    ensures IsBroadcast(p, ip) <==> Get32(ip) == Base(p) + Size(p) - 1
    ensures Base(p) + Size(p) <= WORD
  {
    hide And, Or, HostBits, Pow2, MaskOctet, Get32;
    var q := seq(4, i requires 0 <= i < 4 => Pow2(HostBits(p.prefix, i)));
    forall i | 0 <= i < 4
      ensures And(ip[i], MaskOctet(p.prefix, i), 8) == p.base[i] <==> p.base[i] <= ip[i] < p.base[i] + q[i]
      ensures Or(p.base[i], 255 - MaskOctet(p.prefix, i), 8) == p.base[i] + q[i] - 1 && p.base[i] + q[i] <= 256
    {
      OctetBlock(p.base[i], ip[i], p.prefix, i);
    }
    SizeByOctets(p.prefix);
    BlocksMakeRange(p.base, ip, q, Size(p));
  }

  /** The block sizes of the four octets, and of the whole pool. */
  lemma SizeByOctets(prefix: nat)
    requires prefix <= 32
    ensures var q := (i: nat) => Pow2(HostBits(prefix, i));
            || (q(1) == q(2) == q(3) == 256 && Pow2(32 - prefix) == q(0) * 0x100_0000)
            || (q(0) == 1 && q(2) == q(3) == 256 && Pow2(32 - prefix) == q(1) * 0x1_0000)
            || (q(0) == q(1) == 1 && q(3) == 256 && Pow2(32 - prefix) == q(2) * 0x100)
            || (q(0) == q(1) == q(2) == 1 && Pow2(32 - prefix) == q(3))
  {
    PowUpTo8(0);
    if prefix < 8 {
      PowPlus8(8 - prefix);
      PowPlus8(16 - prefix);
      PowPlus8(24 - prefix);
    } else if prefix < 16 {
      PowPlus8(16 - prefix);
      PowPlus8(24 - prefix);
    } else if prefix < 24 {
      PowPlus8(24 - prefix);
    }
  }

  /** Ripple-carry increment in place: one more, modulo 2^32. */
  method IncIPv4(ip: array<Byte>)
    requires ip.Length == 4
    modifies ip
    ensures Get32(ip[..]) == (old(Get32(ip[..])) + 1) % WORD
  {
    var i := 3;
    while i >= 0
      invariant -1 <= i <= 3
      invariant forall j :: i < j < 4 ==> ip[j] == 0 && old(ip[j]) == 255
      invariant forall j :: 0 <= j <= i ==> ip[j] == old(ip[j])
    {
      var v: nat := ip[i];
      ip[i] := (v + 1) % 256;
      if ip[i] != 0 {
        break;
      }
      i := i - 1;
    }
  }

  method FirstUsable(p: Pool) returns (ip: array<Byte>)
    requires |p.base| == 4
    ensures fresh(ip) && ip.Length == 4 && Get32(ip[..]) == (Base(p) + 1) % WORD
  {
    ip := new Byte[4];
    ip[0], ip[1], ip[2], ip[3] := p.base[0], p.base[1], p.base[2], p.base[3];
    assert ip[..] == p.base;
    IncIPv4(ip);
  }

  /** The addresses a pool can lease: neither the network, nor the broadcast address, nor the
      gateway. */
  function UsableSet(p: Pool, gateway: IPv4): set<nat>
    requires |p.base| == 4 && p.prefix <= 32
  {
    Range(Base(p) + 1, Base(p) + Size(p) - 1) - {gateway}
  }

  function Range(lo: nat, hi: int): (r: set<nat>)
    ensures forall v :: v in r <==> lo <= v < hi
    ensures |r| == if lo <= hi then hi - lo else 0
    decreases hi - lo
  {
    if lo >= hi then {} else Range(lo, hi - 1) + {hi - 1}
  }

  /** Where the scan stands after k steps: the address, and whether it is still in the pool. */
  lemma ScanPosition(p: Pool, ip: seq<Byte>, k: nat)
    requires ValidPool(p) && 1 <= p.prefix && |ip| == 4
    requires Get32(ip) == (Base(p) + 1 + k) % WORD && k < Size(p)
    ensures Contains(p, ip) <==> k < Size(p) - 1
    ensures k < Size(p) - 1 ==> Get32(ip) == Base(p) + 1 + k
    ensures IsBroadcast(p, ip) && Contains(p, ip) <==> 2 <= Size(p) && k == Size(p) - 2
  {
    hide And, Or, Pow2, MaskOctet, Get32, Contains, IsBroadcast;
    PoolIsRange(p, ip);
    AtMostHalf(32 - p.prefix);
  }

  lemma {:induction false} PowGrows(k: nat, n: nat)
    requires k <= n
    ensures Pow2(k) <= Pow2(n)
  {
    if k < n {
      PowGrows(k, n - 1);
    }
  }

  lemma AtMostHalf(k: nat)
    requires k <= 31
    ensures Pow2(k) <= 0x8000_0000
  {
    PowGrows(k, 31);
    PowUpTo8(7);
    PowPlus8(7);
    PowPlus8(15);
    PowPlus8(23);
  }

  /** Without a prefix every address belongs to the pool, so that the scan has no end. */
  lemma ZeroPrefixContainsAll(p: Pool, ip: seq<Byte>)
    requires ValidPool(p) && p.prefix == 0 && |ip| == 4
    ensures Contains(p, ip)
  {
    PowPlus8(0);
    PowPlus8(8);
    PowPlus8(16);
    PowPlus8(24);
    PoolIsRange(p, ip);
  }

  lemma SameAddress(a: seq<Byte>, b: seq<Byte>)
    requires |a| == |b| == 4
    ensures a == b <==> Get32(a) == Get32(b)
  {
    RoundTrip32(0, a);
    RoundTrip32(0, b);
  }

  /** How many of the first k addresses after the base can be leased. */
  function UsableAmong(p: Pool, gateway: IPv4, k: nat): int
    requires |p.base| == 4 && p.prefix <= 32
  {
    k - (if Base(p) < gateway <= Base(p) + k && gateway != Base(p) + Size(p) - 1 then 1 else 0)
    - (if 2 <= Size(p) == k + 1 then 1 else 0)
  }

  /** The scan over a pool ends, also for pools that end at 255.255.255.255, and its count is
      the number of addresses between network and broadcast address, less the gateway. */
  method UsableCount(p: Pool, gateway: seq<Byte>) returns (count: nat)
    requires ValidPool(p) && 1 <= p.prefix && |gateway| == 4
    ensures count == |UsableSet(p, Get32(gateway))|
    ensures count == if p.prefix == 32 then 0
                     else Pow2(32 - p.prefix) - 2
                          - if Base(p) < Get32(gateway) < Base(p) + Pow2(32 - p.prefix) - 1 then 1 else 0
  {
    hide Contains, IsBroadcast, And, Or, MaskOctet, Get32;
    count := 0;
    var ip := FirstUsable(p);
    ghost var k := 0;
    assert Size(p) >= 1;
    ScanPosition(p, ip[..], 0);
    while Contains(p, ip[..])
      invariant k < Size(p) && fresh(ip) && ip.Length == 4 && Get32(ip[..]) == (Base(p) + 1 + k) % WORD
      invariant Contains(p, ip[..]) <==> k < Size(p) - 1
      invariant count == UsableAmong(p, Get32(gateway), k)
      decreases Size(p) - k
    {
      ScanPosition(p, ip[..], k);
      SameAddress(ip[..], gateway);
      if !(ip[..] == gateway || IsBroadcast(p, ip[..])) {
        count := count + 1;
      }
      IncIPv4(ip);
      k := k + 1;
      ScanPosition(p, ip[..], k);
    }
    UsableCardinality(p, Get32(gateway));
  }

  lemma UsableCardinality(p: Pool, gateway: IPv4)
    requires |p.base| == 4 && p.prefix <= 32
    ensures |UsableSet(p, gateway)| ==
            if Size(p) < 2 then 0
            else Size(p) - 2 - if Base(p) < gateway < Base(p) + Size(p) - 1 then 1 else 0
  {
    if Size(p) >= 2 {
      var all := Range(Base(p) + 1, Base(p) + Size(p) - 1);
      if gateway in all {
        assert all == (all - {gateway}) + {gateway};
      } else {
        assert all - {gateway} == all;
      }
    }
  }

  // --- the allocator ---

  datatype PoolError = GatewayOutsidePool | NoUsableAddress | SessionIDRequired | PoolExhausted

  datatype Status = Status(total: nat, used: nat, free: int, leases: map<string, IPv4>)

  /** The two maps are inverse to each other, and lease usable addresses only. */
  predicate Inverse(leases: map<string, IPv4>, assignedTo: map<nat, string>, usable: set<nat>) {
    && (forall s :: s in leases ==> s != "" && leases[s] in assignedTo && assignedTo[leases[s]] == s)
    && (forall v :: v in assignedTo ==> v in usable && assignedTo[v] in leases && leases[assignedTo[v]] == v)
  }

  lemma InversePut(leases: map<string, IPv4>, assignedTo: map<nat, string>, usable: set<nat>, s: string, v: IPv4)
    requires Inverse(leases, assignedTo, usable) && s != "" && s !in leases && v in usable && v !in assignedTo
    ensures Inverse(leases[s := v], assignedTo[v := s], usable)
  {
  }

  lemma InverseDrop(leases: map<string, IPv4>, assignedTo: map<nat, string>, usable: set<nat>, s: string)
    requires Inverse(leases, assignedTo, usable)
    ensures s in leases ==> Inverse(leases - {s}, assignedTo - {leases[s]}, usable)
    ensures s !in leases ==> leases - {s} == leases
  {
  }

  class MemoryIPAM {
    const pool: Pool
    const gateway: seq<Byte>
    const total: nat
    var leases: map<string, IPv4>
    var assignedTo: map<nat, string>

    constructor (pool: Pool, gateway: seq<Byte>, total: nat)
      requires ValidPool(pool) && 1 <= pool.prefix && |gateway| == 4
      requires total == |UsableSet(pool, Get32(gateway))|
      ensures Valid() && leases == map[] && this.pool == pool && this.gateway == gateway
    {
      this.pool, this.gateway, this.total := pool, gateway, total;
      leases, assignedTo := map[], map[];
    }

    /** The addresses that may be leased. */
    function Usable(): set<nat>
      requires |pool.base| == 4 && pool.prefix <= 32 && |gateway| == 4
    {
      UsableSet(pool, Get32(gateway))
    }

    ghost predicate Valid()
      reads this
    {
      && ValidPool(pool) && 1 <= pool.prefix && |gateway| == 4 && total == |Usable()|
      && Inverse(leases, assignedTo, Usable())
    }

    /** A new session gets the least free address, and fails exactly when everything is leased;
        a session that has a lease gets it again. */
    method Allocate(session: string) returns (r: Result<IPv4, PoolError>)
      requires Valid()
      modifies this
      ensures Valid()
      ensures session == "" ==> r == Err(SessionIDRequired)
      ensures session != "" && session in old(leases) ==> r == Ok(old(leases)[session])
      ensures session != "" && session !in old(leases) ==> (r == Err(PoolExhausted) <==> |old(leases)| == total)
      ensures session != "" && session !in old(leases) && r.Ok? ==>
                && r.value in Usable() && r.value !in old(assignedTo)
                && (forall v :: v in Usable() && v !in old(assignedTo) ==> r.value <= v)
                && leases == old(leases)[session := r.value] && assignedTo == old(assignedTo)[r.value := session]
      ensures session == "" || session in old(leases) || r.Err? ==> leases == old(leases) && assignedTo == old(assignedTo)
      ensures r.Err? ==> r.error == SessionIDRequired || r.error == PoolExhausted
    {
      hide Contains, IsBroadcast, Get32, Range, And, MaskOctet, Pow2, UsableSet, Inverse;
      if session == "" {
        return Err(SessionIDRequired);
      }
      if session in leases {
        return Ok(leases[session]);
      }
      PoolFull(leases, assignedTo, Usable());
      var free := FindFree();
      if free.None? {
        return Err(PoolExhausted);
      }
      InversePut(leases, assignedTo, Usable(), session, free.value);
      leases := leases[session := free.value];
      assignedTo := assignedTo[free.value := session];
      r := Ok(free.value);
    }

    /** The scan for the first address that is not leased. */
    method FindFree() returns (free: Option<IPv4>)
      requires Valid()
      ensures free.None? ==> forall v :: v in Usable() ==> v in assignedTo
      ensures free.Some? ==>
                && free.value in Usable() && free.value !in assignedTo
                && forall v :: v in Usable() && v !in assignedTo ==> free.value <= v
    {
      hide Contains, IsBroadcast, Get32, And, Or, MaskOctet, Inverse;
      PoolIsRange(pool, pool.base);
      var ip := FirstUsable(pool);
      ghost var k := 0;
      assert Size(pool) >= 1;
      ScanPosition(pool, ip[..], 0);
      while Contains(pool, ip[..])
        invariant k < Size(pool) && fresh(ip) && ip.Length == 4 && Get32(ip[..]) == (Base(pool) + 1 + k) % WORD
        invariant Contains(pool, ip[..]) <==> k < Size(pool) - 1
        invariant forall v :: v in Usable() && v <= Base(pool) + k ==> v in assignedTo
        decreases Size(pool) - k
      {
        ScanPosition(pool, ip[..], k);
        SameAddress(ip[..], gateway);
        if !(ip[..] == gateway || IsBroadcast(pool, ip[..])) && Get32(ip[..]) !in assignedTo {
          return Some(Get32(ip[..]));
        }
        IncIPv4(ip);
        k := k + 1;
        ScanPosition(pool, ip[..], k);
      }
      free := None;
    }

    method Release(session: string) returns (err: Option<PoolError>)
      requires Valid()
      modifies this
      ensures Valid() && err == if session == "" then Some(SessionIDRequired) else None
      ensures leases == old(leases) - {session}
      ensures assignedTo == if session in old(leases) then old(assignedTo) - {old(leases)[session]} else old(assignedTo)
    {
      hide And, MaskOctet, Range, UsableSet;
      err := None;
      if session == "" {
        return Some(SessionIDRequired);
      }
      InverseDrop(leases, assignedTo, Usable(), session);
      if session in leases {
        var ip := leases[session];
        leases := leases - {session};
        assignedTo := assignedTo - {ip};
      }
    }

    method Lookup(session: string) returns (r: Option<IPv4>)
      requires Valid()
      ensures r == if session in leases then Some(leases[session]) else None
      ensures r.Some? ==> r.value in Usable() && r.value != Base(pool) && r.value != Get32(gateway)
    {
      hide And, MaskOctet, Get32;
      if session == "" || session !in leases {
        return None;
      }
      r := Some(leases[session]);
    }

    /** Used and free addresses make up the total, and free is never negative. */
    method GetStatus() returns (r: Status)
      requires Valid()
      ensures r.total == total == |Usable()| && r.used == |leases| && r.used + r.free == r.total && r.free >= 0
      ensures r.free == |Usable() - assignedTo.Keys| && r.leases == leases
    {
      hide And, MaskOctet, Range, Get32, UsableSet;
      PoolFull(leases, assignedTo, Usable());
      r := Status(total, |leases|, total - |leases|, leases);
    }
  }

  lemma {:induction false} SameCardinality(leases: map<string, IPv4>, assignedTo: map<nat, string>)
    requires forall s :: s in leases ==> leases[s] in assignedTo && assignedTo[leases[s]] == s
    requires forall v :: v in assignedTo ==> assignedTo[v] in leases && leases[assignedTo[v]] == v
    ensures |leases| == |assignedTo|
    decreases |leases|
  {
    if leases == map[] {
      assert assignedTo == map[];
    } else {
      var s :| s in leases;
      var v := leases[s];
      SameCardinality(leases - {s}, assignedTo - {v});
      assert |leases - {s}| == |leases| - 1 by {
        assert (leases - {s})[s := v] == leases;
      }
      assert |assignedTo - {v}| == |assignedTo| - 1 by {
        assert (assignedTo - {v})[v := s] == assignedTo;
      }
    }
  }

  /** The pigeonhole argument: leases never outnumber the usable addresses, and nothing is free
      exactly when they are as many. */
  lemma PoolFull(leases: map<string, IPv4>, assignedTo: map<nat, string>, usable: set<nat>)
    requires Inverse(leases, assignedTo, usable)
    ensures |leases| <= |usable| && |usable - assignedTo.Keys| == |usable| - |leases|
    ensures |leases| == |usable| <==> forall v :: v in usable ==> v in assignedTo
  {
    SameCardinality(leases, assignedTo);
    var taken := assignedTo.Keys;
    assert taken <= usable;
    assert usable == (usable - taken) + taken;
    if |leases| == |usable| {
      assert usable - taken == {};
    } else {
      assert usable - taken != {};
    }
  }

  /** Sets up an allocator for a pool and a gateway inside it. */
  method NewMemory(pool: Pool, gateway: seq<Byte>) returns (r: Result<MemoryIPAM, PoolError>)
    requires ValidPool(pool) && 1 <= pool.prefix && |gateway| == 4
    ensures r.Ok? ==> fresh(r.value) && r.value.Valid() && r.value.leases == map[] && r.value.total > 0
    ensures r.Ok? ==> r.value.pool == pool && r.value.gateway == gateway && r.value.total == |UsableSet(pool, Get32(gateway))|
    ensures r == Err(GatewayOutsidePool) <==> !(Base(pool) <= Get32(gateway) < Base(pool) + Size(pool))
    ensures r == Err(NoUsableAddress) <==>
              Base(pool) <= Get32(gateway) < Base(pool) + Size(pool) && UsableSet(pool, Get32(gateway)) == {}
  {
    hide Contains, IsBroadcast, Get32, And, Or, MaskOctet, Range;
    PoolIsRange(pool, gateway);
    if !Contains(pool, gateway) {
      return Err(GatewayOutsidePool);
    }
    var total := UsableCount(pool, gateway);
    if total == 0 {
      return Err(NoUsableAddress);
    }
    var ipam := new MemoryIPAM(pool, gateway, total);
    r := Ok(ipam);
  }
}
