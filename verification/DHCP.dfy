/** The DHCP server on the access side: parsing a request frame, the gate that lets only
    authorized sessions have an address, and the reply frame with its header checksum. */
module DHCP {
  import opened Wrappers
  import opened Sessions
  import opened SessionStore
  import opened Bytes
  import Checksum

  const DISCOVER: Byte := 1
  const OFFER: Byte := 2
  const REQUEST: Byte := 3
  const ACK: Byte := 5
  const NAK: Byte := 6

  const SUBNET_MASK: Byte := 1
  const ROUTER: Byte := 3
  const DNS_SERVER: Byte := 6
  const REQUESTED_IP: Byte := 50
  const LEASE_TIME: Byte := 51
  const MESSAGE_TYPE: Byte := 53
  const SERVER_IDENTIFIER: Byte := 54
  const RENEWAL_TIME: Byte := 58
  const REBINDING_TIME: Byte := 59
  const END: Byte := 255

  const COOKIE: nat := 0x63825363

  type Address = b: seq<Byte> | |b| == 4 witness [0, 0, 0, 0]
  type MAC = b: seq<Byte> | |b| == 6 witness [0, 0, 0, 0, 0, 0]
  type Word32 = n: nat | n < 0x1_0000_0000

  datatype DHCPConfig = DHCPConfig(
    requireAuthorized: bool, netmask: Option<Address>, router: Option<Address>, dns: seq<Address>,
    leaseTime: Word32, renewalTime: Word32, rebindingTime: Word32, serverIdentifier: Option<Address>,
    nakStaleRequests: bool, hasRecoveryHandler: bool, recoverFromAuthCache: bool)

  datatype Packet = Packet(
    xid: Word32, clientMAC: MAC, clientIP: Address, requestedIP: Option<Address>, messageType: Byte)

  datatype DHCPOption = DHCPOption(code: Byte, data: seq<Byte>)

  // --- options ---

  /** Reads options up to the end marker, or up to where they are cut off; later ones win. */
  function ParseOptions(b: seq<Byte>, found: map<Byte, seq<Byte>>): map<Byte, seq<Byte>>
    decreases |b|
  {
    if b == [] || b[0] == END then found
    else if b[0] == 0 then ParseOptions(b[1..], found)
    else if |b| < 2 || |b| < 2 + b[1] as nat then found
    else ParseOptions(b[2 + b[1] as nat..], found[b[0] := b[2..2 + b[1] as nat]])
  }

  /** Options without data are left out. The length octet holds the low eight bits only. */
  function EncodeOptions(opts: seq<DHCPOption>): seq<Byte> {
    if opts == [] then []
    else
      (if opts[0].data == [] then [] else [opts[0].code, |opts[0].data| % 256] + opts[0].data)
      + EncodeOptions(opts[1..])
  }

  predicate FitOptions(opts: seq<DHCPOption>) {
    forall i :: 0 <= i < |opts| ==> opts[i].code != 0 && opts[i].code != END && |opts[i].data| < 256
  }

  /** What options say, one after the other. */
  function Meaning(opts: seq<DHCPOption>, found: map<Byte, seq<Byte>>): map<Byte, seq<Byte>>
    decreases |opts|
  {
    if opts == [] then found
    else Meaning(opts[1..], if opts[0].data == [] then found else found[opts[0].code := opts[0].data])
  }

  /** Options that fit their length octet read back as what they say, whatever follows. */
  lemma {:induction false} OptionsRoundTrip(opts: seq<DHCPOption>, rest: seq<Byte>, found: map<Byte, seq<Byte>>)
    requires FitOptions(opts)
    ensures ParseOptions(EncodeOptions(opts) + [END] + rest, found) == Meaning(opts, found)
    decreases |opts|
  {
    hide ParseOptions;
    if opts == [] {
      EndOfOptions(rest, found);
    } else {
      var o := opts[0];
      var others := EncodeOptions(opts[1..]);
      var tail := others + [END] + rest;
      if o.data == [] {
        assert EncodeOptions(opts) == others;
        OptionsRoundTrip(opts[1..], rest, found);
      } else {
        assert EncodeOptions(opts) == [o.code, |o.data|] + o.data + others;
        Regroup([o.code, |o.data|] + o.data, others, [END], rest);
        OneOption(o, tail, found);
        OptionsRoundTrip(opts[1..], rest, found[o.code := o.data]);
      }
    }
  }

  lemma Regroup(a: seq<Byte>, b: seq<Byte>, c: seq<Byte>, d: seq<Byte>)
    ensures (a + b) + c + d == a + (b + c + d)
  {
  }

  lemma EndOfOptions(rest: seq<Byte>, found: map<Byte, seq<Byte>>)
    ensures ParseOptions(EncodeOptions([]) + [END] + rest, found) == found
  {
  }

  lemma OneOption(o: DHCPOption, tail: seq<Byte>, found: map<Byte, seq<Byte>>)
    requires o.code != 0 && o.code != END && |o.data| < 256
    ensures ParseOptions([o.code, |o.data|] + o.data + tail, found) == ParseOptions(tail, found[o.code := o.data])
  {
    var b := [o.code, |o.data|] + o.data + tail;
    assert b[2..2 + |o.data|] == o.data && b[2 + |o.data|..] == tail;
  }

  /** The index loop over options. */
  method ReadOptions(b: seq<Byte>) returns (opts: map<Byte, seq<Byte>>)
    ensures opts == ParseOptions(b, map[])
  {
    opts := map[];
    var i := 0;
    while i < |b|
      invariant 0 <= i <= |b| && ParseOptions(b, map[]) == ParseOptions(b[i..], opts)
    {
      var code := b[i];
      i := i + 1;
      if code == END {
        return;
      }
      if code == 0 {
        assert b[i - 1..][1..] == b[i..];
        continue;
      }
      if i >= |b| {
        return;
      }
      var l := b[i] as nat;
      i := i + 1;
      if i + l > |b| {
        return;
      }
      assert b[i - 2..][2..2 + l] == b[i..i + l] && b[i - 2..][2 + l..] == b[i + l..];
      opts := opts[code := b[i..i + l]];
      i := i + l;
    }
    assert b[i..] == [];
  }

  // --- frames ---

  function Four(data: seq<Byte>): Option<Address> {
    if |data| == 4 then Some(data) else None
  }

  function OptionData(opts: map<Byte, seq<Byte>>, code: Byte): seq<Byte> {
    if code in opts then opts[code] else []
  }

  /** The DHCP part of an Ethernet frame that carries a boot request to port 67. */
  function DHCPPart(frame: seq<Byte>): (r: Option<seq<Byte>>)
    ensures r.Some? ==> |r.value| >= 240
  {
    if |frame| < 14 + 20 + 8 + 240 || Get16(frame[12..14]) != 0x0800 then None
    else
      var ip := frame[14..];
      var ihl := (ip[0] % 16) as nat * 4;
      if |ip| < ihl + 8 + 240 || ip[9] != 17 then None
      else
        var udp := ip[ihl..];
        if Get16(udp[2..4]) != 67 then None
        else
          var d := udp[8..];
          if d[0] != 1 || d[1] != 1 || d[2] != 6 || Get32(d[236..240]) != COOKIE then None else Some(d)
  }

  function ParseFrame(frame: seq<Byte>): Option<Packet> {
    match DHCPPart(frame)
    case None => None
    case Some(d) =>
      var opts := ParseOptions(d[240..], map[]);
      var mt := OptionData(opts, MESSAGE_TYPE);
      if |mt| != 1 || mt[0] == 0 then None
      else Some(Packet(Get32(d[4..8]), d[28..34], d[12..16], Four(OptionData(opts, REQUESTED_IP)), mt[0]))
  }

  function OrZero(a: Option<Address>): Address {
    if a.Some? then a.value else [0, 0, 0, 0]
  }

  function OrNothing(a: Option<Address>): seq<Byte> {
    if a.Some? then a.value else []
  }

  function Payload(req: Packet, yiaddr: Address, opts: seq<DHCPOption>): (b: seq<Byte>)
    ensures |b| >= 241
  {
    [2, 1, 6, 0] + Put32(req.xid) + Zeros(8) + yiaddr + Zeros(8) + req.clientMAC + Zeros(202) + Put32(COOKIE)
    + EncodeOptions(opts) + [END]
  }

  /** The IPv4 header with its checksum field zero. */
  function PlainHeader(ipLen: nat, src: Address): (b: seq<Byte>)
    ensures |b| == 20
  {
    [0x45, 0] + Put16(ipLen % 0x1_0000) + [0, 0, 0, 0, 64, 17] + [0, 0] + src + [255, 255, 255, 255]
  }

  function Header(ipLen: nat, src: Address): (b: seq<Byte>)
    ensures |b| == 20
  {
    Checksum.With16(PlainHeader(ipLen, src), 10, Checksum.Sum(PlainHeader(ipLen, src)))
  }

  function EthernetHeader(dst: MAC, src: MAC): (b: seq<Byte>)
    ensures |b| == 14
  {
    dst + src + [8, 0]
  }

  function UDPHeader(udpLen: nat): (b: seq<Byte>)
    ensures |b| == 8
  {
    [0, 67, 0, 68] + Put16(udpLen % 0x1_0000) + [0, 0]
  }

  function Frame(req: Packet, srcMAC: MAC, src: Address, yiaddr: Address, opts: seq<DHCPOption>): seq<Byte> {
    var payload := Payload(req, yiaddr, opts);
    var udpLen := 8 + |payload|;
    EthernetHeader(req.clientMAC, srcMAC) + Header(20 + udpLen, src) + UDPHeader(udpLen) + payload
  }

  /** The header of every frame that is built verifies. */
  lemma FrameHeaderVerifies(req: Packet, srcMAC: MAC, src: Address, yiaddr: Address, opts: seq<DHCPOption>)
    ensures var f := Frame(req, srcMAC, src, yiaddr, opts);
            |f| >= 34 && Checksum.Sum(f[14..34]) == 0
  {
    hide Payload, Checksum.Sum, PlainHeader, Checksum.With16, EthernetHeader, UDPHeader;
    var f := Frame(req, srcMAC, src, yiaddr, opts);
    var ipLen := 28 + |Payload(req, yiaddr, opts)|;
    var plain := PlainHeader(ipLen, src);
    assert f[14..34] == Header(ipLen, src);
    FieldIsZero(ipLen, src);
    Checksum.ShortBuffersVerify(plain, 10);
  }

  lemma FieldIsZero(ipLen: nat, src: Address)
    ensures Checksum.With16(PlainHeader(ipLen, src), 10, 0) == PlainHeader(ipLen, src)
  {
    assert Put16(0) == [0, 0];
  }

  /** What a client reads off a reply: the message type and the address it is given. */
  function ReadBack(frame: seq<Byte>): (seq<Byte>, seq<Byte>)
    requires |frame| >= 282
  {
    (OptionData(ParseOptions(frame[282..], map[]), MESSAGE_TYPE), frame[58..62])
  }

  lemma FrameParts(req: Packet, srcMAC: MAC, src: Address, yiaddr: Address, opts: seq<DHCPOption>)
    ensures var f := Frame(req, srcMAC, src, yiaddr, opts);
            |f| >= 282 && f[282..] == EncodeOptions(opts) + [END] + [] && f[58..62] == yiaddr
  {
    hide Header, EncodeOptions, Put32, EthernetHeader, UDPHeader;
    var f := Frame(req, srcMAC, src, yiaddr, opts);
    var p := Payload(req, yiaddr, opts);
    assert f[42..] == p;
    assert p[240..] == EncodeOptions(opts) + [END];
    assert p[16..20] == yiaddr;
    assert f[282..] == f[42..][240..] && f[58..62] == f[42..][16..20];
  }

  // --- the gate ---

  function Hex(n: nat): char
    requires n < 16
  {
    "0123456789abcdef"[n]
  }

  function MACString(mac: MAC): string {
    var o := (i: nat) requires i < 6 => [Hex(mac[i] / 16), Hex(mac[i] % 16)];
    o(0) + ":" + o(1) + ":" + o(2) + ":" + o(3) + ":" + o(4) + ":" + o(5)
  }

  /** Lower-case hexadecimal, two digits an octet, colons in between. */
  lemma MACStringDigits(mac: MAC)
    ensures var s := MACString(mac);
            && |s| == 17 && s[2] == s[5] == s[8] == s[11] == s[14] == ':'
            && forall k :: 0 <= k < 6 ==> 16 * HexDigit(s[3 * k]) + HexDigit(s[3 * k + 1]) == mac[k] as int
  {
    hide Hex, HexDigit;
    forall k: nat | k < 6 ensures 16 * HexDigit(Hex(mac[k] / 16)) + HexDigit(Hex(mac[k] % 16)) == mac[k] as int {
      HexValue(mac[k] / 16);
      HexValue(mac[k] % 16);
    }
    DigitsInPlace(mac);
  }

  lemma DigitsInPlace(mac: MAC)
    ensures var s := MACString(mac);
            && |s| == 17 && s[2] == s[5] == s[8] == s[11] == s[14] == ':'
            && forall k :: 0 <= k < 6 ==> s[3 * k] == Hex(mac[k] / 16) && s[3 * k + 1] == Hex(mac[k] % 16)
  {
    hide Hex;
    var s := MACString(mac);
    forall k | 0 <= k < 6 ensures s[3 * k] == Hex(mac[k] / 16) && s[3 * k + 1] == Hex(mac[k] % 16) {
      if k == 0 {
      } else if k == 1 {
      } else if k == 2 {
      } else if k == 3 {
      } else if k == 4 {
      } else {
        assert k == 5;
      }
    }
  }

  function HexDigit(c: char): int {
    if 'a' <= c <= 'f' then 10 + c as int - 'a' as int else c as int - '0' as int
  }

  lemma HexValue(n: Byte)
    requires n < 16
    ensures HexDigit(Hex(n)) == n as int
  {
  }

  /** The session a client may have an address for, if it may have one. */
  function AuthorizedSession(cfg: DHCPConfig, st: Store, mac: MAC): Option<(Option<Session>, IPv4)> {
    if !cfg.requireAuthorized then Some((None, 0))
    else
      match LookupByMAC(st, MACString(mac))
      case None => None
      case Some(s) => if s.state != Active || s.subscriberIP.None? then None else Some((Some(s), s.subscriberIP.value))
  }

  function Concat(addresses: seq<Address>): seq<Byte> {
    if addresses == [] then [] else addresses[0] + Concat(addresses[1..])
  }

  function ReplyOptions(cfg: DHCPConfig, kind: Byte): seq<DHCPOption> {
    [DHCPOption(MESSAGE_TYPE, [kind]), DHCPOption(SUBNET_MASK, OrNothing(cfg.netmask)),
     DHCPOption(ROUTER, OrNothing(cfg.router)), DHCPOption(DNS_SERVER, Concat(cfg.dns)),
     DHCPOption(LEASE_TIME, Put32(cfg.leaseTime)), DHCPOption(SERVER_IDENTIFIER, OrNothing(cfg.serverIdentifier)),
     DHCPOption(RENEWAL_TIME, Put32(cfg.renewalTime)), DHCPOption(REBINDING_TIME, Put32(cfg.rebindingTime))]
  }

  function NAKOptions(cfg: DHCPConfig): seq<DHCPOption> {
    [DHCPOption(MESSAGE_TYPE, [NAK]), DHCPOption(SERVER_IDENTIFIER, OrNothing(cfg.serverIdentifier))]
  }

  function BuildReply(cfg: DHCPConfig, srcMAC: MAC, p: Packet, ip: IPv4, kind: Byte): seq<Byte> {
    Frame(p, srcMAC, OrZero(cfg.serverIdentifier), Put32(ip), ReplyOptions(cfg, kind))
  }

  function BuildNAK(cfg: DHCPConfig, srcMAC: MAC, p: Packet): seq<Byte> {
    Frame(p, srcMAC, OrZero(cfg.serverIdentifier), [0, 0, 0, 0], NAKOptions(cfg))
  }

  /** The address a request is about: the requested one, else the one the client has. */
  function Requested(p: Packet): Address {
    if p.requestedIP.Some? then p.requestedIP.value else p.clientIP
  }

  /** The reply to a parsed request; recovering says that a recovery record waits for the client. */
  function Answer(cfg: DHCPConfig, srcMAC: MAC, st: Store, p: Packet, recovering: bool): Option<seq<Byte>> {
    match AuthorizedSession(cfg, st, p.clientMAC)
    case None =>
      if p.messageType == REQUEST && recovering && cfg.nakStaleRequests then Some(BuildNAK(cfg, srcMAC, p)) else None
    case Some((_, ip)) =>
      if p.messageType == DISCOVER then Some(BuildReply(cfg, srcMAC, p, ip, OFFER))
      else if p.messageType == REQUEST then
        Some(if Requested(p) != Put32(ip) then BuildNAK(cfg, srcMAC, p) else BuildReply(cfg, srcMAC, p, ip, ACK))
      else None
  }

  lemma NAKReadsBack(cfg: DHCPConfig, srcMAC: MAC, p: Packet)
    ensures var f := BuildNAK(cfg, srcMAC, p);
            |f| >= 282 && ReadBack(f) == ([NAK], [0, 0, 0, 0])
  {
    hide Frame, ParseOptions, EncodeOptions, Meaning;
    var opts := NAKOptions(cfg);
    FrameParts(p, srcMAC, OrZero(cfg.serverIdentifier), [0, 0, 0, 0], opts);
    OptionsRoundTrip(opts, [], map[]);
    NAKMeaning(cfg);
  }

  lemma NAKMeaning(cfg: DHCPConfig)
    ensures OptionData(Meaning(NAKOptions(cfg), map[]), MESSAGE_TYPE) == [NAK]
  {
    var opts := NAKOptions(cfg);
    var said := map[MESSAGE_TYPE := [NAK]];
    assert opts[1..][0] == opts[1] && opts[1..][1..] == [];
    assert Meaning(opts[1..], said) == if opts[1].data == [] then said else said[SERVER_IDENTIFIER := opts[1].data];
  }

  /** An answer that reads as Offer or Ack was built for the client's own authorized session. */
  lemma AnswerIsGated(cfg: DHCPConfig, srcMAC: MAC, st: Store, p: Packet, recovering: bool)
    ensures var a := Answer(cfg, srcMAC, st, p, recovering);
            && (a.Some? ==> |a.value| >= 282)
            && (ReadsAsGrant(a) ==>
                  && AuthorizedSession(cfg, st, p.clientMAC).Some?
                  && ReadBack(a.value).1 == Put32(AuthorizedSession(cfg, st, p.clientMAC).value.1))
  {
    hide ReadBack, Frame;
    NAKReadsBack(cfg, srcMAC, p);
    var s := AuthorizedSession(cfg, st, p.clientMAC);
    if s.Some? {
      ReplyReadsBack(cfg, srcMAC, p, s.value.1, OFFER);
      ReplyReadsBack(cfg, srcMAC, p, s.value.1, ACK);
    }
  }

  lemma ReplyReadsBack(cfg: DHCPConfig, srcMAC: MAC, p: Packet, ip: IPv4, kind: Byte)
    ensures var f := BuildReply(cfg, srcMAC, p, ip, kind);
            |f| >= 282 && ReadBack(f).1 == Put32(ip)
  {
    FrameParts(p, srcMAC, OrZero(cfg.serverIdentifier), Put32(ip), ReplyOptions(cfg, kind));
  }

  predicate ReadsAsGrant(reply: Option<seq<Byte>>) {
    reply.Some? && |reply.value| >= 282 && (ReadBack(reply.value).0 == [OFFER] || ReadBack(reply.value).0 == [ACK])
  }

  /** Over whole runs of the session manager: with authorization required, any reply that a
      client reads as Offer or Ack, however the options of the configuration run into each
      other, gives it the address of a session that is stored, Active and its own by MAC; and
      that session went through Authorized. */
  lemma OnlyAuthorizedClientsGetAddresses(
    ops: seq<Op>, cfg: DHCPConfig, srcMAC: MAC, p: Packet, recovering: bool)
    returns (id: SessionID, i: nat)
    requires cfg.requireAuthorized && NeverPlantsMissingIP(Empty, ops)
    ensures var st := Run(Empty, ops);
            var a := Answer(cfg, srcMAC, st, p, recovering);
            ReadsAsGrant(a) ==>
              && id in st.byID && st.byID[id].state == Active && st.byID[id].mac == MACString(p.clientMAC)
              && st.byID[id].subscriberIP.Some? && ReadBack(a.value).1 == Put32(st.byID[id].subscriberIP.value)
              && st.byID[id].authorized && AuthorizedAt(ops, i, id)
  {
    hide ReadBack, Answer, MACString, Run, Sound;
    var st := Run(Empty, ops);
    id, i := 0, 0;
    if ReadsAsGrant(Answer(cfg, srcMAC, st, p, recovering)) {
      AnswerIsGated(cfg, srcMAC, st, p, recovering);
      LookupsAreHonest(ops, "", MACString(p.clientMAC), None, 0);
      RunWellFormed(ops);
      id := st.byMAC[MACString(p.clientMAC)];
      i := WentThroughAuthorized(ops, id);
    }
  }

  // --- what replies carry, and which reply a client gets ---

  /** The frame around a reply: addressed to the client, IPv4 and UDP from port 67 to port 68, a
      boot reply over Ethernet with the client's transaction and hardware address, the address it
      is given, and the cookie in front of the options. */
  lemma FrameFields(req: Packet, srcMAC: MAC, src: Address, yiaddr: Address, opts: seq<DHCPOption>)
    ensures var f := Frame(req, srcMAC, src, yiaddr, opts);
            && |f| >= 283 && f[0..6] == req.clientMAC && f[6..12] == srcMAC && f[12..14] == [8, 0]
            && f[14] == 69 && f[23] == 17 && f[26..30] == src && f[30..34] == [255, 255, 255, 255]
            && f[34..38] == [0, 67, 0, 68]
            && f[42] == 2 && f[43] == 1 && f[44] == 6 && Word32At(f, 46) == req.xid
            && f[58..62] == yiaddr && f[70..76] == req.clientMAC && f[278..282] == [99, 130, 83, 99]
            && f[282..] == EncodeOptions(opts) + [END]
  {
    hide Header, EncodeOptions, Put32, Checksum.Sum, Word32At;
    var f := Frame(req, srcMAC, src, yiaddr, opts);
    var p := Payload(req, yiaddr, opts);
    CookieOctets();
    var ipLen := 28 + |p|;
    assert f[14..34] == Header(ipLen, src);
    HeaderFields(ipLen, src);
    assert f[14] == f[14..34][0] && f[23] == f[14..34][9] && f[26..30] == f[14..34][12..16] && f[30..34] == f[14..34][16..20];
    assert f[42..] == p;
    assert p[4..8] == Put32(req.xid) && f[46..50] == p[4..8];
    Written32(f, 46, req.xid);
    assert p[16..20] == yiaddr && p[28..34] == req.clientMAC && p[236..240] == Put32(COOKIE);
    assert f[58..62] == p[16..20] && f[70..76] == p[28..34] && f[278..282] == p[236..240];
    assert p[240..] == EncodeOptions(opts) + [END] && f[282..] == p[240..];
  }

  lemma CookieOctets()
    ensures Put32(COOKIE) == [99, 130, 83, 99]
  {
  }

  lemma HeaderFields(ipLen: nat, src: Address)
    ensures var h := Header(ipLen, src);
            h[0] == 69 && h[9] == 17 && h[12..16] == src && h[16..20] == [255, 255, 255, 255]
  {
    hide Checksum.Sum, Put16;
    var plain := PlainHeader(ipLen, src);
    assert plain[12..16] == src && plain[16..20] == [255, 255, 255, 255];
    var h := Header(ipLen, src);
    assert h[12..16] == plain[12..16] && h[16..20] == plain[16..20];
  }

  /** Is option code there with these data, or absent when there is nothing to say? */
  predicate Says(opts: map<Byte, seq<Byte>>, code: Byte, data: seq<Byte>) {
    if data == [] then code !in opts else code in opts && opts[code] == data
  }

  /** What the options of an Offer or an Ack read back as, for up to 63 name servers: its type,
      the mask, the router, the name servers, and the lease, renewal and rebinding times. */
  lemma ReplyOptionsReadBack(cfg: DHCPConfig, srcMAC: MAC, p: Packet, ip: IPv4, kind: Byte)
    requires |cfg.dns| <= 63
    ensures var f := BuildReply(cfg, srcMAC, p, ip, kind);
            |f| >= 283 &&
            var opts := ParseOptions(f[282..], map[]);
            && Says(opts, 53, [kind]) && Says(opts, 1, OrNothing(cfg.netmask)) && Says(opts, 3, OrNothing(cfg.router))
            && Says(opts, 6, Concat(cfg.dns)) && Says(opts, 54, OrNothing(cfg.serverIdentifier))
            && Says(opts, 51, Put32(cfg.leaseTime)) && Says(opts, 58, Put32(cfg.renewalTime))
            && Says(opts, 59, Put32(cfg.rebindingTime))
  {
    hide Frame, ParseOptions, EncodeOptions, Meaning, Put32, Concat, Says;
    var opts := ReplyOptions(cfg, kind);
    FrameFields(p, srcMAC, OrZero(cfg.serverIdentifier), Put32(ip), opts);
    ConcatLength(cfg.dns);
    OptionsRoundTrip(opts, [], map[]);
    assert EncodeOptions(opts) + [END] + [] == EncodeOptions(opts) + [END];
    ReplyMeaning(cfg, kind);
  }

  lemma {:induction false} ConcatLength(addresses: seq<Address>)
    ensures |Concat(addresses)| == 4 * |addresses|
    ensures forall i :: 0 <= i < |addresses| ==> Concat(addresses)[4 * i..4 * i + 4] == addresses[i]
  {
    if addresses != [] {
      ConcatLength(addresses[1..]);
      forall i | 0 <= i < |addresses| ensures Concat(addresses)[4 * i..4 * i + 4] == addresses[i] {
        if i > 0 {
          assert Concat(addresses)[4 * i..4 * i + 4] == Concat(addresses[1..])[4 * (i - 1)..4 * (i - 1) + 4];
        }
      }
    }
  }

  function Adding(found: map<Byte, seq<Byte>>, o: DHCPOption): map<Byte, seq<Byte>> {
    if o.data == [] then found else found[o.code := o.data]
  }

  lemma {:induction false} MeaningOfEight(o: seq<DHCPOption>, found: map<Byte, seq<Byte>>)
    requires |o| == 8
    ensures Meaning(o, found)
         == Adding(Adding(Adding(Adding(Adding(Adding(Adding(Adding(found, o[0]), o[1]), o[2]), o[3]), o[4]), o[5]), o[6]), o[7])
  {
    hide Adding;
    var f1 := Adding(found, o[0]);
    var f2 := Adding(f1, o[1]);
    var f3 := Adding(f2, o[2]);
    var f4 := Adding(f3, o[3]);
    MeaningStep(o, found);
    MeaningStep(o[1..], f1);
    MeaningStep(o[2..], f2);
    MeaningStep(o[3..], f3);
    MeaningStep(o[4..], f4);
    MeaningStep(o[5..], Adding(f4, o[4]));
    MeaningStep(o[6..], Adding(Adding(f4, o[4]), o[5]));
    MeaningStep(o[7..], Adding(Adding(Adding(f4, o[4]), o[5]), o[6]));
  }

  lemma MeaningStep(o: seq<DHCPOption>, found: map<Byte, seq<Byte>>)
    requires o != []
    ensures Meaning(o, found) == Meaning(o[1..], Adding(found, o[0]))
    ensures |o| == 1 ==> Meaning(o, found) == Adding(found, o[0])
    ensures forall i: nat :: i < |o| ==> o[i..][1..] == o[i + 1..]
  {
  }

  lemma ReplyMeaning(cfg: DHCPConfig, kind: Byte)
    ensures var opts := Meaning(ReplyOptions(cfg, kind), map[]);
            && Says(opts, 53, [kind]) && Says(opts, 1, OrNothing(cfg.netmask)) && Says(opts, 3, OrNothing(cfg.router))
            && Says(opts, 6, Concat(cfg.dns)) && Says(opts, 54, OrNothing(cfg.serverIdentifier))
            && Says(opts, 51, Put32(cfg.leaseTime)) && Says(opts, 58, Put32(cfg.renewalTime))
            && Says(opts, 59, Put32(cfg.rebindingTime))
  {
    hide Meaning, Put32, Concat;
    MeaningOfEight(ReplyOptions(cfg, kind), map[]);
  }

  /** Which reply a client of an authorized session gets: an Offer of its address for a Discover,
      an Ack for a Request of just that address, a NAK for a Request of another one, and nothing
      for anything else. */
  lemma ServedAsAuthorized(cfg: DHCPConfig, srcMAC: MAC, st: Store, p: Packet, recovering: bool, s: Session, ip: IPv4, now: Time)
    requires cfg.requireAuthorized && |cfg.dns| <= 63
    requires LookupByMAC(st, MACString(p.clientMAC)) == Some(s) && s.state == Active && s.subscriberIP == Some(ip)
    ensures var a := Answer(cfg, srcMAC, st, p, recovering);
            var asked := if p.requestedIP.Some? then p.requestedIP.value else p.clientIP;
            if p.messageType == 1 then a.Some? && |a.value| >= 282 && ReadBack(a.value) == ([2], Put32(ip))
            else if p.messageType == 3 then
              a.Some? && |a.value| >= 282
              && ReadBack(a.value) == if asked == Put32(ip) then ([5], Put32(ip)) else ([6], [0, 0, 0, 0])
            else a == None
    ensures var asked := if p.requestedIP.Some? then p.requestedIP.value else p.clientIP;
            LeaseFor(cfg, st, p, now) == if p.messageType == 3 && asked == Put32(ip)
                                         then Some(Lease(Some(s.id), ip, now + cfg.leaseTime)) else None
  {
    hide Frame, ParseOptions, EncodeOptions, MACString, Put32;
    NAKReadsBack(cfg, srcMAC, p);
    KindReadsBack(cfg, srcMAC, p, ip, OFFER);
    KindReadsBack(cfg, srcMAC, p, ip, ACK);
  }

  lemma KindReadsBack(cfg: DHCPConfig, srcMAC: MAC, p: Packet, ip: IPv4, kind: Byte)
    requires |cfg.dns| <= 63
    ensures var f := BuildReply(cfg, srcMAC, p, ip, kind); |f| >= 282 && ReadBack(f) == ([kind], Put32(ip))
  {
    hide Frame, ParseOptions, EncodeOptions, Put32;
    ReplyOptionsReadBack(cfg, srcMAC, p, ip, kind);
    FrameFields(p, srcMAC, OrZero(cfg.serverIdentifier), Put32(ip), ReplyOptions(cfg, kind));
  }

  /** Who has no Active session with an address gets no address: a NAK for a stale Request during
      a recovery if that is configured, and otherwise nothing. */
  lemma RefusedWithoutSession(cfg: DHCPConfig, srcMAC: MAC, st: Store, p: Packet, recovering: bool, now: Time)
    requires cfg.requireAuthorized
    requires match LookupByMAC(st, MACString(p.clientMAC))
             case None => true
             case Some(s) => s.state != Active || s.subscriberIP.None?
    ensures var a := Answer(cfg, srcMAC, st, p, recovering);
            if p.messageType == 3 && recovering && cfg.nakStaleRequests
            then a.Some? && |a.value| >= 282 && ReadBack(a.value) == ([6], [0, 0, 0, 0])
            else a == None
    ensures LeaseFor(cfg, st, p, now) == None
  {
    hide Frame, ParseOptions, EncodeOptions, MACString;
    NAKReadsBack(cfg, srcMAC, p);
  }

  lemma MagicNumbers()
    ensures Get16([8, 0]) == 0x0800 && Get16([0, 67]) == 67 && Get32([99, 130, 83, 99]) == COOKIE
  {
    BigEndian(0, [8, 0]);
    BigEndian(0, [0, 67]);
    BigEndian(0, [99, 130, 83, 99]);
  }

  lemma Joined(a: seq<Byte>, b: seq<Byte>)
    ensures (a + b)[|a|..] == b && (a + b)[..|a|] == a
  {
  }

  lemma PartIsFound(eth: seq<Byte>, ipRest: seq<Byte>, addresses: seq<Byte>, ports: seq<Byte>, udpRest: seq<Byte>, d: seq<Byte>)
    requires |eth| == 12 && |ipRest| == 8 && |addresses| == 10 && |ports| == 2 && |udpRest| == 4 && |d| >= 240
    requires d[0] == 1 && d[1] == 1 && d[2] == 6 && d[236..240] == [99, 130, 83, 99]
    ensures DHCPPart((eth + [8, 0]) + (([69] + ipRest + [17] + addresses) + ((ports + [0, 67] + udpRest) + d))) == Some(d)
  {
    hide Get32, Get16;
    var head := [69] + ipRest + [17] + addresses;
    var ports8 := ports + [0, 67] + udpRest;
    var udp := ports8 + d;
    var frame := (eth + [8, 0]) + (head + udp);
    Joined(eth + [8, 0], head + udp);
    Joined(head, udp);
    Joined(ports8, d);
    assert frame[12..14] == [8, 0] && (head + udp)[0] == head[0] == 69 && (head + udp)[9] == head[9] == 17;
    assert udp[2..4] == ports8[2..4] == [0, 67];
    MagicNumbers();
  }

  /** A request as clients send it, over IPv4 and UDP to port 67, with the address it asks for if
      there is one, is read as it is meant. */
  lemma RequestIsRead(eth: seq<Byte>, ipRest: seq<Byte>, addresses: seq<Byte>, ports: seq<Byte>, udpRest: seq<Byte>,
                      hops: Byte, xid: Word32, flags: seq<Byte>, ciaddr: Address, others: seq<Byte>, mac: MAC, names: seq<Byte>,
                      kind: Byte, asked: Option<Address>)
    requires |eth| == 12 && |ipRest| == 8 && |addresses| == 10 && |ports| == 2 && |udpRest| == 4
    requires |flags| == 4 && |others| == 12 && |names| == 202 && kind != 0
    ensures var d := [1, 1, 6, hops] + Put32(xid) + flags + ciaddr + others + mac + names + [99, 130, 83, 99]
                     + OptionsSent(kind, asked);
            ParseFrame((eth + [8, 0]) + (([69] + ipRest + [17] + addresses) + ((ports + [0, 67] + udpRest) + d)))
            == Some(Packet(xid, mac, ciaddr, asked, kind))
  {
    hide ParseOptions, Put32, Get32, DHCPPart, OptionsSent;
    var options := OptionsSent(kind, asked);
    var d := [1, 1, 6, hops] + Put32(xid) + flags + ciaddr + others + mac + names + [99, 130, 83, 99] + options;
    assert d[4..8] == Put32(xid) && d[12..16] == ciaddr && d[28..34] == mac && d[236..240] == [99, 130, 83, 99] && d[240..] == options;
    PartIsFound(eth, ipRest, addresses, ports, udpRest, d);
    RoundTrip32(xid, []);
    OptionsOfRequest(kind, asked);
  }

  /** The message type, and the address asked for. */
  function OptionsSent(kind: Byte, asked: Option<Address>): seq<Byte> {
    [53, 1] + [kind] + ((if asked.Some? then [50, 4] + asked.value else []) + [255])
  }

  lemma OptionsOfRequest(kind: Byte, asked: Option<Address>)
    ensures ParseOptions(OptionsSent(kind, asked), map[])
         == (if asked.Some? then map[53 := [kind], 50 := asked.value] else map[53 := [kind]])
  {
    hide ParseOptions;
    var tail := (if asked.Some? then [50, 4] + asked.value else []) + [255];
    OneOption(DHCPOption(53, [kind]), tail, map[]);
    assert [255] == EncodeOptions([]) + [END] + [];
    EndOfOptions([], map[53 := [kind]]);
    if asked.Some? {
      OneOption(DHCPOption(50, asked.value), [255], map[53 := [kind]]);
      EndOfOptions([], map[53 := [kind], 50 := asked.value]);
      assert map[53 := [kind]][50 := asked.value] == map[53 := [kind], 50 := asked.value];
    } else {
      assert tail == [255];
    }
  }

  // --- recoveries set off by clients without a session ---

  /** What is kept of a session that was lost, as far as the server uses it. */
  datatype Tombstone = Tombstone(oldSessionID: string, mac: Option<string>)

  /** Under what an earlier attempt is remembered. */
  datatype AttemptKey = OfTombstone(name: string) | OfAuthCache(mac: string)

  datatype Attempt = Attempt(key: AttemptKey, at: nat)

  /** In milliseconds. */
  function Pause(key: AttemptKey): nat {
    if key.OfTombstone? then 5000 else 2000
  }

  /** A lost session is remembered by its id, or else by the MAC address of its client. */
  function TombstoneKey(cfg: DHCPConfig, t: Tombstone): Option<AttemptKey> {
    if !cfg.hasRecoveryHandler then None
    else if t.oldSessionID != "" then Some(OfTombstone(t.oldSessionID))
    else if t.mac.Some? && t.mac.value != "" then Some(OfTombstone(t.mac.value))
    else None
  }

  /** The recovery a frame calls for: of a lost session by a Discover alone, otherwise from the
      authorization cache; neither for a client that is served. */
  function Wanted(cfg: DHCPConfig, st: Store, p: Packet, tombstone: Option<Tombstone>): Option<AttemptKey> {
    if AuthorizedSession(cfg, st, p.clientMAC).Some? || (p.messageType != DISCOVER && p.messageType != REQUEST) then None
    else match tombstone
      case None => if cfg.recoverFromAuthCache then Some(OfAuthCache(MACString(p.clientMAC))) else None
      case Some(t) => if p.messageType == DISCOVER then TombstoneKey(cfg, t) else None
  }

  /** Who is served sets off no recovery. Who has no Active session with an address sets off one
      of the lost session with a Discover, or one from the authorization cache if no session is
      known to be lost. */
  lemma RecoveryGrounds(cfg: DHCPConfig, st: Store, p: Packet, tombstone: Option<Tombstone>)
    requires cfg.requireAuthorized && (p.messageType == 1 || p.messageType == 3)
    ensures var found := LookupByMAC(st, MACString(p.clientMAC));
            var want := Wanted(cfg, st, p, tombstone);
            if found.Some? && found.value.state == Active && found.value.subscriberIP.Some? then want == None
            else if tombstone.None? then
              want == if cfg.recoverFromAuthCache then Some(OfAuthCache(MACString(p.clientMAC))) else None
            else
              var t := tombstone.value;
              && (want.Some? <==> p.messageType == 1 && cfg.hasRecoveryHandler && (t.oldSessionID != "" || (t.mac.Some? && t.mac.value != "")))
              && (want.Some? ==> want == Some(OfTombstone(if t.oldSessionID != "" then t.oldSessionID else t.mac.value)))
  {
    hide MACString;
  }

  predicate Rested(attempts: map<AttemptKey, nat>, key: AttemptKey, clock: nat) {
    key !in attempts || clock - attempts[key] >= Pause(key)
  }

  /** The attempts that go through, of all that are wanted. */
  function Started(attempts: map<AttemptKey, nat>, wanted: seq<Attempt>): seq<Attempt>
    decreases |wanted|
  {
    if wanted == [] then []
    else if Rested(attempts, wanted[0].key, wanted[0].at)
    then [wanted[0]] + Started(attempts[wanted[0].key := wanted[0].at], wanted[1..])
    else Started(attempts, wanted[1..])
  }

  predicate Spaced(started: seq<Attempt>) {
    forall i, j :: 0 <= i < j < |started| && started[i].key == started[j].key ==>
      started[j].at - started[i].at >= Pause(started[i].key)
  }

  /** Recoveries for one client or one lost session keep their pause, however often the client
      asks and whatever the clock does; and who has not asked before is not held back. */
  lemma {:induction false} RecoveriesAreSpaced(attempts: map<AttemptKey, nat>, wanted: seq<Attempt>)
    ensures var started := Started(attempts, wanted);
            && Spaced(started)
            && (forall i :: 0 <= i < |started| && started[i].key in attempts ==>
                  started[i].at - attempts[started[i].key] >= Pause(started[i].key))
            && (forall i :: 0 <= i < |wanted| && wanted[i].key !in attempts ==> exists a :: a in started && a.key == wanted[i].key)
    decreases |wanted|
  {
    if wanted != [] {
      var first := wanted[0];
      var on := Rested(attempts, first.key, first.at);
      var attempts' := if on then attempts[first.key := first.at] else attempts;
      RecoveriesAreSpaced(attempts', wanted[1..]);
      var rest := Started(attempts', wanted[1..]);
      var started := Started(attempts, wanted);
      assert on ==> started == [first] + rest;
      forall i | 0 <= i < |wanted| && wanted[i].key !in attempts ensures exists a :: a in started && a.key == wanted[i].key {
        if wanted[i].key == first.key {
          assert first in started;
        } else {
          assert wanted[1..][i - 1] == wanted[i];
          var a :| a in rest && a.key == wanted[i].key;
          assert a in started;
        }
      }
    }
  }

  // --- the server ---

  datatype Lease = Lease(id: Option<SessionID>, ip: IPv4, expiresAt: Time)

  /** The lease that goes with an Ack: only a request for the session's own address has one. */
  function LeaseFor(cfg: DHCPConfig, st: Store, p: Packet, now: Time): Option<Lease> {
    match AuthorizedSession(cfg, st, p.clientMAC)
    case None => None
    case Some((s, ip)) =>
      if p.messageType == REQUEST && Requested(p) == Put32(ip)
      then Some(Lease(if s.Some? then Some(s.value.id) else None, ip, now + cfg.leaseTime))
      else None
  }

  /** Fills the IPv4 header of a frame, the checksum last. */
  method FillHeader(frame: array<Byte>, ipLen: nat, src: Address)
    requires frame.Length >= 34 && forall j :: 14 <= j < 34 ==> frame[j] == 0
    modifies frame
    ensures frame[14..34] == Header(ipLen, src) && frame[..14] == old(frame[..14])
    ensures forall j :: 34 <= j < frame.Length ==> frame[j] == old(frame[j])
  {
    hide Put16, Checksum.Sum;
    frame[14] := 0x45;
    assert frame[14..16] == [0x45, 0];
    CopyInto(frame, 16, Put16(ipLen % 0x1_0000));
    assert frame[14..18] == [0x45, 0] + Put16(ipLen % 0x1_0000);
    frame[22], frame[23] := 64, 17;
    assert frame[14..26] == [0x45, 0] + Put16(ipLen % 0x1_0000) + [0, 0, 0, 0, 64, 17] + [0, 0] by {
      assert frame[14..26] == frame[14..18] + [0, 0, 0, 0, 64, 17] + [0, 0];
    }
    CopyInto(frame, 26, src);
    assert frame[14..30] == frame[14..26] + src;
    CopyInto(frame, 30, [255, 255, 255, 255]);
    assert frame[14..34] == frame[14..30] + [255, 255, 255, 255];
    ghost var plain := PlainHeader(ipLen, src);
    assert frame[14..34] == plain;
    var sum := Checksum.ComputeChecksum(frame[14..34]);
    assert sum == Checksum.Sum(plain);
    CopyInto(frame, 24, Put16(sum));
    assert frame[14..34] == plain[..10] + Put16(sum) + plain[12..];
    assert Header(ipLen, src) == Checksum.With16(plain, 10, sum);
  }

  method FillEthernet(frame: array<Byte>, dst: MAC, src: MAC)
    requires frame.Length >= 14
    modifies frame
    ensures frame[..14] == EthernetHeader(dst, src)
    ensures forall j :: 14 <= j < frame.Length ==> frame[j] == old(frame[j])
  {
    CopyInto(frame, 0, dst);
    CopyInto(frame, 6, src);
    assert frame[..12] == dst + src;
    CopyInto(frame, 12, [8, 0]);
    assert frame[..14] == frame[..12] + [8, 0];
  }

  method FillUDP(frame: array<Byte>, udpLen: nat)
    requires frame.Length >= 42 && frame[40] == frame[41] == 0
    modifies frame
    ensures frame[34..42] == UDPHeader(udpLen)
    ensures forall j :: 0 <= j < 34 || 42 <= j < frame.Length ==> frame[j] == old(frame[j])
  {
    hide Put16;
    CopyInto(frame, 34, [0, 67, 0, 68]);
    CopyInto(frame, 38, Put16(udpLen % 0x1_0000));
    assert frame[34..42] == frame[34..38] + frame[38..40] + [0, 0];
  }

  /** Builds a reply frame in one buffer. */
  method BuildFrame(req: Packet, srcMAC: MAC, src: Address, yiaddr: Address, opts: seq<DHCPOption>) returns (frame: array<Byte>)
    ensures fresh(frame) && frame[..] == Frame(req, srcMAC, src, yiaddr, opts)
  {
    hide Header, Payload, EthernetHeader, UDPHeader;
    var payload := Payload(req, yiaddr, opts);
    var udpLen := 8 + |payload|;
    frame := new Byte[34 + udpLen](_ => 0);
    FillEthernet(frame, req.clientMAC, srcMAC);
    FillHeader(frame, 20 + udpLen, src);
    FillUDP(frame, udpLen);
    CopyInto(frame, 42, payload);
    assert frame[..14] == EthernetHeader(req.clientMAC, srcMAC);
    assert frame[14..34] == Header(20 + udpLen, src);
    assert frame[34..42] == UDPHeader(udpLen);
    assert frame[..] == frame[..14] + frame[14..34] + frame[34..42] + payload;
  }

  class Server {
    const cfg: DHCPConfig
    const srcMAC: MAC
    var leases: map<MAC, Lease>
    var attempts: map<AttemptKey, nat>

    constructor (cfg: DHCPConfig, srcMAC: MAC)
      ensures this.cfg == cfg && this.srcMAC == srcMAC && leases == map[] && attempts == map[]
    {
      this.cfg, this.srcMAC, this.leases, this.attempts := cfg, srcMAC, map[], map[];
    }

    /** Starts a recovery unless one for the same key was started a short while ago. */
    method Trigger(key: AttemptKey, clock: nat) returns (started: bool)
      modifies this`attempts
      ensures started <==> Rested(old(attempts), key, clock)
      ensures started <==> key !in old(attempts) || old(attempts)[key] + (if key.OfTombstone? then 5000 else 2000) <= clock
      ensures attempts == if started then old(attempts)[key := clock] else old(attempts)
    {
      if key in attempts && clock - attempts[key] < Pause(key) {
        return false;
      }
      attempts := attempts[key := clock];
      started := true;
    }

    method TriggerRecoveryAttach(t: Tombstone, clock: nat) returns (started: Option<AttemptKey>)
      modifies this`attempts
      ensures started == match TombstoneKey(cfg, t)
                         case Some(key) => if old(Rested(attempts, key, clock)) then Some(key) else None
                         case None => None
      ensures attempts == if started.Some? then old(attempts)[started.value := clock] else old(attempts)
    {
      var name := t.oldSessionID;
      if name == "" && t.mac.Some? {
        name := t.mac.value;
      }
      if !cfg.hasRecoveryHandler || name == "" {
        return None;
      }
      var ok := Trigger(OfTombstone(name), clock);
      started := if ok then Some(OfTombstone(name)) else None;
    }

    method TriggerAuthCacheRecovery(mac: MAC, clock: nat) returns (started: Option<AttemptKey>)
      modifies this`attempts
      ensures started == if cfg.recoverFromAuthCache && old(Rested(attempts, OfAuthCache(MACString(mac)), clock))
                         then Some(OfAuthCache(MACString(mac))) else None
      ensures attempts == if started.Some? then old(attempts)[started.value := clock] else old(attempts)
    {
      if !cfg.recoverFromAuthCache {
        return None;
      }
      var key := OfAuthCache(MACString(mac));
      var ok := Trigger(key, clock);
      started := if ok then Some(key) else None;
    }

    /** What a client without a session sets off, and whether it is answered. */
    method HandleUnauthorized(p: Packet, tombstone: Option<Tombstone>, ghost st: Store, clock: nat)
      returns (reply: Option<seq<Byte>>, started: Option<AttemptKey>)
      requires AuthorizedSession(cfg, st, p.clientMAC).None? && (p.messageType == DISCOVER || p.messageType == REQUEST)
      modifies this`attempts
      ensures reply == Answer(cfg, srcMAC, st, p, tombstone.Some?)
      ensures var want := Wanted(cfg, st, p, tombstone);
              && started == (if want.Some? && old(Rested(attempts, want.value, clock)) then want else None)
              && attempts == if started.Some? then old(attempts)[started.value := clock] else old(attempts)
    {
      hide Frame, AuthorizedSession, MACString, Rested;
      reply, started := None, None;
      if tombstone.None? {
        started := TriggerAuthCacheRecovery(p.clientMAC, clock);
      } else if p.messageType == DISCOVER {
        started := TriggerRecoveryAttach(tombstone.value, clock);
      } else if cfg.nakStaleRequests {
        var f := BuildFrame(p, srcMAC, OrZero(cfg.serverIdentifier), [0, 0, 0, 0], NAKOptions(cfg));
        reply := Some(f[..]);
      }
    }

    /** Answers one frame. A lease is recorded exactly with an Ack, for the address in it, and a
        recovery is started exactly for a client without a session, after its pause. */
    method HandleFrame(frame: seq<Byte>, st: Store, tombstone: Option<Tombstone>, now: Time, clock: nat)
      returns (reply: Option<seq<Byte>>, started: Option<AttemptKey>)
      modifies this
      ensures reply == match ParseFrame(frame) case None => None case Some(p) => Answer(cfg, srcMAC, st, p, tombstone.Some?)
      ensures leases == if ParseFrame(frame).Some? && LeaseFor(cfg, st, ParseFrame(frame).value, now).Some?
                        then old(leases)[ParseFrame(frame).value.clientMAC := LeaseFor(cfg, st, ParseFrame(frame).value, now).value]
                        else old(leases)
      ensures var want := if ParseFrame(frame).Some? then Wanted(cfg, st, ParseFrame(frame).value, tombstone) else None;
              && started == (if want.Some? && Rested(old(attempts), want.value, clock) then want else None)
              && attempts == if started.Some? then old(attempts)[started.value := clock] else old(attempts)
    {
      hide Frame, ParseFrame, Rested;
      var parsed := ParseFrame(frame);
      started := None;
      if parsed.None? {
        return None, None;
      }
      var p := parsed.value;
      var gate := AuthorizedSession(cfg, st, p.clientMAC);
      if p.messageType != DISCOVER && p.messageType != REQUEST {
        return None, None;
      }
      if gate.None? {
        reply, started := HandleUnauthorized(p, tombstone, st, clock);
        return;
      }
      var src := OrZero(cfg.serverIdentifier);
      var (s, ip) := gate.value;
      if p.messageType == DISCOVER {
        var f := BuildFrame(p, srcMAC, src, Put32(ip), ReplyOptions(cfg, OFFER));
        return Some(f[..]), None;
      }
      if Requested(p) != Put32(ip) {
        var f := BuildFrame(p, srcMAC, src, [0, 0, 0, 0], NAKOptions(cfg));
        return Some(f[..]), None;
      }
      var f := BuildFrame(p, srcMAC, src, Put32(ip), ReplyOptions(cfg, ACK));
      leases := leases[p.clientMAC := Lease(if s.Some? then Some(s.value.id) else None, ip, now + cfg.leaseTime)];
      reply := Some(f[..]);
    }
  }
}
