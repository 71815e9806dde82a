/** Diameter AVPs and messages as octets (sections 3, 4.1 and 4.4 of RFC 6733): encoders and
    decoders, and how they undo each other. */
module DiameterCodec {
  import opened Wrappers
  import opened Bytes

  /** The AVP flag that says that a vendor id follows. */
  const VENDOR_FLAG := 0x80

  datatype AVP = AVP(code: nat, vendor: nat, flags: Byte, data: seq<Byte>)

  datatype DecodeError =
    | HeaderTruncated | VendorTruncated | LengthInvalid | PaddingTruncated
    | EndOfStream | BadVersion | LengthTooShort

  /** Codes and vendor ids are 32-bit words. */
  predicate IsAVP(a: AVP) {
    a.code < 0x1_0000_0000 && a.vendor < 0x1_0000_0000
  }

  predicate AreAVPs(avps: seq<AVP>) {
    forall i :: 0 <= i < |avps| ==> IsAVP(avps[i])
  }

  function Pad4(n: nat): (r: nat)
    ensures n <= r < n + 4 && r % 4 == 0
  {
    if n % 4 != 0 then n + 4 - n % 4 else n
  }

  function HeaderSize(vendor: nat): nat {
    if vendor != 0 then 12 else 8
  }

  predicate HasVendorFlag(flags: Byte) {
    flags >= VENDOR_FLAG
  }

  function WithVendorFlag(flags: Byte, vendor: nat): Byte {
    if vendor != 0 && !HasVendorFlag(flags) then flags + VENDOR_FLAG else flags
  }

  /** The length field has 24 bits and does not count the padding. */
  function EncodeAVP(a: AVP): (b: seq<Byte>)
    requires IsAVP(a)
    ensures |b| == Pad4(HeaderSize(a.vendor) + |a.data|)
  {
    var length := HeaderSize(a.vendor) + |a.data|;
    AVPHeader(a) + a.data + Zeros(Pad4(length) - length)
  }

  function AVPHeader(a: AVP): (b: seq<Byte>)
    requires IsAVP(a)
    ensures |b| == HeaderSize(a.vendor)
  {
    Put32(a.code) + [WithVendorFlag(a.flags, a.vendor)] + Put24((HeaderSize(a.vendor) + |a.data|) % 0x100_0000)
    + if a.vendor != 0 then Put32(a.vendor) else []
  }

  function EncodeAVPs(avps: seq<AVP>): seq<Byte>
    requires AreAVPs(avps)
  {
    if avps == [] then [] else EncodeAVP(avps[0]) + EncodeAVPs(avps[1..])
  }

  lemma MultiplesOf4(a: nat, b: nat)
    requires a % 4 == 0 && b % 4 == 0
    ensures (a + b) % 4 == 0
  {
  }

  /** Every encoding is a multiple of four octets. */
  lemma {:induction false} EncodingIsPadded(avps: seq<AVP>)
    requires AreAVPs(avps)
    ensures |EncodeAVPs(avps)| % 4 == 0
  {
    hide EncodeAVP;
    if avps != [] {
      EncodingIsPadded(avps[1..]);
      MultiplesOf4(|EncodeAVP(avps[0])|, |EncodeAVPs(avps[1..])|);
    }
  }

  /** The first AVP of some octets, and the octets after its padding. */
  function DecodeAVP(b: seq<Byte>): (r: Result<(AVP, seq<Byte>), DecodeError>)
    ensures r.Ok? ==> IsAVP(r.value.0) && |r.value.1| < |b| && |r.value.0.data| < |b|
  {
    if |b| < 8 then Err(HeaderTruncated)
    else if HasVendorFlag(b[4]) && |b| < 12 then Err(VendorTruncated)
    else
      var length := Get24(b[5..8]);
      var header := if HasVendorFlag(b[4]) then 12 else 8;
      var vendor := if HasVendorFlag(b[4]) then Get32(b[8..12]) else 0;
      if length < header || |b| < length then Err(LengthInvalid)
      else if |b| < Pad4(length) then Err(PaddingTruncated)
      else Ok((AVP(Get32(b[..4]), vendor, b[4], b[header..length]), b[Pad4(length)..]))
  }

  function DecodeAVPs(b: seq<Byte>): (r: Result<seq<AVP>, DecodeError>)
    ensures r.Ok? ==> AreAVPs(r.value)
    decreases |b|
  {
    if b == [] then Ok([])
    else
      match DecodeAVP(b)
      case Err(e) => Err(e)
      case Ok((a, rest)) =>
        match DecodeAVPs(rest)
        case Err(e) => Err(e)
        case Ok(avps) => Ok([a] + avps)
  }

  /** An AVP without a vendor must not claim to have one, and its length must fit 24 bits. */
  predicate FitsAVP(a: AVP) {
    && (a.vendor == 0 ==> !HasVendorFlag(a.flags))
    && HeaderSize(a.vendor) + |a.data| < 0x100_0000
  }

  predicate FitAVPs(avps: seq<AVP>) {
    forall i :: 0 <= i < |avps| ==> FitsAVP(avps[i])
  }

  /** What comes back: the vendor flag says whether there is a vendor. */
  function Normal(a: AVP): AVP {
    a.(flags := WithVendorFlag(a.flags, a.vendor))
  }

  function Normals(avps: seq<AVP>): (r: seq<AVP>)
    ensures |r| == |avps|
  {
    if avps == [] then [] else [Normal(avps[0])] + Normals(avps[1..])
  }

  lemma DecodeAfterEncode(a: AVP, rest: seq<Byte>)
    requires IsAVP(a) && FitsAVP(a)
    ensures DecodeAVP(EncodeAVP(a) + rest) == Ok((Normal(a), rest))
  {
    hide Put32, Put24, Get32, Get24, Zeros;
    var b := EncodeAVP(a) + rest;
    var header := HeaderSize(a.vendor);
    var length := header + |a.data|;
    RoundTrip32(a.code, []);
    RoundTrip32(a.vendor, []);
    RoundTrip24(length, []);
    assert b[..4] == Put32(a.code);
    assert b[5..8] == Put24(length);
    assert a.vendor != 0 ==> b[8..12] == Put32(a.vendor);
    assert b[header..length] == a.data;
    assert b[Pad4(length)..] == rest;
  }

  /** Where the fields of an AVP are: the code, the flags with the vendor flag put right, the
      length without the padding, the vendor if there is one, the data, and zeros. */
  lemma AVPOctets(a: AVP)
    requires IsAVP(a) && FitsAVP(a)
    ensures var b := EncodeAVP(a);
            var header := if a.vendor != 0 then 12 else 8;
            var length := header + |a.data|;
            && Word32At(b, 0) == a.code
            && b[4] % 128 == a.flags % 128 && (b[4] >= 128 <==> a.vendor != 0)
            && Word24At(b, 5) == length
            && (a.vendor != 0 ==> Word32At(b, 8) == a.vendor)
            && length <= |b| < length + 4 && |b| % 4 == 0
            && b[header..length] == a.data && forall i :: length <= i < |b| ==> b[i] == 0
  {
    hide Put32, Put24, Word24At, Word32At;
    var b := EncodeAVP(a);
    var header := HeaderSize(a.vendor);
    assert b[0..4] == Put32(a.code);
    assert b[4] == WithVendorFlag(a.flags, a.vendor);
    assert b[5..8] == Put24(header + |a.data|);
    Written32(b, 0, a.code);
    Written24(b, 5, header + |a.data|);
    if a.vendor != 0 {
      assert b[8..12] == Put32(a.vendor);
      Written32(b, 8, a.vendor);
    }
  }

  /** An AVP that does not fit comes back with less data, if at all. */
  lemma UnfitLosesData(a: AVP, rest: seq<Byte>)
    requires IsAVP(a) && !FitsAVP(a)
    ensures var r := DecodeAVP(EncodeAVP(a) + rest);
            r.Ok? ==> |r.value.0.data| < |a.data|
  {
    hide Put32, Put24, Get32, Get24, Zeros;
    var b := EncodeAVP(a) + rest;
    var length := HeaderSize(a.vendor) + |a.data|;
    RoundTrip24(length % 0x100_0000, []);
    assert b[4] == WithVendorFlag(a.flags, a.vendor);
    assert b[5..8] == Put24(length % 0x100_0000);
  }

  /** A list of AVPs survives encoding and decoding, the vendor flags put right, exactly when
      every AVP fits. */
  lemma {:induction false} AVPListRoundTrip(avps: seq<AVP>)
    requires AreAVPs(avps)
    ensures DecodeAVPs(EncodeAVPs(avps)) == Ok(Normals(avps)) <==> FitAVPs(avps)
  {
    hide EncodeAVP, DecodeAVP;
    if avps != [] {
      var rest := EncodeAVPs(avps[1..]);
      AVPListRoundTrip(avps[1..]);
      assert FitAVPs(avps) <==> FitsAVP(avps[0]) && FitAVPs(avps[1..]);
      assert Normals(avps)[0] == Normal(avps[0]) && Normals(avps)[1..] == Normals(avps[1..]);
      var r := DecodeAVPs(EncodeAVPs(avps));
      if FitsAVP(avps[0]) {
        DecodeAfterEncode(avps[0], rest);
        if DecodeAVPs(rest).Ok? {
          assert r.value[1..] == DecodeAVPs(rest).value;
        }
      } else {
        UnfitLosesData(avps[0], rest);
        if r.Ok? {
          assert r.value[0] == DecodeAVP(EncodeAVP(avps[0]) + rest).value.0;
        }
      }
    }
  }

  // --- grouped AVPs ---

  datatype Node = Leaf(avp: AVP) | Group(code: nat, vendor: nat, flags: Byte, children: seq<Node>)

  predicate IsNode(n: Node) {
    match n
    case Leaf(a) => IsAVP(a)
    case Group(code, vendor, _, children) => code < 0x1_0000_0000 && vendor < 0x1_0000_0000 && AreNodes(children)
  }

  predicate AreNodes(ns: seq<Node>) {
    ns == [] || (IsNode(ns[0]) && AreNodes(ns[1..]))
  }

  /** A node as an AVP; the data of a group are its children, encoded. */
  function Flat(n: Node): (a: AVP)
    requires IsNode(n)
    ensures IsAVP(a)
    decreases n, 0
  {
    match n
    case Leaf(a) => a
    case Group(code, vendor, flags, children) => AVP(code, vendor, flags, EncodeNodes(children))
  }

  function EncodeNodes(ns: seq<Node>): seq<Byte>
    requires AreNodes(ns)
    decreases ns, 1
  {
    if ns == [] then [] else EncodeAVP(Flat(ns[0])) + EncodeNodes(ns[1..])
  }

  /** Decodes AVPs and, in those whose code is grouped, the AVPs of their data. */
  function DecodeNodes(b: seq<Byte>, grouped: set<nat>): Result<seq<Node>, DecodeError>
    decreases |b|
  {
    if b == [] then Ok([])
    else
      match DecodeAVP(b)
      case Err(e) => Err(e)
      case Ok((a, rest)) =>
        var first := if a.code !in grouped then Ok(Leaf(a))
                     else match DecodeNodes(a.data, grouped)
                          case Err(e) => Err(e)
                          case Ok(children) => Ok(Group(a.code, a.vendor, a.flags, children));
        match first
        case Err(e) => Err(e)
        case Ok(n) =>
          match DecodeNodes(rest, grouped)
          case Err(e) => Err(e)
          case Ok(ns) => Ok([n] + ns)
  }

  predicate FitsNode(n: Node, grouped: set<nat>)
    requires IsNode(n)
  {
    && FitsAVP(Flat(n))
    && match n
       case Leaf(a) => a.code !in grouped
       case Group(code, _, _, children) => code in grouped && FitNodes(children, grouped)
  }

  predicate FitNodes(ns: seq<Node>, grouped: set<nat>)
    requires AreNodes(ns)
  {
    ns == [] || (FitsNode(ns[0], grouped) && FitNodes(ns[1..], grouped))
  }

  function NormalNode(n: Node): Node {
    match n
    case Leaf(a) => Leaf(Normal(a))
    case Group(code, vendor, flags, children) => Group(code, vendor, WithVendorFlag(flags, vendor), NormalNodes(children))
  }

  function NormalNodes(ns: seq<Node>): seq<Node> {
    if ns == [] then [] else [NormalNode(ns[0])] + NormalNodes(ns[1..])
  }

  lemma {:induction false} FitTreeRoundTrip(ns: seq<Node>, grouped: set<nat>)
    requires AreNodes(ns) && FitNodes(ns, grouped)
    ensures DecodeNodes(EncodeNodes(ns), grouped) == Ok(NormalNodes(ns))
    decreases ns
  {
    hide EncodeAVP, DecodeAVP, FitsAVP;
    if ns != [] {
      FitTreeRoundTrip(ns[1..], grouped);
      DecodeAfterEncode(Flat(ns[0]), EncodeNodes(ns[1..]));
      if ns[0].Group? {
        FitTreeRoundTrip(ns[0].children, grouped);
      }
    }
  }

  /** Putting the vendor flags right changes no length. */
  lemma {:induction false} NormalLength(ns: seq<Node>)
    requires AreNodes(ns)
    ensures AreNodes(NormalNodes(ns)) && |EncodeNodes(NormalNodes(ns))| == |EncodeNodes(ns)|
    decreases ns
  {
    hide EncodeAVP, WithVendorFlag;
    if ns != [] {
      NormalLength(ns[1..]);
      if ns[0].Group? {
        NormalLength(ns[0].children);
      }
      assert NormalNodes(ns)[1..] == NormalNodes(ns[1..]);
    }
  }

  lemma DecodedAVPLength(b: seq<Byte>)
    ensures DecodeAVP(b).Ok? ==>
              var (a, rest) := DecodeAVP(b).value;
              |b| - |rest| >= Pad4(HeaderSize(a.vendor) + |a.data|) && IsAVP(a)
  {
    hide Get32, Get24;
  }

  lemma PadGrows(a: nat, b: nat)
    requires a <= b
    ensures Pad4(a) <= Pad4(b)
  {
  }

  /** Decoded nodes encode to no more octets than they came from. */
  lemma {:induction false} DecodedNodesLength(b: seq<Byte>, grouped: set<nat>)
    requires DecodeNodes(b, grouped).Ok?
    ensures AreNodes(DecodeNodes(b, grouped).value) && |EncodeNodes(DecodeNodes(b, grouped).value)| <= |b|
    decreases |b|
  {
    hide EncodeAVP, DecodeAVP, Pad4;
    if b != [] {
      var (a, rest) := DecodeAVP(b).value;
      var ns := DecodeNodes(b, grouped).value;
      DecodedAVPLength(b);
      DecodedNodesLength(rest, grouped);
      if a.code in grouped {
        DecodedNodesLength(a.data, grouped);
      }
      assert ns[1..] == DecodeNodes(rest, grouped).value;
      PadGrows(HeaderSize(a.vendor) + |Flat(ns[0]).data|, HeaderSize(a.vendor) + |a.data|);
    }
  }

  /** A node that is too long, or claims a vendor it has not, comes back changed, if at all. */
  lemma UnfitNodeIsLost(n: Node, rest: seq<Byte>, grouped: set<nat>)
    requires IsNode(n) && !FitsAVP(Flat(n))
    ensures var r := DecodeNodes(EncodeAVP(Flat(n)) + rest, grouped); r.Ok? ==> r.value[0] != NormalNode(n)
  {
    hide EncodeAVP, DecodeAVP, FitsAVP;
    var b := EncodeAVP(Flat(n)) + rest;
    UnfitLosesData(Flat(n), rest);
    if DecodeNodes(b, grouped).Ok? && n.Group? && DecodeAVP(b).value.0.code in grouped {
      var data := DecodeAVP(b).value.0.data;
      DecodedNodesLength(data, grouped);
      NormalLength(n.children);
    }
  }

  /** Trees of AVPs survive, the vendor flags put right, exactly when at every depth every AVP
      fits and exactly the grouped codes carry children. */
  lemma {:induction false} TreeRoundTrip(ns: seq<Node>, grouped: set<nat>)
    requires AreNodes(ns)
    ensures DecodeNodes(EncodeNodes(ns), grouped) == Ok(NormalNodes(ns)) <==> FitNodes(ns, grouped)
    decreases ns
  {
    hide EncodeAVP, DecodeAVP, FitsAVP, WithVendorFlag;
    if FitNodes(ns, grouped) {
      FitTreeRoundTrip(ns, grouped);
    } else if DecodeNodes(EncodeNodes(ns), grouped) == Ok(NormalNodes(ns)) {
      var rest := EncodeNodes(ns[1..]);
      assert NormalNodes(ns)[0] == NormalNode(ns[0]) && NormalNodes(ns)[1..] == NormalNodes(ns[1..]);
      if !FitsAVP(Flat(ns[0])) {
        UnfitNodeIsLost(ns[0], rest, grouped);
      } else {
        DecodeAfterEncode(Flat(ns[0]), rest);
        var r := DecodeNodes(EncodeNodes(ns), grouped).value;
        assert r[1..] == DecodeNodes(rest, grouped).value;
        TreeRoundTrip(ns[1..], grouped);
        if ns[0].Group? {
          TreeRoundTrip(ns[0].children, grouped);
        }
      }
    }
  }

  // --- messages on a stream ---

  datatype Msg = Msg(flags: Byte, command: nat, app: nat, hopByHop: nat, endToEnd: nat, avps: seq<AVP>)

  predicate IsMsg(m: Msg) {
    && m.command < 0x1_0000_0000 && m.app < 0x1_0000_0000 && m.hopByHop < 0x1_0000_0000
    && m.endToEnd < 0x1_0000_0000 && AreAVPs(m.avps)
  }

  function EncodeMsg(m: Msg): seq<Byte>
    requires IsMsg(m)
  {
    var payload := EncodeAVPs(m.avps);
    [1] + Put24((20 + |payload|) % 0x100_0000) + [m.flags] + Put24(m.command % 0x100_0000) + Put32(m.app)
    + Put32(m.hopByHop) + Put32(m.endToEnd) + payload
  }

  /** Reads one message off a stream; the second part is what is left. */
  function DecodeMsg(stream: seq<Byte>): Result<(Msg, seq<Byte>), DecodeError> {
    if |stream| < 4 then Err(EndOfStream)
    else if stream[0] != 1 then Err(BadVersion)
    else
      var length := Get24(stream[1..4]);
      if length < 20 then Err(LengthTooShort)
      else if |stream| < length then Err(EndOfStream)
      else
        match DecodeAVPs(stream[20..length])
        case Err(e) => Err(e)
        case Ok(avps) =>
          Ok((Msg(stream[4], Get24(stream[5..8]), Get32(stream[8..12]), Get32(stream[12..16]), Get32(stream[16..20]), avps),
              stream[length..]))
  }

  predicate FitsMsg(m: Msg)
    requires IsMsg(m)
  {
    m.command < 0x100_0000 && 20 + |EncodeAVPs(m.avps)| < 0x100_0000 && FitAVPs(m.avps)
  }

  /** A message read from a stream is the one that was written, and the stream continues right
      behind it; every encoding is a multiple of four octets. */
  lemma MsgRoundTrip(m: Msg, rest: seq<Byte>)
    requires IsMsg(m) && FitsMsg(m)
    ensures DecodeMsg(EncodeMsg(m) + rest) == Ok((m.(avps := Normals(m.avps)), rest))
    ensures |EncodeMsg(m)| % 4 == 0
  {
    hide Put32, Put24, Get32, Get24, EncodeAVP, DecodeAVP, EncodeAVPs, DecodeAVPs, Normals, FitAVPs;
    var payload := EncodeAVPs(m.avps);
    var length := 20 + |payload|;
    var b := EncodeMsg(m) + rest;
    RoundTrip24(length, []);
    RoundTrip24(m.command, []);
    RoundTrip32(m.app, []);
    RoundTrip32(m.hopByHop, []);
    RoundTrip32(m.endToEnd, []);
    AVPListRoundTrip(m.avps);
    EncodingIsPadded(m.avps);
    assert b[1..4] == Put24(length);
    assert b[5..8] == Put24(m.command);
    assert b[8..12] == Put32(m.app);
    assert b[12..16] == Put32(m.hopByHop);
    assert b[16..20] == Put32(m.endToEnd);
    assert b[20..length] == payload;
    assert b[length..] == rest;
  }

  /** A message is its header and its AVPs, and the header has its fields one after the other. */
  lemma MsgParts(m: Msg, length: seq<Byte>, command: seq<Byte>, app: seq<Byte>, hop: seq<Byte>, end: seq<Byte>, avps: seq<Byte>)
    requires |length| == |command| == 3 && |app| == |hop| == |end| == 4
    ensures var b := [1] + length + [m.flags] + command + app + hop + end + avps;
            && |b| == 20 + |avps| && b[0] == 1 && b[4] == m.flags && b[1..4] == length && b[5..8] == command
            && b[8..12] == app && b[12..16] == hop && b[16..20] == end && b[20..] == avps
  {
  }

  /** Where the fields of a message are: version 1, the length of it all, the flags, and the
      identifiers. */
  lemma MsgOctets(m: Msg)
    requires IsMsg(m) && FitsMsg(m)
    ensures var b := EncodeMsg(m);
            && |b| >= 20 && b[0] == 1 && Word24At(b, 1) == |b| && b[4] == m.flags
            && Word24At(b, 5) == m.command
            && Word32At(b, 8) == m.app
            && Word32At(b, 12) == m.hopByHop
            && Word32At(b, 16) == m.endToEnd
            && b[20..] == EncodeAVPs(m.avps)
  {
    hide Put32, Put24, EncodeAVPs, FitAVPs, Word24At, Word32At;
    var b := EncodeMsg(m);
    var length := 20 + |EncodeAVPs(m.avps)|;
    MsgParts(m, Put24(length), Put24(m.command), Put32(m.app), Put32(m.hopByHop), Put32(m.endToEnd), EncodeAVPs(m.avps));
    Written24(b, 1, length);
    Written24(b, 5, m.command);
    Written32(b, 8, m.app);
    Written32(b, 12, m.hopByHop);
    Written32(b, 16, m.endToEnd);
  }

  // --- the loops ---

  method EncodeOneAVP(a: AVP) returns (out: array<Byte>)
    requires IsAVP(a)
    ensures fresh(out) && out[..] == EncodeAVP(a)
  {
    hide AVPHeader, WithVendorFlag;
    var headerSize := if a.vendor != 0 then 12 else 8;
    var length := headerSize + |a.data|;
    var padded := Pad4(length);
    out := new Byte[padded](_ => 0);
    FillAVPHeader(out, a, length);
    ghost var header := out[..headerSize];
    CopyInto(out, headerSize, a.data);
    assert out[..headerSize] == header;
    assert out[..] == header + a.data + Zeros(padded - length);
  }

  method FillAVPHeader(out: array<Byte>, a: AVP, length: nat)
    requires IsAVP(a) && length == HeaderSize(a.vendor) + |a.data| && out.Length >= length
    modifies out
    ensures out[..HeaderSize(a.vendor)] == AVPHeader(a)
    ensures forall j :: HeaderSize(a.vendor) <= j < out.Length ==> out[j] == old(out[j])
  {
    hide Put32, Put24;
    var flags := a.flags;
    if a.vendor != 0 && !HasVendorFlag(flags) {
      flags := flags + VENDOR_FLAG;
    }
    CopyInto(out, 0, Put32(a.code));
    out[4] := flags;
    assert out[..5] == Put32(a.code) + [flags];
    CopyInto(out, 5, Put24(length % 0x100_0000));
    assert out[..8] == out[..5] + Put24(length % 0x100_0000);
    if a.vendor != 0 {
      CopyInto(out, 8, Put32(a.vendor));
      assert out[..12] == out[..8] + Put32(a.vendor);
    }
  }

  method DecodeList(b: seq<Byte>) returns (r: Result<seq<AVP>, DecodeError>)
    ensures r == DecodeAVPs(b)
  {
    hide Get32, Get24;
    var data := b;
    var out: seq<AVP> := [];
    assert forall rest: seq<AVP> :: out + rest == rest;
    while data != []
      invariant DecodeAVPs(b) == match DecodeAVPs(data) case Ok(rest) => Ok(out + rest) case Err(e) => Err(e)
      decreases |data|
    {
      if |data| < 8 {
        return Err(HeaderTruncated);
      }
      var length := Get24(data[5..8]);
      var headerSize, vendor: nat := 8, 0;
      if HasVendorFlag(data[4]) {
        headerSize := 12;
        if |data| < headerSize {
          return Err(VendorTruncated);
        }
        vendor := Get32(data[8..12]);
      }
      if length < headerSize || |data| < length {
        return Err(LengthInvalid);
      }
      var step := Pad4(length);
      if |data| < step {
        return Err(PaddingTruncated);
      }
      var a := AVP(Get32(data[..4]), vendor, data[4], data[headerSize..length]);
      assert DecodeAVP(data) == Ok((a, data[step..]));
      assert forall rest: seq<AVP> :: out + ([a] + rest) == (out + [a]) + rest;
      out := out + [a];
      data := data[step..];
    }
    assert out + [] == out;
    r := Ok(out);
  }
}
