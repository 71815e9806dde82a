/** GTPv2-C messages and information elements as octets (sections 5.1 and 8 of 3GPP TS 29.274):
    encoders and decoders, and how they undo each other. */
module GTPv2Codec {
  import opened Wrappers
  import opened Bytes

  // --- information elements ---

  datatype IE = IE(kind: Byte, instance: Byte, payload: seq<Byte>)

  datatype DecodeError = HeaderTruncated | LengthExceedsRest | TooShort | BadVersion | LengthMismatch | ShortTEID

  /** The length field has 16 bits and the instance 4; larger values lose their high bits. */
  function EncodeIE(ie: IE): (b: seq<Byte>)
    ensures |b| == 4 + |ie.payload|
  {
    [ie.kind] + Put16(|ie.payload| % 0x1_0000) + [ie.instance % 16] + ie.payload
  }

  function EncodeIEs(ies: seq<IE>): seq<Byte> {
    if ies == [] then [] else EncodeIE(ies[0]) + EncodeIEs(ies[1..])
  }

  function LengthField(b: seq<Byte>): nat
    requires |b| >= 4
  {
    Get16(b[1..3])
  }

  /** The first element of some octets, and the octets after it. */
  function DecodeIE(b: seq<Byte>): (r: Result<(IE, seq<Byte>), DecodeError>)
    ensures r.Ok? ==> |r.value.1| < |b| && |r.value.0.payload| < |b|
  {
    if |b| < 4 then Err(HeaderTruncated)
    else if |b| < 4 + LengthField(b) then Err(LengthExceedsRest)
    else Ok((IE(b[0], b[3] % 16, b[4..4 + LengthField(b)]), b[4 + LengthField(b)..]))
  }

  function DecodeIEs(b: seq<Byte>): Result<seq<IE>, DecodeError>
    decreases |b|
  {
    if b == [] then Ok([])
    else
      match DecodeIE(b)
      case Err(e) => Err(e)
      case Ok((ie, rest)) =>
        match DecodeIEs(rest)
        case Err(e) => Err(e)
        case Ok(ies) => Ok([ie] + ies)
  }

  predicate FitsIE(ie: IE) {
    ie.instance < 16 && |ie.payload| < 0x1_0000
  }

  predicate FitIEs(ies: seq<IE>) {
    forall i :: 0 <= i < |ies| ==> FitsIE(ies[i])
  }

  lemma DecodeAfterEncode(ie: IE, rest: seq<Byte>)
    requires |ie.payload| < 0x1_0000
    ensures DecodeIE(EncodeIE(ie) + rest) == Ok((ie.(instance := ie.instance % 16), rest))
  {
    var b := EncodeIE(ie) + rest;
    RoundTrip16(|ie.payload|, []);
    assert b[1..3] == Put16(|ie.payload|);
    assert b[4..4 + |ie.payload|] == ie.payload;
    assert b[4 + |ie.payload|..] == rest;
  }

  lemma {:induction false} EncodeDecodeIEs(ies: seq<IE>)
    requires FitIEs(ies)
    ensures DecodeIEs(EncodeIEs(ies)) == Ok(ies)
  {
    if ies != [] {
      assert FitsIE(ies[0]);
      DecodeAfterEncode(ies[0], EncodeIEs(ies[1..]));
      EncodeDecodeIEs(ies[1..]);
      assert [ies[0]] + ies[1..] == ies;
    }
  }

  lemma {:induction false} DecodedFit(b: seq<Byte>)
    ensures DecodeIEs(b).Ok? ==> FitIEs(DecodeIEs(b).value)
    decreases |b|
  {
    if b != [] && DecodeIE(b).Ok? {
      var (ie, rest) := DecodeIE(b).value;
      DecodedFit(rest);
      assert FitsIE(ie);
    }
  }

  /** A list of elements survives encoding and decoding exactly when every instance is below 16
      and every payload within 65535 octets. */
  lemma IEListRoundTrip(ies: seq<IE>)
    ensures DecodeIEs(EncodeIEs(ies)) == Ok(ies) <==> FitIEs(ies)
  {
    if FitIEs(ies) {
      EncodeDecodeIEs(ies);
    } else {
      DecodedFit(EncodeIEs(ies));
    }
  }

  /** Some octets with the high half of every element's fourth octet cleared. */
  function ClearSpare(b: seq<Byte>): seq<Byte>
    decreases |b|
  {
    if DecodeIE(b).Err? then b
    else b[..3] + [b[3] % 16] + b[4..4 + LengthField(b)] + ClearSpare(DecodeIE(b).value.1)
  }

  /** Conversely, whatever octets are accepted, encoding the result gives them back but for
      the spare bits. */
  lemma {:induction false} DecodeEncodeIEs(b: seq<Byte>)
    requires DecodeIEs(b).Ok?
    ensures EncodeIEs(DecodeIEs(b).value) == ClearSpare(b) && |ClearSpare(b)| == |b|
    decreases |b|
  {
    hide EncodeIE, DecodeIE, LengthField;
    if b != [] {
      var (ie, rest) := DecodeIE(b).value;
      var ies := DecodeIEs(rest).value;
      DecodeEncodeIEs(rest);
      assert ([ie] + ies)[1..] == ies;
      EncodeAfterDecode(b);
    } else {
      EncodeAfterDecode([]);
    }
  }

  lemma EncodeAfterDecode(b: seq<Byte>)
    ensures b == [] ==> DecodeIE(b).Err?
    ensures DecodeIE(b).Ok? ==>
              && |b| >= 4 + LengthField(b) && DecodeIE(b).value.1 == b[4 + LengthField(b)..]
              && EncodeIE(DecodeIE(b).value.0) == b[..3] + [b[3] % 16] + b[4..4 + LengthField(b)]
  {
    if DecodeIE(b).Ok? {
      RoundTrip16(0, b[1..3]);
      assert b[..3] == [b[0]] + b[1..3];
    }
  }

  // --- Bearer Context: elements inside elements ---

  const BEARER_CONTEXT: Byte := 93

  datatype Node = Leaf(ie: IE) | Group(instance: Byte, children: seq<Node>)

  function EncodeNode(n: Node): seq<Byte> {
    match n
    case Leaf(ie) => EncodeIE(ie)
    case Group(instance, children) => EncodeIE(IE(BEARER_CONTEXT, instance, EncodeNodes(children)))
  }

  function EncodeNodes(ns: seq<Node>): seq<Byte> {
    if ns == [] then [] else EncodeNode(ns[0]) + EncodeNodes(ns[1..])
  }

  /** Decodes a list of elements and, inside every Bearer Context, the elements of its payload. */
  function DecodeNodes(b: seq<Byte>): Result<seq<Node>, DecodeError>
    decreases |b|
  {
    if b == [] then Ok([])
    else
      match DecodeIE(b)
      case Err(e) => Err(e)
      case Ok((ie, rest)) =>
        var first := if ie.kind != BEARER_CONTEXT then Ok(Leaf(ie))
                     else match DecodeNodes(ie.payload)
                          case Err(e) => Err(e)
                          case Ok(children) => Ok(Group(ie.instance, children));
        match first
        case Err(e) => Err(e)
        case Ok(n) =>
          match DecodeNodes(rest)
          case Err(e) => Err(e)
          case Ok(ns) => Ok([n] + ns)
  }

  predicate FitsNode(n: Node) {
    match n
    case Leaf(ie) => FitsIE(ie) && ie.kind != BEARER_CONTEXT
    case Group(instance, children) =>
      instance < 16 && |EncodeNodes(children)| < 0x1_0000 && FitNodes(children)
  }

  predicate FitNodes(ns: seq<Node>) {
    ns == [] || (FitsNode(ns[0]) && FitNodes(ns[1..]))
  }

  lemma {:induction false} EncodeDecodeNodes(ns: seq<Node>)
    requires FitNodes(ns)
    ensures DecodeNodes(EncodeNodes(ns)) == Ok(ns)
    decreases ns
  {
    hide EncodeIE, DecodeIE;
    if ns != [] {
      var rest := EncodeNodes(ns[1..]);
      EncodeDecodeNodes(ns[1..]);
      match ns[0] {
        case Leaf(ie) => DecodeAfterEncode(ie, rest);
        case Group(instance, children) =>
          EncodeDecodeNodes(children);
          DecodeAfterEncode(IE(BEARER_CONTEXT, instance, EncodeNodes(children)), rest);
      }
      assert [ns[0]] + ns[1..] == ns;
    }
  }

  lemma {:induction false} DecodedNodesFit(b: seq<Byte>)
    requires DecodeNodes(b).Ok?
    ensures FitNodes(DecodeNodes(b).value) && |EncodeNodes(DecodeNodes(b).value)| == |b|
    decreases |b|
  {
    if b != [] {
      var (ie, rest) := DecodeIE(b).value;
      var ns := DecodeNodes(b).value;
      DecodedNodesFit(rest);
      assert ns[1..] == DecodeNodes(rest).value;
      if ie.kind == BEARER_CONTEXT {
        DecodedNodesFit(ie.payload);
      }
    }
  }

  /** Some octets with the high half of the fourth octet of every element cleared, those inside
      Bearer Contexts included. */
  function ClearSpareNodes(b: seq<Byte>): seq<Byte>
    decreases |b|
  {
    match DecodeIE(b)
    case Err(_) => b
    case Ok((ie, rest)) =>
      b[..3] + [b[3] % 16] + (if ie.kind == BEARER_CONTEXT then ClearSpareNodes(ie.payload) else ie.payload) + ClearSpareNodes(rest)
  }

  /** An element with another payload of the same length. */
  lemma EncodeWithPayload(b: seq<Byte>, payload: seq<Byte>)
    ensures DecodeIE(b).Ok? ==>
              var ie := DecodeIE(b).value.0;
              |b| >= 4 && (|payload| == |ie.payload| ==> EncodeIE(ie.(payload := payload)) == b[..3] + [b[3] % 16] + payload)
  {
    if DecodeIE(b).Ok? {
      RoundTrip16(0, b[1..3]);
      assert b[..3] == [b[0]] + b[1..3];
    }
  }

  /** Conversely, at every depth: accepted octets come back but for the spare bits. */
  lemma {:induction false} DecodeEncodeNodes(b: seq<Byte>)
    requires DecodeNodes(b).Ok?
    ensures EncodeNodes(DecodeNodes(b).value) == ClearSpareNodes(b) && |ClearSpareNodes(b)| == |b|
    decreases |b|
  {
    hide EncodeIE, DecodeIE, LengthField;
    if b != [] {
      var (ie, rest) := DecodeIE(b).value;
      var ns := DecodeNodes(b).value;
      DecodeEncodeNodes(rest);
      assert ns[1..] == DecodeNodes(rest).value;
      if ie.kind == BEARER_CONTEXT {
        DecodeEncodeNodes(ie.payload);
        EncodeWithPayload(b, ClearSpareNodes(ie.payload));
      } else {
        EncodeWithPayload(b, ie.payload);
      }
      IEOctets(b);
    } else {
      EncodeAfterDecode([]);
    }
  }

  lemma IEOctets(b: seq<Byte>)
    ensures DecodeIE(b).Ok? ==> |b| == 4 + |DecodeIE(b).value.0.payload| + |DecodeIE(b).value.1|
  {
  }

  /** The same at every depth: a tree of elements survives exactly when it fits. */
  lemma TreeRoundTrip(ns: seq<Node>)
    ensures DecodeNodes(EncodeNodes(ns)) == Ok(ns) <==> FitNodes(ns)
  {
    if FitNodes(ns) {
      EncodeDecodeNodes(ns);
    } else if DecodeNodes(EncodeNodes(ns)).Ok? {
      DecodedNodesFit(EncodeNodes(ns));
    }
  }

  // --- messages ---

  datatype Msg = Msg(kind: Byte, teid: nat, hasTEID: bool, sequence: nat, payload: seq<Byte>)

  datatype EncodeError = SequenceOutOfRange | TooLarge

  /** A TEID is a 32-bit word. */
  predicate IsMsg(m: Msg) {
    m.teid < 0x1_0000_0000
  }

  function HeaderLength(hasTEID: bool): nat {
    if hasTEID then 12 else 8
  }

  function Flags(hasTEID: bool): Byte {
    if hasTEID then 0x48 else 0x40
  }

  function TEIDOctets(m: Msg): seq<Byte>
    requires IsMsg(m)
  {
    if m.hasTEID then Put32(m.teid) else []
  }

  function EncodeMsg(m: Msg): Result<seq<Byte>, EncodeError>
    requires IsMsg(m)
  {
    var length := HeaderLength(m.hasTEID) - 4 + |m.payload|;
    if m.sequence < 1 || m.sequence > 0x7f_ffff then Err(SequenceOutOfRange)
    else if length > 0xffff then Err(TooLarge)
    else Ok([Flags(m.hasTEID), m.kind] + Put16(length) + TEIDOctets(m) + Put24(m.sequence) + [0] + m.payload)
  }

  predicate HasTEIDFlag(b: Byte) {
    b / 8 % 2 == 1
  }

  function DecodeMsg(b: seq<Byte>): (r: Result<Msg, DecodeError>)
    ensures r.Ok? ==> IsMsg(r.value)
  {
    if |b| < 8 then Err(TooShort)
    else if b[0] / 32 != 2 then Err(BadVersion)
    else if Get16(b[2..4]) != |b| - 4 then Err(LengthMismatch)
    else if HasTEIDFlag(b[0]) && |b| < 12 then Err(ShortTEID)
    else
      var at := HeaderLength(HasTEIDFlag(b[0])) - 4;
      Ok(Msg(b[1], if HasTEIDFlag(b[0]) then Get32(b[4..8]) else 0, HasTEIDFlag(b[0]), Get24(b[at..at + 3]), b[at + 4..]))
  }

  /** A message that can be encoded decodes to itself, the TEID read as zero where there is none. */
  lemma MsgRoundTrip(m: Msg)
    requires IsMsg(m) && EncodeMsg(m).Ok?
    ensures DecodeMsg(EncodeMsg(m).value) == Ok(m.(teid := if m.hasTEID then m.teid else 0))
  {
    var b := EncodeMsg(m).value;
    var length := HeaderLength(m.hasTEID) - 4 + |m.payload|;
    RoundTrip16(length, []);
    RoundTrip24(m.sequence, []);
    RoundTrip32(m.teid, []);
    assert b[2..4] == Put16(length);
    var at := HeaderLength(m.hasTEID) - 4;
    assert m.hasTEID ==> b[4..8] == Put32(m.teid);
    assert b[at..at + 3] == Put24(m.sequence);
    assert b[at + 4..] == m.payload;
  }

  /** Conversely, an accepted message with a sequence the client may use encodes to the octets
      it came from, but for the spare bits of the first octet and the spare octet. */
  lemma MsgConverse(b: seq<Byte>)
    requires DecodeMsg(b).Ok?
    ensures var m := DecodeMsg(b).value;
            var spare := HeaderLength(m.hasTEID) - 1;
            EncodeMsg(m) == if 1 <= m.sequence <= 0x7f_ffff then Ok(b[0 := Flags(m.hasTEID)][spare := 0])
                            else Err(SequenceOutOfRange)
  {
    var m := DecodeMsg(b).value;
    var at := HeaderLength(m.hasTEID) - 4;
    RoundTrip16(0, b[2..4]);
    RoundTrip24(0, b[at..at + 3]);
    if m.hasTEID {
      RoundTrip32(0, b[4..8]);
    }
    if 1 <= m.sequence <= 0x7f_ffff {
      var c := b[0 := Flags(m.hasTEID)][at + 3 := 0];
      assert c == [Flags(m.hasTEID), b[1]] + b[2..4] + (if m.hasTEID then b[4..8] else []) + b[at..at + 3] + [0] + b[at + 4..];
    }
  }

  /** Where the fields of a message are: version 2 with or without the TEID flag, the type, the
      length behind the first four octets, the TEID if there is one, the sequence, and a spare
      octet before the payload. */
  lemma HeaderOctets(m: Msg)
    requires IsMsg(m) && EncodeMsg(m).Ok?
    ensures var b := EncodeMsg(m).value;
            var at := if m.hasTEID then 8 else 4;
            && |b| == at + 4 + |m.payload| && b[0] == (if m.hasTEID then 0x48 else 0x40) && b[1] == m.kind
            && Word16At(b, 2) == |b| - 4
            && (m.hasTEID ==> Word32At(b, 4) == m.teid)
            && Word24At(b, at) == m.sequence && b[at + 3] == 0 && b[at + 4..] == m.payload
  {
    hide Put16, Put24, Put32, Word16At, Word24At, Word32At;
    var length := HeaderLength(m.hasTEID) - 4 + |m.payload|;
    var b := EncodeMsg(m).value;
    var at := if m.hasTEID then 8 else 4;
    assert b[2..4] == Put16(length);
    Written16(b, 2, length);
    if m.hasTEID {
      assert b[4..8] == Put32(m.teid);
      Written32(b, 4, m.teid);
    }
    assert b[at..at + 3] == Put24(m.sequence);
    Written24(b, at, m.sequence);
  }

  /** Where the fields of an element are: type, length of the payload alone, instance. */
  lemma ElementOctets(ie: IE)
    requires FitsIE(ie)
    ensures var b := EncodeIE(ie);
            && b[0] == ie.kind && Word16At(b, 1) == |ie.payload| == |b| - 4 && b[3] == ie.instance && b[4..] == ie.payload
  {
    assert EncodeIE(ie)[1..3] == Put16(|ie.payload|);
    Written16(EncodeIE(ie), 1, |ie.payload|);
  }

  /** A Bearer Context is the element of type 93 around its elements. */
  lemma BearerContextOctets(instance: Byte, children: seq<Node>)
    requires instance < 16 && |EncodeNodes(children)| < 0x1_0000
    ensures var b := EncodeNode(Group(instance, children));
            b[0] == 93 && b[3] == instance && b[4..] == EncodeNodes(children)
  {
    ElementOctets(IE(BEARER_CONTEXT, instance, EncodeNodes(children)));
  }

  // --- F-TEID and TBCD ---

  const FTEID: Byte := 87

  datatype Endpoint = Endpoint(iface: Byte, teid: nat, ip: Option<seq<Byte>>)

  predicate IsEndpoint(e: Endpoint) {
    e.teid < 0x1_0000_0000 && (e.ip.Some? ==> |e.ip.value| == 4)
  }

  /** The V4 flag is the top bit; the interface type has six bits. */
  function EncodeFTEID(instance: Byte, e: Endpoint): IE
    requires IsEndpoint(e)
  {
    if e.iface > 0x3f then IE(FTEID, instance, [])
    else IE(FTEID, instance, [0x80 + e.iface] + Put32(e.teid) + if e.ip.Some? then e.ip.value else [])
  }

  function ParseFTEID(ie: IE): Option<Endpoint> {
    if |ie.payload| < 5 then None
    else
      var iface := ie.payload[0] % 0x40;
      var teid := Get32(ie.payload[1..5]);
      if ie.payload[0] < 0x80 || |ie.payload| < 9 then Some(Endpoint(iface, teid, None))
      else Some(Endpoint(iface, teid, Some(ie.payload[5..9])))
  }

  /** An endpoint survives exactly when its interface type fits six bits. */
  lemma FTEIDRoundTrip(instance: Byte, e: Endpoint)
    requires IsEndpoint(e)
    ensures ParseFTEID(EncodeFTEID(instance, e)) == Some(e) <==> e.iface <= 0x3f
  {
    if e.iface <= 0x3f {
      var p := EncodeFTEID(instance, e).payload;
      RoundTrip32(e.teid, []);
      assert p[1..5] == Put32(e.teid);
      assert e.ip.Some? ==> p[5..9] == e.ip.value;
    }
  }

  /** Where the fields of an endpoint are: element type 87, the V4 flag over the interface type,
      the TEID, and the address. */
  lemma FTEIDOctets(instance: Byte, e: Endpoint)
    requires IsEndpoint(e) && e.iface <= 0x3f && e.ip.Some?
    ensures var ie := EncodeFTEID(instance, e);
            && ie.kind == 87 && ie.instance == instance && |ie.payload| == 9
            && ie.payload[0] == 128 + e.iface && ie.payload[5..] == e.ip.value
            && Word32At(ie.payload, 1) == e.teid
  {
    hide Put32, Word32At;
    assert EncodeFTEID(instance, e).payload[1..5] == Put32(e.teid);
    Written32(EncodeFTEID(instance, e).payload, 1, e.teid);
  }

  type Digit = n: nat | n < 10

  function Digits(value: string): (d: seq<Digit>) {
    if value == "" then []
    else
      var rest := Digits(value[..|value| - 1]);
      var c := value[|value| - 1];
      if '0' <= c <= '9' then rest + [c as int - '0' as int] else rest
  }

  /** Two digits an octet, the earlier one in the low half; a missing last digit is 15. */
  function EncodeTBCD(digits: seq<Digit>): seq<Byte> {
    if digits == [] then []
    else if |digits| == 1 then [digits[0] + 0xf0]
    else [digits[0] + 16 * digits[1] as nat] + EncodeTBCD(digits[2..])
  }

  /** Reads telephony digits back, up to the filler. */
  function DecodeTBCD(b: seq<Byte>): seq<nat> {
    if b == [] then []
    else if b[0] / 16 == 15 then [b[0] % 16]
    else [b[0] % 16, b[0] / 16] + DecodeTBCD(b[1..])
  }

  /** Nothing of a number is lost: its digits come back, in order and no others. */
  lemma {:induction false} TBCDRoundTrip(digits: seq<Digit>)
    ensures DecodeTBCD(EncodeTBCD(digits)) == digits
    ensures |EncodeTBCD(digits)| == (|digits| + 1) / 2
  {
    if |digits| >= 2 {
      TBCDRoundTrip(digits[2..]);
      assert EncodeTBCD(digits)[1..] == EncodeTBCD(digits[2..]);
      assert digits == [digits[0], digits[1]] + digits[2..];
    } else if |digits| == 1 {
      assert digits == [digits[0]];
    }
  }

  /** Each octet has the earlier digit in its low half, and 15 stands for a missing one. */
  lemma {:induction false} TBCDOctets(digits: seq<Digit>, i: nat)
    requires 2 * i < |digits|
    ensures i < |EncodeTBCD(digits)| && EncodeTBCD(digits)[i] % 16 == digits[2 * i]
    ensures EncodeTBCD(digits)[i] / 16 == if 2 * i + 1 < |digits| then digits[2 * i + 1] as nat else 15
    decreases i
  {
    if i > 0 {
      TBCDOctets(digits[2..], i - 1);
    }
  }

  // --- the loops ---

  method EncodeElement(ie: IE) returns (out: array<Byte>)
    ensures fresh(out) && out[..] == EncodeIE(ie)
  {
    out := new Byte[4 + |ie.payload|];
    out[0] := ie.kind;
    CopyInto(out, 1, Put16(|ie.payload| % 0x1_0000));
    assert out[..3] == [ie.kind] + Put16(|ie.payload| % 0x1_0000);
    out[3] := ie.instance % 16;
    assert out[..4] == out[..3] + [ie.instance % 16];
    CopyInto(out, 4, ie.payload);
    assert out[..] == out[..4] + ie.payload;
  }

  method EncodeElements(ies: seq<IE>) returns (out: seq<Byte>)
    ensures out == EncodeIEs(ies)
  {
    out := [];
    for i := 0 to |ies|
      invariant out + EncodeIEs(ies[i..]) == EncodeIEs(ies)
    {
      var one := EncodeElement(ies[i]);
      assert ies[i..][1..] == ies[i + 1..];
      assert out + (one[..] + EncodeIEs(ies[i + 1..])) == (out + one[..]) + EncodeIEs(ies[i + 1..]);
      out := out + one[..];
    }
  }

  method DecodeElements(b: seq<Byte>) returns (r: Result<seq<IE>, DecodeError>)
    ensures r == DecodeIEs(b)
  {
    var payload := b;
    var ies: seq<IE> := [];
    assert forall rest: seq<IE> :: ies + rest == rest;
    while payload != []
      invariant DecodeIEs(b) == match DecodeIEs(payload) case Ok(rest) => Ok(ies + rest) case Err(e) => Err(e)
      decreases |payload|
    {
      if |payload| < 4 {
        return Err(HeaderTruncated);
      }
      var l := Get16(payload[1..3]);
      if |payload| < 4 + l {
        return Err(LengthExceedsRest);
      }
      var ie := IE(payload[0], payload[3] % 16, payload[4..4 + l]);
      assert DecodeIE(payload) == Ok((ie, payload[4 + l..]));
      assert forall rest: seq<IE> :: ies + ([ie] + rest) == (ies + [ie]) + rest;
      ies := ies + [ie];
      payload := payload[4 + l..];
    }
    assert ies + [] == ies;
    r := Ok(ies);
  }

  method EncodeMessage(m: Msg) returns (out: array<Byte>, err: Option<EncodeError>)
    requires IsMsg(m)
    ensures EncodeMsg(m) == if err.Some? then Err(err.value) else Ok(out[..])
  {
    out := new Byte[0];
    if m.sequence < 1 || m.sequence > 0x7f_ffff {
      return out, Some(SequenceOutOfRange);
    }
    var headerLen := if m.hasTEID then 12 else 8;
    var length := headerLen - 4 + |m.payload|;
    if length > 0xffff {
      return out, Some(TooLarge);
    }
    out := new Byte[headerLen + |m.payload|](_ => 0);
    FillHeader(m, length, out);
    ghost var header := out[..headerLen];
    CopyInto(out, headerLen, m.payload);
    assert out[..headerLen] == header && out[headerLen..] == m.payload;
    assert out[..] == out[..headerLen] + out[headerLen..];
    err := None;
  }

  /** Writes the header by offset; the spare octet stays zero. */
  method FillHeader(m: Msg, length: nat, out: array<Byte>)
    requires IsMsg(m) && length < 0x1_0000 && m.sequence < 0x100_0000
    requires out.Length >= HeaderLength(m.hasTEID) && forall j :: 0 <= j < out.Length ==> out[j] == 0
    modifies out
    ensures out[..HeaderLength(m.hasTEID)] ==
            [Flags(m.hasTEID), m.kind] + Put16(length) + TEIDOctets(m) + Put24(m.sequence) + [0]
  {
    hide Put16, Put24, Put32;
    var flags: Byte := 0x40;
    if m.hasTEID {
      flags := flags + 0x08;
    }
    out[0], out[1] := flags, m.kind;
    CopyInto(out, 2, Put16(length));
    assert out[..4] == [flags, m.kind] + Put16(length);
    var offset := 4;
    if m.hasTEID {
      CopyInto(out, offset, Put32(m.teid));
      offset := offset + 4;
    }
    assert out[..offset] == [flags, m.kind] + Put16(length) + TEIDOctets(m) && out[offset + 3] == 0;
    CopyInto(out, offset, Put24(m.sequence));
    assert out[..offset + 4] == out[..offset] + Put24(m.sequence) + [0];
  }

  method EncodeTelephonyDigits(value: string) returns (out: array<Byte>)
    ensures out[..] == EncodeTBCD(Digits(value))
  {
    var digits: seq<Digit> := [];
    for i := 0 to |value|
      invariant digits == Digits(value[..i])
    {
      assert value[..i + 1][..i] == value[..i];
      if '0' <= value[i] <= '9' {
        digits := digits + [value[i] as int - '0' as int];
      }
    }
    assert value[..|value|] == value;
    out := PackDigits(digits);
  }

  method PackDigits(digits: seq<Digit>) returns (out: array<Byte>)
    ensures fresh(out) && out[..] == EncodeTBCD(digits)
  {
    hide EncodeTBCD, DecodeTBCD;
    TBCDRoundTrip(digits);
    out := new Byte[(|digits| + 1) / 2];
    ghost var packed: seq<Byte> := [];
    assert packed + EncodeTBCD(digits) == EncodeTBCD(digits) && digits[0..] == digits;
    for i := 0 to out.Length
      invariant |packed| == i && forall j :: 0 <= j < i ==> out[j] == packed[j]
      invariant packed + EncodeTBCD(digits[Min(2 * i, |digits|)..]) == EncodeTBCD(digits)
    {
      var hi: nat := 15;
      if 2 * i + 1 < |digits| {
        hi := digits[2 * i + 1];
      }
      TBCDStep(digits, i, digits[2 * i] + 16 * hi);
      out[i] := digits[2 * i] + 16 * hi;
      packed := packed + [out[i]];
    }
    TBCDRoundTrip([]);
    assert packed + [] == packed;
    assert out[..] == packed;
  }

  /** The octet at i holds the digits at 2i and 2i + 1. */
  lemma TBCDStep(digits: seq<Digit>, i: nat, octet: nat)
    requires 2 * i < |digits|
    requires octet == digits[2 * i] + 16 * (if 2 * i + 1 < |digits| then digits[2 * i + 1] as nat else 15)
    ensures octet < 256
    ensures EncodeTBCD(digits[2 * i..]) == [octet] + EncodeTBCD(digits[Min(2 * i + 2, |digits|)..])
  {
    var rest := digits[2 * i..];
    if |rest| > 1 {
      assert rest[2..] == digits[2 * i + 2..];
    }
  }

  function Min(a: nat, b: nat): nat {
    if a < b then a else b
  }
}
