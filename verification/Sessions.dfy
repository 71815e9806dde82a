/** Session records, the state machine that guards every change of state, and
    the comparisons the gateway makes between subscribers. */
module Sessions {
  import opened Wrappers

  type SessionID = nat

  /** An IPv4 address by value. */
  type IPv4 = n: nat | n < 0x1_0000_0000

  /** Zero stands for the zero time, "not set". */
  type Time = nat

  datatype State =
    | Pending
    | AuthPending
    | Authorized
    | IPAllocated
    | PGWPending
    | Active
    | Recovering
    | Terminating
    | Terminated
    | Failed

  datatype Session = Session(
    id: SessionID,
    imsi: string,
    msisdn: string,
    mac: string,
    apn: string,
    acctSessionID: string,
    subscriberIP: Option<IPv4>,
    pgwControlIP: Option<IPv4>,
    pgwUserIP: Option<IPv4>,
    gtpcTEID: nat,
    localGTPUTEID: nat,
    remoteGTPUTEID: nat,
    gtpuErrorCount: nat,
    authenticated: bool,
    authorized: bool,
    state: State,
    expiresAt: Time,
    reason: string)

  datatype CreateInput = CreateInput(
    imsi: string, msisdn: string, mac: string, apn: string, acctSessionID: string, expiresAt: Time)

  function NewSession(id: SessionID, input: CreateInput): Session {
    Session(id, input.imsi, input.msisdn, input.mac, input.apn, input.acctSessionID,
            None, None, None, 0, 0, 0, 0, false, false, Pending, input.expiresAt, "")
  }

  predicate ValidTransition(from: State, to: State) {
    if from == to then true
    else if to == Failed then from != Terminated
    else match from
      case Pending => to == AuthPending || to == Terminating
      case AuthPending => to == Authorized || to == Terminating
      case Authorized => to == IPAllocated || to == PGWPending || to == Terminating
      case IPAllocated => to == PGWPending || to == Terminating
      case PGWPending => to == Active || to == Terminating
      case Active => to == Terminating || to == Recovering
      case Recovering => to == Terminating || to == Failed
      case Terminating => to == Terminated
      case Terminated => false
      case Failed => false
  }

  /** How far a session has come; every allowed change of state raises it. */
  function Rank(s: State): nat {
    match s
    case Pending => 0
    case AuthPending => 1
    case Authorized => 2
    case IPAllocated => 3
    case PGWPending => 4
    case Active => 5
    case Recovering => 6
    case Terminating => 7
    case Terminated => 8
    case Failed => 8
  }

  lemma TransitionRaisesRank(from: State, to: State)
    requires ValidTransition(from, to)
    ensures from == to || Rank(from) < Rank(to)
    ensures from == Terminated || from == Failed ==> to == from
  {
  }

  /** The moves between different states, Failed aside, and when a session can fail. */
  lemma TransitionsAre(from: State, to: State)
    ensures from != to && to != Failed ==>
              (ValidTransition(from, to) <==>
                (from, to) in {(Pending, AuthPending), (AuthPending, Authorized), (Authorized, IPAllocated), (Authorized, PGWPending),
                               (IPAllocated, PGWPending), (PGWPending, Active), (Active, Recovering), (Pending, Terminating),
                               (AuthPending, Terminating), (Authorized, Terminating), (IPAllocated, Terminating),
                               (PGWPending, Terminating), (Active, Terminating), (Recovering, Terminating), (Terminating, Terminated)})
    ensures ValidTransition(from, Failed) <==> from != Terminated
    ensures ValidTransition(from, from)
  {
  }

  /** The states in which a session may own, or be about to own, a PGW context. */
  predicate IsLivePGWOwner(s: State) {
    s != Terminated && s != Failed
  }

  function LowerChar(c: char): char {
    if 'A' <= c <= 'Z' then ((c as int - 'A' as int) + 'a' as int) as char else c
  }

  /** ASCII case folding. */
  function Lower(s: string): (r: string)
    ensures |r| == |s|
  {
    if s == "" then "" else [LowerChar(s[0])] + Lower(s[1..])
  }

  predicate SameAPN(a: string, b: string) {
    Lower(a) == Lower(b)
  }

  /** APNs are compared without regard to the case of ASCII letters, and to nothing else. */
  lemma {:induction false} SameAPNIffFolded(a: string, b: string)
    ensures SameAPN(a, b) <==> |a| == |b| && forall i :: 0 <= i < |a| ==> Folds(a[i], b[i])
  {
    if a != "" && b != "" {
      SameAPNIffFolded(a[1..], b[1..]);
      assert Lower(a) == [LowerChar(a[0])] + Lower(a[1..]) && Lower(b) == [LowerChar(b[0])] + Lower(b[1..]);
      if SameAPN(a, b) {
        assert Lower(a)[1..] == Lower(a[1..]) && Lower(b)[1..] == Lower(b[1..]) && Lower(a)[0] == Lower(b)[0];
        forall i | 0 <= i < |a| ensures Folds(a[i], b[i]) {
          assert i > 0 ==> a[i] == a[1..][i - 1] && b[i] == b[1..][i - 1];
        }
      }
      if |a| == |b| && forall i :: 0 <= i < |a| ==> Folds(a[i], b[i]) {
        forall i | 0 <= i < |a[1..]| ensures Folds(a[1..][i], b[1..][i]) {
          assert Folds(a[i + 1], b[i + 1]);
        }
        assert Folds(a[0], b[0]);
      }
    }
  }

  /** The same character, or the two cases of one ASCII letter. */
  predicate Folds(a: char, b: char) {
    || a == b
    || ('A' <= a <= 'Z' && b as int == a as int + 32)
    || ('a' <= a <= 'z' && b as int == a as int - 32)
  }

  predicate MacMatches(a: string, b: string) {
    a != "" && b != "" && a == b
  }

  /** The looser match with which an attach looks for an earlier session. */
  predicate SubscriberMatches(s: Session, imsi: string, mac: string, apn: string) {
    && !(imsi != "" && s.imsi != "" && s.imsi != imsi)
    && !(mac != "" && s.mac != "" && !MacMatches(s.mac, mac))
    && !(apn != "" && s.apn != "" && !SameAPN(s.apn, apn))
    && ((imsi != "" && s.imsi == imsi) || (mac != "" && MacMatches(s.mac, mac)))
  }

  /** The relation the pre-create guard uses to say "same subscriber". */
  predicate SubscriberSame(a: Session, b: Session) {
    && !(a.imsi != "" && b.imsi != "" && a.imsi != b.imsi)
    && !(a.mac != "" && b.mac != "" && a.mac != b.mac)
    && !(a.apn != "" && b.apn != "" && !SameAPN(a.apn, b.apn))
    && ((a.imsi != "" && a.imsi == b.imsi) || (a.mac != "" && a.mac == b.mac))
  }

  /** The two guard reads, as filters on one candidate. */
  predicate FoundByIMSIAPN(candidate: Session, s: Session) {
    candidate.imsi == s.imsi && SameAPN(candidate.apn, s.apn)
  }

  predicate FoundByMAC(candidate: Session, s: Session) {
    s.mac != "" && MacMatches(candidate.mac, s.mac)
  }

  /** What the guard can tell apart: the same subscriber, and returned by one of the reads. */
  predicate Detects(a: Session, b: Session) {
    SubscriberSame(a, b) && (FoundByIMSIAPN(a, b) || FoundByMAC(a, b))
  }

  predicate SameIdentity(a: Session, b: Session) {
    a.imsi == b.imsi && a.mac == b.mac && a.apn == b.apn
  }

  /** With APNs present the guard misses nobody: detection is exactly SubscriberSame. The
      only same-subscriber pairs it can miss share an IMSI, have an APN on one side only and
      a MAC address on at most one side. */
  lemma GuardDetectsSameSubscriber(a: Session, b: Session)
    ensures Detects(a, b) <==> Detects(b, a)
    ensures a.apn != "" && b.apn != "" ==> (Detects(a, b) <==> SubscriberSame(a, b))
    ensures SubscriberSame(a, b) <==>
            && (a.imsi == "" || b.imsi == "" || a.imsi == b.imsi)
            && (a.mac == "" || b.mac == "" || a.mac == b.mac)
            && (a.apn == "" || b.apn == "" || Lower(a.apn) == Lower(b.apn))
            && ((a.imsi == b.imsi && b.imsi != "") || (a.mac == b.mac && b.mac != ""))
    ensures Detects(a, b) <==>
            && (a.imsi == "" || b.imsi == "" || a.imsi == b.imsi)
            && (a.mac == "" || b.mac == "" || a.mac == b.mac)
            && (a.apn == "" || b.apn == "" || Lower(a.apn) == Lower(b.apn))
            && ((a.imsi == b.imsi && b.imsi != "" && Lower(a.apn) == Lower(b.apn)) || (a.mac == b.mac && b.mac != ""))
    ensures SubscriberSame(a, b) && !Detects(a, b) <==>
            a.imsi != "" && a.imsi == b.imsi && !SameAPN(a.apn, b.apn)
            && (a.apn == "" || b.apn == "") && (a.mac == "" || b.mac == "")
  {
  }
}
