/** The guard in front of PGW session creation, as small steps that may interleave in any
    order: an activation marks its session PGWPending, reads the store twice, and passes only
    when neither read returned a live rival. */
module OwnerGuard {
  import opened Wrappers
  import opened Sessions
  import opened SessionStore

  /** Where an activation is: what MarkPGWPending handed back, and what the reads returned. */
  datatype Phase = Marked | ReadIMSI | ReadBoth | Passed | Blocked

  datatype Activation = Activation(pending: Session, candidates: set<Session>, phase: Phase)

  datatype Guard = Guard(store: Store, activations: map<SessionID, Activation>)

  const Start: Guard := Guard(Empty, map[])

  /** Any session-manager call by anyone, or the next step of one activation. */
  datatype Step =
    | Call(op: Op)
    | MarkPending(id: SessionID)
    | FindByIMSIAPN(id: SessionID)
    | FindByMAC(id: SessionID)
    | Decide(id: SessionID)

  predicate RivalFound(a: Activation) {
    exists c :: c in a.candidates && c.id != a.pending.id && IsLivePGWOwner(c.state) && SubscriberSame(c, a.pending)
  }

  function Read1(st: Store, s: Session): set<Session> {
    set id | id in st.byID && FoundByIMSIAPN(st.byID[id], s) :: st.byID[id]
  }

  function Read2(st: Store, s: Session): set<Session> {
    set id | id in st.byID && FoundByMAC(st.byID[id], s) :: st.byID[id]
  }

  /** A step that is not possible changes nothing. */
  function Do(g: Guard, step: Step): Guard {
    match step
    case Call(op) => g.(store := Exec(g.store, op))
    case MarkPending(id) =>
      if Enabled(g.store, MarkPGWPending(id))
      then Guard(Exec(g.store, MarkPGWPending(id)),
                 g.activations[id := Activation(Edited(MarkPGWPending(id), g.store.byID[id]), {}, Marked)])
      else g
    case FindByIMSIAPN(id) =>
      if id in g.activations && g.activations[id].phase == Marked
      then var a := g.activations[id];
           g.(activations := g.activations[id := a.(candidates := Read1(g.store, a.pending), phase := ReadIMSI)])
      else g
    case FindByMAC(id) =>
      if id in g.activations && g.activations[id].phase == ReadIMSI
      then var a := g.activations[id];
           g.(activations := g.activations[id :=
                a.(candidates := a.candidates + Read2(g.store, a.pending), phase := ReadBoth)])
      else g
    case Decide(id) =>
      if id in g.activations && g.activations[id].phase == ReadBoth
      then var a := g.activations[id];
           g.(activations := g.activations[id := a.(phase := if RivalFound(a) then Blocked else Passed)])
      else g
  }

  function Run(g: Guard, steps: seq<Step>): Guard
    decreases |steps|
  {
    if steps == [] then g else Run(Do(g, steps[0]), steps[1..])
  }

  predicate LiveInStore(st: Store, id: SessionID) {
    id in st.byID && IsLivePGWOwner(st.byID[id].state)
  }

  /** Passed the guard and still a live session of the store. */
  predicate Owner(g: Guard, id: SessionID) {
    id in g.activations && g.activations[id].phase == Passed && LiveInStore(g.store, id)
  }

  /** Has a made the read that returns sessions like b? */
  predicate Looked(a: Activation, b: Activation) {
    if FoundByIMSIAPN(b.pending, a.pending) then a.phase != Marked
    else a.phase != Marked && a.phase != ReadIMSI
  }

  predicate Saw(a: Activation, b: Activation) {
    exists c :: c in a.candidates && c.id == b.pending.id && IsLivePGWOwner(c.state) && SameIdentity(c, b.pending)
  }

  /** While its session is stored and live, an activation holds its identity as it is. */
  predicate Tracks(g: Guard) {
    && WellFormed(g.store)
    && forall id :: id in g.activations ==>
         && g.activations[id].pending.id == id && id <= g.store.next
         && (LiveInStore(g.store, id) ==>
               && Rank(g.store.byID[id].state) >= Rank(PGWPending)
               && SameIdentity(g.store.byID[id], g.activations[id].pending))
         && (g.activations[id].phase == Marked ==> g.activations[id].candidates == {})
         && (g.activations[id].phase == Passed ==> !RivalFound(g.activations[id]))
  }

  predicate SawOneAnother(a: Activation, b: Activation) {
    Looked(a, b) && Looked(b, a) ==> Saw(a, b) || Saw(b, a)
  }

  /** Of two detectable live activations that have both looked, one has seen the other. */
  predicate LaterSeesEarlier(g: Guard) {
    forall i, j :: i in g.activations && j in g.activations && i != j
      && LiveInStore(g.store, i) && LiveInStore(g.store, j)
      && Detects(g.activations[i].pending, g.activations[j].pending)
      ==> SawOneAnother(g.activations[i], g.activations[j])
  }

  // --- the store side: identity is fixed from PGWPending on, liveness is never regained ---

  lemma EditFromPending(op: Op, s: Session)
    requires IsLivePGWOwner(s.state) ==> Rank(s.state) >= Rank(PGWPending)
    requires Target(op).Some? ==> ValidTransition(s.state, Target(op).value)
    requires IsLivePGWOwner(Edited(op, s).state)
    ensures IsLivePGWOwner(s.state)
    ensures Rank(Edited(op, s).state) >= Rank(PGWPending) && SameIdentity(Edited(op, s), s)
  {
  }

  lemma PendingIdentityFixed(st: Store, op: Op, id: SessionID)
    requires WellFormed(st) && id <= st.next && LiveInStore(Exec(st, op), id)
    requires LiveInStore(st, id) ==> Rank(st.byID[id].state) >= Rank(PGWPending)
    ensures LiveInStore(st, id)
    ensures Rank(Exec(st, op).byID[id].state) >= Rank(PGWPending)
    ensures SameIdentity(Exec(st, op).byID[id], st.byID[id])
  {
    RecordStep(st, op, id);
    if Exec(st, op).byID[id] != st.byID[id] {
      EditFromPending(op, st.byID[id]);
    }
  }

  lemma CallKeepsTracks(g: Guard, op: Op)
    requires Tracks(g)
    ensures Tracks(Do(g, Call(op)))
    ensures forall id :: id in g.activations && LiveInStore(Exec(g.store, op), id) ==> LiveInStore(g.store, id)
  {
    var st := Exec(g.store, op);
    forall id | id in st.byID ensures st.byID[id].id == id && id <= st.next {
      RecordStep(g.store, op, id);
    }
    forall id | id in g.activations
      ensures id <= st.next
      ensures LiveInStore(st, id) ==>
                && LiveInStore(g.store, id) && Rank(st.byID[id].state) >= Rank(PGWPending)
                && SameIdentity(st.byID[id], g.activations[id].pending)
    {
      NextGrows(g.store, op);
      if LiveInStore(st, id) {
        PendingIdentityFixed(g.store, op, id);
      }
    }
  }

  lemma NextGrows(st: Store, op: Op)
    ensures st.next <= Exec(st, op).next
  {
    if Enabled(st, op) && !op.Create? && !op.ExpireInactive? {
      ExecOnTable(st, op, st.byID[op.id], Edited(op, st.byID[op.id]));
    }
  }

  // --- every step keeps the invariant ---

  lemma CallKeepsOrder(g: Guard, op: Op)
    requires Tracks(g) && LaterSeesEarlier(g)
    ensures Tracks(Do(g, Call(op))) && LaterSeesEarlier(Do(g, Call(op)))
  {
    CallKeepsTracks(g, op);
  }

  /** A new or restarted activation has looked at nothing yet. */
  lemma EnterKeepsOrder(g: Guard, id: SessionID, a: Activation)
    requires Tracks(g) && LaterSeesEarlier(g)
    requires id in g.store.byID && a == Activation(g.store.byID[id], {}, Marked)
    requires Rank(a.pending.state) >= Rank(PGWPending)
    ensures Tracks(g.(activations := g.activations[id := a]))
    ensures LaterSeesEarlier(g.(activations := g.activations[id := a]))
  {
    forall b: Activation ensures !Looked(a, b) {
    }
  }

  lemma MarkKeepsOrder(g: Guard, id: SessionID)
    requires Tracks(g) && LaterSeesEarlier(g)
    ensures Tracks(Do(g, MarkPending(id))) && LaterSeesEarlier(Do(g, MarkPending(id)))
  {
    var op := MarkPGWPending(id);
    if Enabled(g.store, op) {
      CallKeepsOrder(g, op);
      ExecOnTable(g.store, op, g.store.byID[id], Edited(op, g.store.byID[id]));
      EnterKeepsOrder(Do(g, Call(op)), id, Activation(Edited(op, g.store.byID[id]), {}, Marked));
    }
  }

  /** Moving one activation on keeps the order when every rival it has newly looked for was seen. */
  lemma AdvanceKeepsOrder(g: Guard, id: SessionID, a: Activation)
    requires Tracks(g) && LaterSeesEarlier(g) && id in g.activations
    requires a.pending == g.activations[id].pending && g.activations[id].candidates <= a.candidates
    requires a.phase != Marked && (a.phase == Passed ==> !RivalFound(a))
    requires forall j :: j in g.activations && j != id && LiveInStore(g.store, j)
               && Detects(a.pending, g.activations[j].pending) && Looked(a, g.activations[j])
               ==> Looked(g.activations[id], g.activations[j]) || Saw(a, g.activations[j])
    ensures Tracks(g.(activations := g.activations[id := a]))
    ensures LaterSeesEarlier(g.(activations := g.activations[id := a]))
  {
    var was := g.activations[id];
    forall j | j in g.activations && j != id && LiveInStore(g.store, id) && LiveInStore(g.store, j)
      && Detects(a.pending, g.activations[j].pending)
      ensures SawOneAnother(a, g.activations[j]) && SawOneAnother(g.activations[j], a)
    {
      var b := g.activations[j];
      assert SawOneAnother(was, b);
      assert Looked(b, a) <==> Looked(b, was);
      assert Saw(b, was) ==> Saw(b, a);
      assert Saw(was, b) ==> Saw(a, b);
    }
    var g' := g.(activations := g.activations[id := a]);
    forall i, j | i in g'.activations && j in g'.activations && i != j
      && LiveInStore(g'.store, i) && LiveInStore(g'.store, j)
      && Detects(g'.activations[i].pending, g'.activations[j].pending)
      ensures SawOneAnother(g'.activations[i], g'.activations[j])
    {
      GuardDetectsSameSubscriber(g'.activations[i].pending, g'.activations[j].pending);
    }
  }

  lemma ReadSees(st: Store, s: Session, j: SessionID, b: Activation)
    requires j in st.byID && st.byID[j].id == b.pending.id == j && IsLivePGWOwner(st.byID[j].state)
    requires SameIdentity(st.byID[j], b.pending)
    ensures FoundByIMSIAPN(b.pending, s) ==> st.byID[j] in Read1(st, s)
    ensures FoundByMAC(b.pending, s) ==> st.byID[j] in Read2(st, s)
  {
  }

  lemma StepKeepsOrder(g: Guard, step: Step)
    requires Tracks(g) && LaterSeesEarlier(g)
    ensures Tracks(Do(g, step)) && LaterSeesEarlier(Do(g, step))
  {
    match step
    case Call(op) => CallKeepsOrder(g, op);
    case MarkPending(id) => MarkKeepsOrder(g, id);
    case FindByIMSIAPN(id) =>
      if id in g.activations && g.activations[id].phase == Marked {
        var a := g.activations[id].(candidates := Read1(g.store, g.activations[id].pending), phase := ReadIMSI);
        forall j | j in g.activations && j != id && LiveInStore(g.store, j)
          && Detects(a.pending, g.activations[j].pending) && Looked(a, g.activations[j])
          ensures Saw(a, g.activations[j])
        {
          ReadSees(g.store, a.pending, j, g.activations[j]);
        }
        AdvanceKeepsOrder(g, id, a);
      }
    case FindByMAC(id) =>
      if id in g.activations && g.activations[id].phase == ReadIMSI {
        var was := g.activations[id];
        var a := was.(candidates := was.candidates + Read2(g.store, was.pending), phase := ReadBoth);
        forall j | j in g.activations && j != id && LiveInStore(g.store, j)
          && Detects(a.pending, g.activations[j].pending) && Looked(a, g.activations[j])
          ensures Looked(was, g.activations[j]) || Saw(a, g.activations[j])
        {
          ReadSees(g.store, a.pending, j, g.activations[j]);
        }
        AdvanceKeepsOrder(g, id, a);
      }
    case Decide(id) =>
      if id in g.activations && g.activations[id].phase == ReadBoth {
        var was := g.activations[id];
        var a := was.(phase := if RivalFound(was) then Blocked else Passed);
        assert RivalFound(a) <==> RivalFound(was);
        AdvanceKeepsOrder(g, id, a);
      }
  }

  lemma {:induction false} RunKeepsOrder(g: Guard, steps: seq<Step>)
    requires Tracks(g) && LaterSeesEarlier(g)
    ensures Tracks(Run(g, steps)) && LaterSeesEarlier(Run(g, steps))
    decreases |steps|
  {
    if steps != [] {
      StepKeepsOrder(g, steps[0]);
      RunKeepsOrder(Do(g, steps[0]), steps[1..]);
    }
  }

  /** In a state that keeps the order, no two owners are a pair the reads can return. */
  lemma OwnersApart(g: Guard, i: SessionID, j: SessionID)
    requires Tracks(g) && LaterSeesEarlier(g) && i != j && Owner(g, i) && Owner(g, j)
    ensures !Detects(g.store.byID[i], g.store.byID[j])
  {
    var a, b := g.activations[i], g.activations[j];
    GuardDetectsSameSubscriber(a.pending, b.pending);
    if Detects(g.store.byID[i], g.store.byID[j]) {
      assert Detects(a.pending, b.pending);
      assert SawOneAnother(a, b) && Looked(a, b) && Looked(b, a);
      if Saw(a, b) {
        assert RivalFound(a);
      } else {
        assert RivalFound(b);
      }
    }
  }

  /** Under every interleaving, no two owners are a same-subscriber pair the reads can return. */
  lemma SingleOwner(steps: seq<Step>, i: SessionID, j: SessionID)
    requires i != j && Owner(Run(Start, steps), i) && Owner(Run(Start, steps), j)
    ensures var g := Run(Start, steps); !Detects(g.store.byID[i], g.store.byID[j])
  {
    RunKeepsOrder(Start, steps);
    OwnersApart(Run(Start, steps), i, j);
  }

  /** With APNs present this is exclusion per subscriber, as SubscriberSame understands it. */
  lemma SingleOwnerPerSubscriber(steps: seq<Step>, i: SessionID, j: SessionID)
    requires i != j && Owner(Run(Start, steps), i) && Owner(Run(Start, steps), j)
    requires Run(Start, steps).store.byID[i].apn != "" && Run(Start, steps).store.byID[j].apn != ""
    ensures !SubscriberSame(Run(Start, steps).store.byID[i], Run(Start, steps).store.byID[j])
    ensures var a, b := Run(Start, steps).store.byID[i], Run(Start, steps).store.byID[j];
            (a.imsi != "" && a.imsi == b.imsi) || (a.mac != "" && a.mac == b.mac) ==>
              || (a.imsi != "" && b.imsi != "" && a.imsi != b.imsi)
              || (a.mac != "" && b.mac != "" && a.mac != b.mac)
              || Lower(a.apn) != Lower(b.apn)
  {
    SingleOwner(steps, i, j);
    var g := Run(Start, steps);
    GuardDetectsSameSubscriber(g.store.byID[i], g.store.byID[j]);
  }

  // --- the guard refuses no more than it must ---

  lemma {:induction false} RunConcat(g: Guard, xs: seq<Step>, ys: seq<Step>)
    ensures Run(g, xs + ys) == Run(Run(g, xs), ys)
    decreases |xs|
  {
    if xs == [] {
      assert xs + ys == ys;
    } else {
      assert (xs + ys)[0] == xs[0] && (xs + ys)[1..] == xs[1..] + ys;
      RunConcat(Do(g, xs[0]), xs[1..], ys);
    }
  }

  lemma CreateOne(st: Store, input: CreateInput)
    requires WellFormed(st)
    ensures var st' := Exec(st, Create(input));
            && WellFormed(st') && st'.next == st.next + 1
            && st'.byID == st.byID[st'.next := NewSession(st'.next, input)]
  {
  }

  lemma MoveOne(st: Store, op: Op)
    requires WellFormed(st) && (op.MarkAuthPending? || op.MarkAuthorized? || op.MarkPGWPending?)
    requires op.id in st.byID && ValidTransition(st.byID[op.id].state, Target(op).value)
    ensures var st' := Exec(st, op);
            && Enabled(st, op) && WellFormed(st') && st'.next == st.next
            && st'.byID == st.byID[op.id := Edited(op, st.byID[op.id])]
  {
    ExecOnTable(st, op, st.byID[op.id], Edited(op, st.byID[op.id]));
  }

  /** The store and the record after creation and authorization. */
  function Authorize(st: Store, input: CreateInput): Store {
    Exec(Exec(Exec(st, Create(input)), MarkAuthPending(st.next + 1)), MarkAuthorized(st.next + 1))
  }

  lemma ReachAuthorized(st: Store, input: CreateInput)
    requires WellFormed(st)
    ensures var id, st' := st.next + 1, Authorize(st, input);
            && WellFormed(st') && st'.next == id && id in st'.byID && st'.byID == st.byID[id := st'.byID[id]]
            && st'.byID[id].state == Authorized && SameIdentity(st'.byID[id], NewSession(0, input))
  {
    hide Exec, Enabled;
    var id := st.next + 1;
    CreateOne(st, input);
    MoveOne(Exec(st, Create(input)), MarkAuthPending(id));
    MoveOne(Exec(Exec(st, Create(input)), MarkAuthPending(id)), MarkAuthorized(id));
  }

  /** A fresh session that no stored live session rivals goes straight through the guard. */
  lemma Admit(g: Guard, input: CreateInput) returns (steps: seq<Step>)
    requires WellFormed(g.store)
    requires forall k :: LiveInStore(g.store, k) ==> !Detects(g.store.byID[k], NewSession(0, input))
    ensures var g', id := Run(g, steps), g.store.next + 1;
            && WellFormed(g'.store) && g'.store.next == id && Owner(g', id)
            && SameIdentity(g'.store.byID[id], NewSession(0, input))
            && g'.store.byID == g.store.byID[id := g'.store.byID[id]]
            && g'.activations == g.activations[id := g'.activations[id]]
  {
    hide Exec, Enabled, Authorize;
    var id := g.store.next + 1;
    ReachAuthorized(g.store, input);
    var st := Authorize(g.store, input);
    MoveOne(st, MarkPGWPending(id));
    var pending := Edited(MarkPGWPending(id), st.byID[id]);
    var g3 := Guard(Exec(st, MarkPGWPending(id)), g.activations[id := Activation(pending, {}, Marked)]);
    ReachPending(g, input);
    var creation := [Call(Create(input)), Call(MarkAuthPending(id)), Call(MarkAuthorized(id)), MarkPending(id)];
    steps := creation + [FindByIMSIAPN(id), FindByMAC(id), Decide(id)];
    RunConcat(g, creation, [FindByIMSIAPN(id), FindByMAC(id), Decide(id)]);
    PassAlone(g3, id);
  }

  lemma ReachPending(g: Guard, input: CreateInput)
    requires WellFormed(g.store)
    ensures var id, st := g.store.next + 1, Authorize(g.store, input);
            && id in st.byID
            && Run(g, [Call(Create(input)), Call(MarkAuthPending(id)), Call(MarkAuthorized(id)), MarkPending(id)])
               == Guard(Exec(st, MarkPGWPending(id)),
                        g.activations[id := Activation(Edited(MarkPGWPending(id), st.byID[id]), {}, Marked)])
  {
    hide Exec, Enabled;
    var id := g.store.next + 1;
    ReachAuthorized(g.store, input);
    MoveOne(Authorize(g.store, input), MarkPGWPending(id));
    RunFour(g, [Call(Create(input)), Call(MarkAuthPending(id)), Call(MarkAuthorized(id)), MarkPending(id)]);
  }

  lemma RunFour(g: Guard, steps: seq<Step>)
    requires |steps| == 4
    ensures Run(g, steps) == Do(Do(Do(Do(g, steps[0]), steps[1]), steps[2]), steps[3])
  {
    assert steps[1..][0] == steps[1] && steps[1..][1..] == steps[2..];
    assert steps[2..][0] == steps[2] && steps[2..][1..] == steps[3..];
    assert steps[3..][0] == steps[3] && steps[3..][1..] == [];
    assert Run(Do(Do(Do(Do(g, steps[0]), steps[1]), steps[2]), steps[3]), []) == Do(Do(Do(Do(g, steps[0]), steps[1]), steps[2]), steps[3]);
    assert Run(Do(Do(Do(g, steps[0]), steps[1]), steps[2]), steps[3..]) == Do(Do(Do(Do(g, steps[0]), steps[1]), steps[2]), steps[3]);
    assert Run(Do(Do(g, steps[0]), steps[1]), steps[2..]) == Do(Do(Do(Do(g, steps[0]), steps[1]), steps[2]), steps[3]);
  }

  lemma PassAlone(g: Guard, id: SessionID)
    requires WellFormed(g.store) && LiveInStore(g.store, id)
    requires id in g.activations && g.activations[id] == Activation(g.store.byID[id], {}, Marked)
    requires forall k :: LiveInStore(g.store, k) && k != id ==> !Detects(g.store.byID[k], g.store.byID[id])
    ensures var g' := Run(g, [FindByIMSIAPN(id), FindByMAC(id), Decide(id)]);
            && g'.store == g.store && Owner(g', id)
            && g'.activations == g.activations[id := g'.activations[id]]
  {
    var steps := [FindByIMSIAPN(id), FindByMAC(id), Decide(id)];
    var s := g.store.byID[id];
    var g1 := Do(g, FindByIMSIAPN(id));
    var g2 := Do(g1, FindByMAC(id));
    var a := g2.activations[id];
    assert a.candidates == Read1(g.store, s) + Read2(g.store, s);
    assert !RivalFound(a) by {
      forall c | c in a.candidates && c.id != id && IsLivePGWOwner(c.state) ensures !SubscriberSame(c, s) {
        assert LiveInStore(g.store, c.id) && g.store.byID[c.id] == c;
      }
    }
    var g3 := Do(g2, Decide(id));
    assert steps[1..] == [FindByMAC(id), Decide(id)] && steps[1..][1..] == [Decide(id)] && [Decide(id)][1..] == [];
    assert Run(g3, []) == g3;
    assert Run(g2, [Decide(id)]) == g3;
    assert Run(g1, steps[1..]) == g3;
  }

  ghost predicate OwnedTogether(steps: seq<Step>, i: SessionID, j: SessionID, x: CreateInput, y: CreateInput) {
    var g := Run(Start, steps);
    && i != j && Owner(g, i) && Owner(g, j)
    && SameIdentity(g.store.byID[i], NewSession(0, x)) && SameIdentity(g.store.byID[j], NewSession(0, y))
  }

  /** Two identities can own sessions at the same time exactly when the reads cannot tell
      them to be the same subscriber. */
  lemma GuardIsExact(x: CreateInput, y: CreateInput)
    ensures (exists steps, i, j :: OwnedTogether(steps, i, j, x, y)) <==> !Detects(NewSession(0, x), NewSession(0, y))
  {
    if steps, i, j :| OwnedTogether(steps, i, j, x, y) {
      SingleOwner(steps, i, j);
    }
    if !Detects(NewSession(0, x), NewSession(0, y)) {
      var s1 := Admit(Start, x);
      var g1 := Run(Start, s1);
      var s2 := Admit(g1, y);
      RunConcat(Start, s1, s2);
      assert OwnedTogether(s1 + s2, 1, 2, x, y);
    }
  }

  /** The same on the fields: who can own at the same time are two with different IMSIs, with
      different MAC addresses, or with different APNs, and two that share neither a MAC address
      nor an IMSI together with the APN. */
  lemma OwnersOnFields(x: CreateInput, y: CreateInput)
    ensures (exists steps, i, j :: OwnedTogether(steps, i, j, x, y)) <==>
            || (x.imsi != "" && y.imsi != "" && x.imsi != y.imsi)
            || (x.mac != "" && y.mac != "" && x.mac != y.mac)
            || (x.apn != "" && y.apn != "" && Lower(x.apn) != Lower(y.apn))
            || !((x.mac != "" && x.mac == y.mac) || (x.imsi != "" && x.imsi == y.imsi && Lower(x.apn) == Lower(y.apn)))
  {
    GuardIsExact(x, y);
    GuardDetectsSameSubscriber(NewSession(0, x), NewSession(0, y));
  }

  /** Two SIMs in one device: different IMSIs behind the same MAC address and APN. */
  lemma TwoSIMsOwnTogether(x: CreateInput, y: CreateInput)
    requires x.imsi != "" && y.imsi != "" && x.imsi != y.imsi && x.mac == y.mac && x.apn == y.apn
    ensures exists steps, i, j :: OwnedTogether(steps, i, j, x, y)
  {
    OwnersOnFields(x, y);
  }

  /** One subscription in two devices, and one device on two APNs. */
  lemma OtherDeviceOrAPNOwnsToo(x: CreateInput, y: CreateInput)
    requires x.imsi == y.imsi
    requires (x.mac != "" && y.mac != "" && x.mac != y.mac && x.apn == y.apn)
             || (x.mac == y.mac && x.apn != "" && y.apn != "" && Lower(x.apn) != Lower(y.apn))
    ensures exists steps, i, j :: OwnedTogether(steps, i, j, x, y)
  {
    OwnersOnFields(x, y);
  }

  /** An IMSI or a MAC address in common, and nothing that differs: never, once the APNs are there. */
  lemma SharedIdentityNeverOwnsTwice(x: CreateInput, y: CreateInput, steps: seq<Step>, i: SessionID, j: SessionID)
    requires x.imsi == "" || y.imsi == "" || x.imsi == y.imsi
    requires x.mac == "" || y.mac == "" || x.mac == y.mac
    requires x.apn != "" && Lower(x.apn) == Lower(y.apn)
    requires (x.imsi != "" && x.imsi == y.imsi) || (x.mac != "" && x.mac == y.mac)
    ensures !OwnedTogether(steps, i, j, x, y)
  {
    OwnersOnFields(x, y);
  }
}
