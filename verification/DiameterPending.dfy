/** The table of outstanding Diameter requests, raced by callers, the readers, the watchdog,
    disconnects and Stop. Sends to a waiter are blocking sends on a channel of capacity one,
    some of them made while the client's lock is held. */
module DiameterPending {
  import opened Wrappers

  type ReqID = nat
  type ConnID = nat

  datatype Value = Answer | Failure

  /** Registered in the table, waiting after a successful write, on the way out, gone. */
  datatype Phase = Registered | Waiting | Leaving | Gone

  /** A request with its channel, and how many values were ever sent on that channel. */
  datatype Req = Req(hop: nat, conn: ConnID, phase: Phase, box: Option<Value>, sends: nat)

  /** held are the channels a reader has taken out of the table but not yet sent on; dead are
      the connections whose disconnect has been processed. */
  datatype World = World(
    reqs: map<ReqID, Req>, pending: map<nat, ReqID>, held: set<ReqID>, closed: set<ConnID>, dead: set<ConnID>)

  const Start: World := World(map[], map[], {}, {}, {})

  datatype Step =
    | Register(req: ReqID, hop: nat, conn: ConnID)
    | Write(req: ReqID, ok: bool)
    | TimeOut(req: ReqID)
    | Withdraw(req: ReqID)
    | Take(req: ReqID)
    | Find(hop: nat)
    | Send(req: ReqID)
    | CloseConn(conn: ConnID)
    | Disconnect(conn: ConnID)

  function Sent(r: Req, v: Value): Req {
    r.(box := Some(v), sends := r.sends + 1)
  }

  /** A send on a full channel blocks; such a step does not happen. */
  predicate Blocks(w: World, step: Step) {
    match step
    case Send(r) => r in w.held && r in w.reqs && w.reqs[r].box.Some?
    case Disconnect(_) => exists h :: h in w.pending && w.pending[h] in w.reqs && w.reqs[w.pending[h]].box.Some?
    case _ => false
  }

  /** A write on a closed connection fails; a step that is not possible changes nothing. */
  function Do(w: World, step: Step): World {
    match step
    case Register(r, hop, conn) =>
      if r in w.reqs then w
      else w.(reqs := w.reqs[r := Req(hop, conn, Registered, None, 0)], pending := w.pending[hop := r])
    case Write(r, ok) =>
      if r !in w.reqs || !w.reqs[r].phase.Registered? then w
      else w.(reqs := w.reqs[r := w.reqs[r].(phase := if ok && w.reqs[r].conn !in w.closed then Waiting else Leaving)])
    case TimeOut(r) =>
      if r !in w.reqs || !w.reqs[r].phase.Waiting? then w
      else w.(reqs := w.reqs[r := w.reqs[r].(phase := Leaving)])
    case Withdraw(r) =>
      if r !in w.reqs || !w.reqs[r].phase.Leaving? then w
      else w.(reqs := w.reqs[r := w.reqs[r].(phase := Gone)], pending := w.pending - {w.reqs[r].hop})
    case Take(r) =>
      if r !in w.reqs || !w.reqs[r].phase.Waiting? || w.reqs[r].box.None? then w
      else w.(reqs := w.reqs[r := w.reqs[r].(phase := Gone, box := None)])
    case Find(hop) =>
      if hop !in w.pending then w
      else w.(pending := w.pending - {hop}, held := w.held + {w.pending[hop]})
    case Send(r) =>
      if r !in w.held || r !in w.reqs || Blocks(w, step) then w
      else w.(held := w.held - {r}, reqs := w.reqs[r := Sent(w.reqs[r], Answer)])
    case CloseConn(conn) => w.(closed := w.closed + {conn})
    case Disconnect(conn) =>
      if conn !in w.closed || Blocks(w, step) then w
      else w.(pending := map[], dead := w.dead + {conn},
              reqs := map r | r in w.reqs :: if r in w.pending.Values then Sent(w.reqs[r], Failure) else w.reqs[r])
  }

  function Run(w: World, steps: seq<Step>): World
    decreases |steps|
  {
    if steps == [] then w else Run(Do(w, steps[0]), steps[1..])
  }

  /** Whatever is still to be sent on was never sent on before. */
  predicate OneShot(w: World) {
    && (forall h :: h in w.pending ==>
          w.pending[h] in w.reqs && w.reqs[w.pending[h]].hop == h && w.reqs[w.pending[h]].sends == 0 && w.pending[h] !in w.held)
    && (forall r :: r in w.held ==> r in w.reqs && w.reqs[r].sends == 0)
    && (forall r :: r in w.reqs ==> w.reqs[r].sends <= 1 && (w.reqs[r].box.Some? ==> w.reqs[r].sends == 1))
  }

  lemma DoKeepsOneShot(w: World, step: Step)
    requires OneShot(w)
    ensures OneShot(Do(w, step)) && !Blocks(w, step)
  {
    if step.Disconnect? {
      forall r | r in w.pending.Values ensures r in w.reqs && w.reqs[r].sends == 0 && w.reqs[r].box.None? {
        var h :| h in w.pending && w.pending[h] == r;
      }
    }
  }

  lemma {:induction false} RunKeepsOneShot(w: World, steps: seq<Step>)
    requires OneShot(w)
    ensures OneShot(Run(w, steps))
    decreases |steps|
  {
    if steps != [] {
      DoKeepsOneShot(w, steps[0]);
      RunKeepsOneShot(Do(w, steps[0]), steps[1..]);
    }
  }

  /** In every interleaving, and whatever the identifiers: no channel ever carries a second
      value, and no send ever blocks, in particular none made under the lock. */
  lemma SendsNeverBlock(steps: seq<Step>, next: Step, r: ReqID)
    ensures var w := Run(Start, steps);
            !Blocks(w, next) && (r in w.reqs ==> w.reqs[r].sends <= 1)
  {
    RunKeepsOneShot(Start, steps);
    DoKeepsOneShot(Run(Start, steps), next);
  }

  // --- nobody is left waiting after a disconnect ---

  predicate InFlight(w: World, r: ReqID) {
    r in w.reqs && !w.reqs[r].phase.Gone?
  }

  /** A new request has a hop-by-hop identifier of its own among those in flight. */
  predicate FreshHop(w: World, step: Step) {
    step.Register? ==> forall r :: r in w.reqs && InFlight(w, r) ==> w.reqs[r].hop != step.hop
  }

  predicate FreshHops(w: World, steps: seq<Step>)
    decreases |steps|
  {
    steps != [] ==> FreshHop(w, steps[0]) && FreshHops(Do(w, steps[0]), steps[1..])
  }

  predicate Served(w: World, r: ReqID)
    requires r in w.reqs
  {
    w.reqs[r].box.Some? || r in w.held
  }

  /** Who waits is in the table or has a value coming, and after the disconnect of its
      connection it has one coming. */
  predicate Attended(w: World) {
    && OneShot(w) && OwnHops(w) && w.dead <= w.closed
    && forall r :: r in w.reqs ==> ReqAttended(w, r, w.reqs[r])
  }

  predicate ReqAttended(w: World, r: ReqID, q: Req) {
    && ((q.phase.Waiting? || (q.phase.Registered? && q.conn !in w.closed)) ==>
          || q.box.Some? || r in w.held
          || (q.hop in w.pending && w.pending[q.hop] == r))
    && (q.phase.Waiting? && q.conn in w.dead ==> q.box.Some? || r in w.held)
  }

  predicate OwnHops(w: World) {
    && (forall r, q :: r in w.reqs && q in w.reqs && InFlight(w, r) && InFlight(w, q) && r != q ==> w.reqs[r].hop != w.reqs[q].hop)
    && (forall h :: h in w.pending ==> InFlight(w, w.pending[h]))
  }

  lemma ReqStep(w: World, step: Step, r: ReqID)
    ensures r in w.reqs ==> r in Do(w, step).reqs && Do(w, step).reqs[r].hop == w.reqs[r].hop
    ensures r in w.reqs && InFlight(Do(w, step), r) ==> InFlight(w, r)
    ensures r !in w.reqs && r in Do(w, step).reqs ==>
              step.Register? && step.req == r && Do(w, step).reqs[r].hop == step.hop
  {
  }

  lemma TableStep(w: World, step: Step, h: nat)
    requires OneShot(w) && OwnHops(w) && FreshHop(w, step) && h in Do(w, step).pending
    ensures InFlight(Do(w, step), Do(w, step).pending[h])
  {
  }

  lemma DoKeepsOwnHops(w: World, step: Step)
    requires OneShot(w) && OwnHops(w) && FreshHop(w, step)
    ensures OwnHops(Do(w, step))
  {
    hide Do, OneShot, InFlight;
    var w' := Do(w, step);
    forall r, q | r in w'.reqs && q in w'.reqs && InFlight(w', r) && InFlight(w', q) && r != q
      ensures w'.reqs[r].hop != w'.reqs[q].hop
    {
      ReqStep(w, step, r);
      ReqStep(w, step, q);
    }
    forall h | h in w'.pending ensures InFlight(w', w'.pending[h]) {
      TableStep(w, step, h);
    }
  }

  lemma DoKeepsReqAttended(w: World, step: Step, r: ReqID)
    requires OneShot(w) && OwnHops(w) && w.dead <= w.closed && FreshHop(w, step)
    requires r in w.reqs ==> ReqAttended(w, r, w.reqs[r])
    ensures r in Do(w, step).reqs ==> ReqAttended(Do(w, step), r, Do(w, step).reqs[r])
  {
    DoKeepsOneShot(w, step);
    if step.Disconnect? && r in w.reqs && w.reqs[r].hop in w.pending && w.pending[w.reqs[r].hop] == r {
      assert r in w.pending.Values;
    }
  }

  lemma DoKeepsAttended(w: World, step: Step)
    requires Attended(w) && FreshHop(w, step)
    ensures Attended(Do(w, step))
  {
    hide OneShot, OwnHops, ReqAttended, FreshHop, Blocks;
    DoKeepsOneShot(w, step);
    DoKeepsOwnHops(w, step);
    var w' := Do(w, step);
    forall r | r in w'.reqs ensures ReqAttended(w', r, w'.reqs[r]) {
      DoKeepsReqAttended(w, step, r);
    }
  }

  lemma {:induction false} RunKeepsAttended(w: World, steps: seq<Step>)
    requires Attended(w) && FreshHops(w, steps)
    ensures Attended(Run(w, steps))
    decreases |steps|
  {
    if steps != [] {
      DoKeepsAttended(w, steps[0]);
      RunKeepsAttended(Do(w, steps[0]), steps[1..]);
    }
  }

  /** Who waits in the table gets the answer when it is found under its hop, and the failure when
      its connection goes. */
  lemma AnswerReaches(w: World, r: ReqID)
    requires OneShot(w) && r in w.reqs && w.reqs[r].phase.Waiting?
    requires w.reqs[r].hop in w.pending && w.pending[w.reqs[r].hop] == r
    ensures var answered := Do(Do(w, Find(w.reqs[r].hop)), Send(r));
            && answered.reqs[r].box == Some(Answer) && answered.reqs[r].phase.Waiting?
            && Do(answered, Take(r)).reqs[r].phase.Gone? && w.reqs[r].hop !in answered.pending
    ensures w.reqs[r].conn in w.closed ==>
              var failed := Do(w, Disconnect(w.reqs[r].conn)); failed.reqs[r].box == Some(Failure) && failed.pending == map[]
  {
    DoKeepsOneShot(w, Find(w.reqs[r].hop));
    DoKeepsOneShot(w, Disconnect(w.reqs[r].conn));
    assert w.pending[w.reqs[r].hop] in w.pending.Values;
  }

  /** Once a disconnect is processed, everyone who still waits on that connection has a value
      to take or one that a reader is about to send, also those who register late. */
  lemma DisconnectStrandsNobody(steps: seq<Step>, r: ReqID)
    requires FreshHops(Start, steps)
    requires var w := Run(Start, steps); r in w.reqs && w.reqs[r].phase.Waiting? && w.reqs[r].conn in w.dead
    ensures Served(Run(Start, steps), r)
  {
    RunKeepsAttended(Start, steps);
    var w := Run(Start, steps);
    assert ReqAttended(w, r, w.reqs[r]);
  }

  /** Fresh identifiers are needed: a request that reuses one in flight pushes the earlier
      request out of the table, and a disconnect then leaves that one waiting. */
  lemma ReusedHopStrands(hop: nat, conn: ConnID)
    ensures var w := Run(Start, [Register(0, hop, conn), Write(0, true), Register(1, hop, conn),
                                 CloseConn(conn), Disconnect(conn)]);
            && 0 in w.reqs && w.reqs[0].phase.Waiting? && w.reqs[0].conn in w.dead && !Served(w, 0)
  {
    var s0 := Register(0, hop, conn);
    var s1 := Write(0, true);
    var s2 := Register(1, hop, conn);
    var s3 := CloseConn(conn);
    var s4 := Disconnect(conn);
    var w1 := Do(Start, s0);
    var w2 := Do(w1, s1);
    var w3 := Do(w2, s2);
    var w4 := Do(w3, s3);
    var w5 := Do(w4, s4);
    assert w4.pending == map[hop := 1];
    assert Run(w5, []) == w5;
    assert Run(w4, [s4]) == w5;
    assert [s3, s4][1..] == [s4];
    assert Run(w3, [s3, s4]) == w5;
    assert [s2, s3, s4][1..] == [s3, s4];
    assert Run(w2, [s2, s3, s4]) == w5;
    assert [s1, s2, s3, s4][1..] == [s2, s3, s4];
    assert Run(w1, [s1, s2, s3, s4]) == w5;
    assert [s0, s1, s2, s3, s4][1..] == [s1, s2, s3, s4];
  }

  /** A value has come, is coming, or can come: the request is in the table under its hop. */
  predicate Reachable(w: World, q: ReqID)
    requires q in w.reqs
  {
    Served(w, q) || InTable(w, q)
  }

  predicate InTable(w: World, q: ReqID)
    requires q in w.reqs
  {
    w.reqs[q].hop in w.pending && w.pending[w.reqs[q].hop] == q
  }

  /** The step takes the table entry of q away: a registration that reuses the identifier of q,
      or the withdrawal of another request that has it too. */
  predicate Strands(w: World, step: Step, q: ReqID) {
    && q in w.reqs && InTable(w, q)
    && match step
       case Register(r, hop, _) => r !in w.reqs && hop == w.reqs[q].hop
       case Withdraw(r) => r != q && r in w.reqs && w.reqs[r].phase.Leaving? && w.reqs[r].hop == w.reqs[q].hop
       case _ => false
  }

  predicate StrandedAlong(w: World, steps: seq<Step>, q: ReqID)
    decreases |steps|
  {
    steps != [] && (Strands(w, steps[0], q) || StrandedAlong(Do(w, steps[0]), steps[1..], q))
  }

  predicate Expects(p: Phase) {
    p.Registered? || p.Waiting?
  }

  /** One step of a request that still expects its answer. */
  lemma StrandsIff(w: World, step: Step, q: ReqID)
    requires OneShot(w) && q in Do(w, step).reqs && Expects(Do(w, step).reqs[q].phase)
    requires q in w.reqs ==> Reachable(w, q)
    ensures q in w.reqs ==> Expects(w.reqs[q].phase)
    ensures !Reachable(Do(w, step), q) <==> Strands(w, step, q)
  {
    if step.Disconnect? && q in w.reqs && InTable(w, q) {
      assert q in w.pending.Values;
    }
  }

  lemma UnreachableStays(w: World, step: Step, q: ReqID)
    requires OneShot(w) && q in w.reqs && !Reachable(w, q)
    ensures q in Do(w, step).reqs && !Reachable(Do(w, step), q)
  {
    if step.Disconnect? && !Blocks(w, step) {
      assert q !in w.pending.Values;
    }
  }

  /** A request that lost its entry never gets a value: only its own timeout ends the wait. */
  lemma {:induction false} NeverServed(w: World, steps: seq<Step>, q: ReqID)
    requires OneShot(w) && q in w.reqs && !Reachable(w, q)
    ensures q in Run(w, steps).reqs && !Reachable(Run(w, steps), q)
    decreases |steps|
  {
    if steps != [] {
      UnreachableStays(w, steps[0], q);
      DoKeepsOneShot(w, steps[0]);
      NeverServed(Do(w, steps[0]), steps[1..], q);
    }
  }

  lemma {:induction false} ExpectedBefore(w: World, steps: seq<Step>, q: ReqID)
    requires q in Run(w, steps).reqs && Expects(Run(w, steps).reqs[q].phase)
    ensures q in w.reqs ==> Expects(w.reqs[q].phase)
    decreases |steps|
  {
    if steps != [] {
      ReqStep(w, steps[0], q);
      ExpectedBefore(Do(w, steps[0]), steps[1..], q);
    }
  }

  lemma {:induction false} StrandedIff(w: World, steps: seq<Step>, q: ReqID)
    requires OneShot(w) && (q in w.reqs ==> Reachable(w, q))
    requires q in Run(w, steps).reqs && Expects(Run(w, steps).reqs[q].phase)
    ensures !Reachable(Run(w, steps), q) <==> StrandedAlong(w, steps, q)
    decreases |steps|
  {
    hide Do, OneShot, Reachable, Strands;
    if steps != [] {
      var w1 := Do(w, steps[0]);
      DoKeepsOneShot(w, steps[0]);
      ExpectedBefore(w1, steps[1..], q);
      if q in w1.reqs {
        StrandsIff(w, steps[0], q);
        if !Reachable(w1, q) {
          NeverServed(w1, steps[1..], q);
        } else {
          StrandedIff(w1, steps[1..], q);
        }
      } else {
        StrandedIff(w1, steps[1..], q);
        NewOnly(w, steps[0], q);
      }
    }
  }

  lemma NewOnly(w: World, step: Step, q: ReqID)
    requires q !in Do(w, step).reqs
    ensures !Strands(w, step, q)
  {
  }

  /** Exactly when a waiting request is left without an answer for good, in any run: when some
      step registered its identifier once more while it was in the table, or withdrew another
      request with that identifier. */
  lemma StrandedExactly(steps: seq<Step>, later: seq<Step>, q: ReqID)
    requires q in Run(Start, steps).reqs && Run(Start, steps).reqs[q].phase.Waiting?
    ensures StrandedAlong(Start, steps, q) <==> !Reachable(Run(Start, steps), q)
    ensures StrandedAlong(Start, steps, q) ==>
              var w := Run(Run(Start, steps), later); q in w.reqs && !Reachable(w, q)
  {
    StrandedIff(Start, steps, q);
    RunKeepsOneShot(Start, steps);
    if StrandedAlong(Start, steps, q) {
      NeverServed(Run(Start, steps), later, q);
    }
  }

  // --- the client's table ---

  /** A channel of capacity one: sending needs it to be empty, or the sender blocks. */
  class Channel {
    ghost const hop: nat
    var box: Option<Value>

    constructor (ghost hop: nat)
      ensures this.hop == hop && box == None
    {
      this.hop := hop;
      box := None;
    }

    method Send(v: Value)
      requires box.None?
      modifies this
      ensures box == Some(v)
    {
      box := Some(v);
    }
  }

  /** Fails every request of a table; the requires is what SendsNeverBlock provides. */
  method FailAll(table: map<nat, Channel>)
    requires forall h :: h in table ==> table[h].hop == h && table[h].box.None?
    modifies table.Values
    ensures forall h :: h in table ==> table[h].box == Some(Failure)
  {
    var left := table.Keys;
    while left != {}
      invariant left <= table.Keys
      invariant forall h :: h in table ==> table[h].box == if h in left then None else Some(Failure)
    {
      var h :| h in left;
      left := left - {h};
      table[h].Send(Failure);
    }
  }
}
