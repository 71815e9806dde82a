/** The table of outstanding GTP-C requests, raced by callers, the reader, timeouts and Close.
    Every critical section and every channel operation is one step; the steps of different
    goroutines come in any order. */
module GTPTransactions {
  import opened Wrappers

  type TxID = nat

  datatype Msg = Msg(kind: nat, sequence: nat)

  const ECHO_REQUEST := 1
  const DELETE_SESSION_REQUEST := 36

  datatype Failure = ClientClosed | DuplicateSequence | TypeMismatch | SendFailed | Cancelled

  type Outcome = Result<Msg, Failure>

  /** Where a caller is: before registration, waiting on its channels, on its way out, gone. */
  datatype Phase = Fresh | Waiting | Leaving(outcome: Outcome) | Returned(outcome: Outcome)

  /** One request with its two channels, each of capacity one. */
  datatype Tx = Tx(sequence: nat, expected: nat, phase: Phase, resp: Option<Msg>, err: Option<Failure>)

  /** held is a transaction the reader has looked up but not yet sent to. */
  datatype World = World(
    txs: map<TxID, Tx>, pending: map<nat, TxID>, held: Option<(TxID, Msg)>, closed: bool, failed: bool)

  const Start: World := World(map[], map[], None, false, false)

  datatype Pick = Response | Error | Timeout | Unsent

  datatype Step =
    | Begin(tx: TxID, sequence: nat, expected: nat)
    | Register(tx: TxID)
    | Settle(tx: TxID, pick: Pick)
    | Unregister(tx: TxID)
    | Receive(msg: Msg)
    | Deliver
    | CloseChannel
    | FailPending

  /** A send that gives up when the channel is full. */
  function Offer<T>(channel: Option<T>, value: T): Option<T> {
    if channel.None? then Some(value) else channel
  }

  /** What the reader sends to a transaction it found: the message, or an error about it. */
  function Offered(tx: Tx, msg: Msg): Tx {
    if msg.kind != tx.expected then tx.(err := Offer(tx.err, TypeMismatch)) else tx.(resp := Offer(tx.resp, msg))
  }

  function Swept(tx: Tx): Tx {
    tx.(err := Offer(tx.err, ClientClosed))
  }

  function Registration(w: World, tx: Tx): Option<Failure> {
    if w.closed then Some(ClientClosed) else if tx.sequence in w.pending then Some(DuplicateSequence) else None
  }

  function Picked(tx: Tx, pick: Pick): Option<Tx> {
    match pick
    case Response => if tx.resp.Some? then Some(tx.(phase := Leaving(Ok(tx.resp.value)), resp := None)) else None
    case Error => if tx.err.Some? then Some(tx.(phase := Leaving(Err(tx.err.value)), err := None)) else None
    case Timeout => Some(tx.(phase := Leaving(Err(Cancelled))))
    case Unsent => Some(tx.(phase := Leaving(Err(SendFailed))))
  }

  /** A step that is not possible in a world leaves it as it is. */
  function Do(w: World, step: Step): World {
    match step
    case Begin(t, sequence, expected) =>
      if t in w.txs then w else w.(txs := w.txs[t := Tx(sequence, expected, Fresh, None, None)])
    case Register(t) =>
      if t !in w.txs || !w.txs[t].phase.Fresh? then w
      else
        var tx := w.txs[t];
        (match Registration(w, tx)
         case Some(f) => w.(txs := w.txs[t := tx.(phase := Returned(Err(f)))])
         case None => w.(txs := w.txs[t := tx.(phase := Waiting)], pending := w.pending[tx.sequence := t]))
    case Settle(t, pick) =>
      if t !in w.txs || !w.txs[t].phase.Waiting? || Picked(w.txs[t], pick).None? then w
      else w.(txs := w.txs[t := Picked(w.txs[t], pick).value])
    case Unregister(t) =>
      if t !in w.txs || !w.txs[t].phase.Leaving? then w
      else w.(txs := w.txs[t := w.txs[t].(phase := Returned(w.txs[t].phase.outcome))],
              pending := w.pending - {w.txs[t].sequence})
    case Receive(msg) =>
      if w.held.Some? || msg.kind == ECHO_REQUEST || msg.kind == DELETE_SESSION_REQUEST || msg.sequence !in w.pending then w
      else w.(held := Some((w.pending[msg.sequence], msg)))
    case Deliver =>
      if w.held.None? || w.held.value.0 !in w.txs then w
      else
        var (t, msg) := w.held.value;
        w.(held := None, txs := w.txs[t := Offered(w.txs[t], msg)])
    case CloseChannel => w.(closed := true)
    case FailPending =>
      if !w.closed then w
      else w.(failed := true, pending := map[],
              txs := map t | t in w.txs :: if t in w.pending.Values then Swept(w.txs[t]) else w.txs[t])
  }

  function Run(w: World, steps: seq<Step>): World
    decreases |steps|
  {
    if steps == [] then w else Run(Do(w, steps[0]), steps[1..])
  }

  predicate Registered(p: Phase) {
    p.Waiting? || p.Leaving?
  }

  predicate OwnAnswer(tx: Tx, outcome: Outcome) {
    outcome.Ok? ==> outcome.value.sequence == tx.sequence && outcome.value.kind == tx.expected
  }

  /** What every step keeps. Until failPending ran, the table holds exactly the transactions
      that are registered; afterwards it is empty, and everyone who waits has a value. */
  predicate Consistent(w: World) {
    && (w.failed ==> w.closed && w.pending == map[])
    && (forall s :: s in w.pending ==>
          w.pending[s] in w.txs && w.txs[w.pending[s]].sequence == s && Registered(w.txs[w.pending[s]].phase))
    && (w.held.Some? ==> w.held.value.0 in w.txs && w.txs[w.held.value.0].sequence == w.held.value.1.sequence)
    && forall t :: t in w.txs ==> TxConsistent(w, t, w.txs[t])
  }

  predicate TxConsistent(w: World, t: TxID, tx: Tx) {
    && (Registered(tx.phase) && !w.failed ==> tx.sequence in w.pending && w.pending[tx.sequence] == t)
    && (tx.phase.Waiting? && w.failed ==> tx.resp.Some? || tx.err.Some?)
    && (tx.resp.Some? ==> tx.resp.value.sequence == tx.sequence && tx.resp.value.kind == tx.expected)
    && (tx.phase.Leaving? || tx.phase.Returned? ==> OwnAnswer(tx, tx.phase.outcome))
  }

  lemma FailPendingKeepsConsistent(w: World)
    requires Consistent(w)
    ensures Consistent(Do(w, FailPending))
  {
    var w' := Do(w, FailPending);
    if w.closed {
      forall t | t in w'.txs ensures TxConsistent(w', t, w'.txs[t]) {
        var tx := w.txs[t];
        assert TxConsistent(w, t, tx);
        assert Registered(tx.phase) && !w.failed ==> w.pending[tx.sequence] in w.pending.Values;
      }
    }
  }

  /** The steps of one caller. */
  lemma CallerKeepsConsistent(w: World, step: Step)
    requires Consistent(w) && (step.Begin? || step.Register? || step.Settle? || step.Unregister?)
    ensures Consistent(Do(w, step))
  {
    hide TxConsistent;
    var w' := Do(w, step);
    forall t | t in w'.txs ensures TxConsistent(w', t, w'.txs[t]) {
      if t in w.txs {
        CallerKeepsTx(w, step, t);
      } else {
        NewTx(w', t);
      }
    }
  }

  lemma NewTx(w: World, t: TxID)
    requires t in w.txs && w.txs[t].phase.Fresh? && w.txs[t].resp.None?
    ensures TxConsistent(w, t, w.txs[t])
  {
  }

  lemma CallerKeepsTx(w: World, step: Step, t: TxID)
    requires Consistent(w) && (step.Begin? || step.Register? || step.Settle? || step.Unregister?) && t in w.txs
    ensures t in Do(w, step).txs && TxConsistent(Do(w, step), t, Do(w, step).txs[t])
  {
    assert TxConsistent(w, t, w.txs[t]);
    if step.tx in w.txs {
      assert TxConsistent(w, step.tx, w.txs[step.tx]);
    }
  }

  lemma DoKeepsConsistent(w: World, step: Step)
    requires Consistent(w)
    ensures Consistent(Do(w, step))
  {
    hide Consistent, Do;
    if step.FailPending? {
      FailPendingKeepsConsistent(w);
    } else if step.Receive? || step.Deliver? || step.CloseChannel? {
      ReaderKeepsConsistent(w, step);
    } else {
      CallerKeepsConsistent(w, step);
    }
  }

  lemma ReaderKeepsConsistent(w: World, step: Step)
    requires Consistent(w) && (step.Receive? || step.Deliver? || step.CloseChannel?)
    ensures Consistent(Do(w, step))
  {
  }

  lemma {:induction false} RunKeepsConsistent(w: World, steps: seq<Step>)
    requires Consistent(w)
    ensures Consistent(Run(w, steps))
    decreases |steps|
  {
    if steps != [] {
      DoKeepsConsistent(w, steps[0]);
      RunKeepsConsistent(Do(w, steps[0]), steps[1..]);
    }
  }

  /** Close strands nobody: in every interleaving, once failPending has run every caller that
      still waits has a value to take, nobody can register any more, and the table is empty. */
  lemma CloseStrandsNobody(steps: seq<Step>, later: seq<Step>)
    requires Run(Start, steps).failed
    ensures var w := Run(Run(Start, steps), later);
            && w.pending == map[]
            && (forall t :: t in w.txs && w.txs[t].phase.Waiting? ==>
                  Picked(w.txs[t], Response).Some? || Picked(w.txs[t], Error).Some?)
            && (forall t :: t in w.txs && w.txs[t].phase.Fresh? ==>
                  Do(w, Register(t)).txs[t].phase == Returned(Err(ClientClosed)))
  {
    RunKeepsConsistent(Start, steps);
    var w := Run(Start, steps);
    RunKeepsConsistent(w, later);
    StaysFailed(w, later);
    forall t | t in Run(w, later).txs && Run(w, later).txs[t].phase.Waiting?
      ensures Picked(Run(w, later).txs[t], Response).Some? || Picked(Run(w, later).txs[t], Error).Some?
    {
      assert TxConsistent(Run(w, later), t, Run(w, later).txs[t]);
    }
  }

  lemma {:induction false} StaysFailed(w: World, steps: seq<Step>)
    requires w.failed
    ensures Run(w, steps).failed
    decreases |steps|
  {
    if steps != [] {
      StaysFailed(Do(w, steps[0]), steps[1..]);
    }
  }

  /** Success comes only with a response of the caller's own sequence and expected type, and
      no two registered transactions have the same sequence until Close. */
  lemma AnswersAreOwn(steps: seq<Step>, t: TxID, u: TxID)
    requires var w := Run(Start, steps); t in w.txs && u in w.txs
    ensures var w := Run(Start, steps);
            && (w.txs[t].phase.Returned? && w.txs[t].phase.outcome.Ok? ==>
                  && w.txs[t].phase.outcome.value.sequence == w.txs[t].sequence
                  && w.txs[t].phase.outcome.value.kind == w.txs[t].expected)
            && (!w.failed && Registered(w.txs[t].phase) && Registered(w.txs[u].phase) && w.txs[t].sequence == w.txs[u].sequence ==> t == u)
  {
    RunKeepsConsistent(Start, steps);
    var w := Run(Start, steps);
    assert TxConsistent(w, t, w.txs[t]) && TxConsistent(w, u, w.txs[u]);
  }

  /** An echo or delete request that comes in from the peer. */
  predicate InboundRequest(step: Step) {
    step.Receive? && (step.msg.kind == ECHO_REQUEST || step.msg.kind == DELETE_SESSION_REQUEST)
  }

  function WithoutInbound(steps: seq<Step>): seq<Step> {
    if steps == [] then []
    else (if InboundRequest(steps[0]) then [] else [steps[0]]) + WithoutInbound(steps[1..])
  }

  /** Requests from the peer consume no waiter: every run ends, for every caller, as the same
      run without them, even when a request carries the sequence number of a caller. */
  lemma {:induction false} InboundRequestsConsumeNoWaiter(w: World, steps: seq<Step>)
    ensures Run(w, steps) == Run(w, WithoutInbound(steps))
    decreases |steps|
  {
    if steps != [] {
      InboundRequestsConsumeNoWaiter(Do(w, steps[0]), steps[1..]);
      if !InboundRequest(steps[0]) {
        assert WithoutInbound(steps)[0] == steps[0] && WithoutInbound(steps)[1..] == WithoutInbound(steps[1..]);
      } else {
        assert WithoutInbound(steps) == WithoutInbound(steps[1..]);
      }
    }
  }

  /** Who waits, gets its response: from any run, a message with the sequence of a waiting
      transaction and the type it expects reaches it and is what its caller returns with. */
  lemma ResponseReachesItsCaller(steps: seq<Step>, t: TxID, msg: Msg)
    requires var w := Run(Start, steps);
             && !w.failed && w.held.None? && t in w.txs && w.txs[t].phase.Waiting?
             && w.txs[t].resp.None? && w.txs[t].err.None?
             && msg.sequence == w.txs[t].sequence && msg.kind == w.txs[t].expected && msg.kind != 1 && msg.kind != 36
    ensures var w := Run(Start, steps);
            var delivered := Do(Do(w, Receive(msg)), Deliver);
            && delivered.txs[t].resp == Some(msg) && delivered.txs[t].err.None?
            && Do(Do(delivered, Settle(t, Response)), Unregister(t)).txs[t].phase == Returned(Ok(msg))
            && Do(Do(delivered, Settle(t, Response)), Unregister(t)).pending == w.pending - {msg.sequence}
  {
    RunKeepsConsistent(Start, steps);
    var w := Run(Start, steps);
    assert TxConsistent(w, t, w.txs[t]);
  }

  /** A message of another type is reported to that caller as an error, and a message for a
      sequence nobody waits for changes nothing. */
  lemma OtherMessagesAreReported(steps: seq<Step>, t: TxID, msg: Msg)
    requires var w := Run(Start, steps);
             && !w.failed && w.held.None? && t in w.txs && w.txs[t].phase.Waiting?
             && w.txs[t].resp.None? && w.txs[t].err.None?
             && msg.sequence == w.txs[t].sequence && msg.kind != w.txs[t].expected && msg.kind != 1 && msg.kind != 36
    ensures var w := Run(Start, steps);
            var delivered := Do(Do(w, Receive(msg)), Deliver);
            && delivered.txs[t].err == Some(TypeMismatch) && delivered.txs[t].resp.None?
            && Do(Do(delivered, Settle(t, Error)), Unregister(t)).txs[t].phase == Returned(Err(TypeMismatch))
    ensures forall other: Msg :: other.sequence !in Run(Start, steps).pending ==>
              Do(Run(Start, steps), Receive(other)) == Run(Start, steps)
  {
    RunKeepsConsistent(Start, steps);
    var w := Run(Start, steps);
    assert TxConsistent(w, t, w.txs[t]);
  }

  /** A response that came first is what its caller takes, whatever comes after it. */
  lemma FirstResponseStays(w: World, t: TxID, step: Step)
    requires Consistent(w) && t in w.txs && w.txs[t].phase.Waiting? && w.txs[t].resp.Some?
    ensures var w' := Do(w, step);
            t in w'.txs && (w'.txs[t].phase.Waiting? ==> w'.txs[t].resp == w.txs[t].resp)
            && (step == Settle(t, Response) ==> w'.txs[t].phase == Leaving(Ok(w.txs[t].resp.value)))
  {
  }

  // --- the client's table ---

  class Transaction {
    const sequence: nat
    const expected: nat
    var resp: Option<Msg>
    var err: Option<Failure>

    constructor (sequence: nat, expected: nat)
      ensures this.sequence == sequence && this.expected == expected && resp == None && err == None
    {
      this.sequence, this.expected, this.resp, this.err := sequence, expected, None, None;
    }

    method Fail()
      modifies this`err
      ensures err == Offer(old(err), ClientClosed)
    {
      if err.None? {
        err := Some(ClientClosed);
      }
    }

    /** The transaction of a caller in phase p. */
    ghost function View(p: Phase): Tx
      reads this
    {
      Tx(sequence, expected, p, resp, err)
    }
  }

  /** Offers the close error to every transaction of a table. */
  method FailAll(table: map<nat, Transaction>)
    requires forall k :: k in table ==> table[k].sequence == k
    modifies table.Values
    ensures forall k :: k in table ==> table[k].err == Offer(old(table[k].err), ClientClosed)
    ensures forall k :: k in table ==> table[k].resp == old(table[k].resp)
  {
    var left := table.Keys;
    while left != {}
      invariant left <= table.Keys
      invariant forall k :: k in table ==> table[k].resp == old(table[k].resp)
      invariant forall k :: k in table ==>
                  table[k].err == if k in left then old(table[k].err) else Offer(old(table[k].err), ClientClosed)
    {
      var s :| s in left;
      table[s].Fail();
      left := left - {s};
    }
  }

  class Client {
    var pending: map<nat, Transaction>
    var closed: bool

    constructor ()
      ensures Valid() && pending == map[] && !closed
    {
      pending, closed := map[], false;
    }

    ghost predicate Valid()
      reads this
    {
      forall s :: s in pending ==> pending[s].sequence == s
    }

    method RegisterTransaction(tx: Transaction) returns (failure: Option<Failure>)
      requires Valid()
      modifies this`pending
      ensures Valid()
      ensures failure == if closed then Some(ClientClosed) else if tx.sequence in old(pending) then Some(DuplicateSequence) else None
      ensures pending == if failure.None? then old(pending)[tx.sequence := tx] else old(pending)
    {
      if closed {
        return Some(ClientClosed);
      }
      if tx.sequence in pending {
        return Some(DuplicateSequence);
      }
      pending := pending[tx.sequence := tx];
      failure := None;
    }

    method UnregisterTransaction(sequence: nat)
      requires Valid()
      modifies this`pending
      ensures Valid() && pending == old(pending) - {sequence}
    {
      pending := pending - {sequence};
    }

    method FailPendingTransactions()
      requires Valid()
      modifies this`pending, pending.Values
      ensures Valid() && pending == map[]
      ensures forall k :: k in old(pending) ==> old(pending)[k].View(Waiting) == Swept(old(pending[k].View(Waiting)))
    {
      FailAll(pending);
      pending := map[];
    }

    /** What the reader does with a message: it looks the transaction up, and sends to it. */
    method HandleIncoming(msg: Msg) returns (ghost found: Option<Transaction>)
      requires Valid()
      modifies pending.Values
      ensures found == if msg.kind != ECHO_REQUEST && msg.kind != DELETE_SESSION_REQUEST && msg.sequence in pending
                       then Some(pending[msg.sequence]) else None
      ensures forall tx: Transaction, p :: old(allocated(tx)) ==>
                tx.View(p) == if found == Some(tx) then Offered(old(tx.View(p)), msg) else old(tx.View(p))
      ensures msg.kind != 1 && msg.kind != 36 && msg.sequence in pending ==>
                var tx := pending[msg.sequence];
                if msg.kind == tx.expected
                then tx.err == old(tx.err) && tx.resp == if old(tx.resp).None? then Some(msg) else old(tx.resp)
                else tx.resp == old(tx.resp) && tx.err == if old(tx.err).None? then Some(TypeMismatch) else old(tx.err)
      ensures msg.kind == 1 || msg.kind == 36 || msg.sequence !in pending ==>
                forall tx: Transaction :: old(allocated(tx)) ==> tx.resp == old(tx.resp) && tx.err == old(tx.err)
    {
      found := None;
      if msg.kind == ECHO_REQUEST || msg.kind == DELETE_SESSION_REQUEST || msg.sequence !in pending {
        return;
      }
      var tx := pending[msg.sequence];
      found := Some(tx);
      if msg.kind != tx.expected {
        if tx.err.None? {
          tx.err := Some(TypeMismatch);
        }
      } else if tx.resp.None? {
        tx.resp := Some(msg);
      }
    }
  }
}
