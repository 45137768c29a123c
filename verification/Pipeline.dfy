/**
 * The saga together with the consumers that drive it. Both topics are split into lanes (partitions) by the order's
 * uuid, every lane has its own consumer, and a message reaches its handler only when the consumer of its lane hands
 * it over. What an order can still expect depends on where these consumers stand.
 */
module Pipeline {
  import opened Prelude
  import opened Parts
  import opened BatchSpec
  import opened Orders
  import opened Saga
  import opened SagaInvariants
  import opened SagaTheorems
  import Loop = ClaimLoop

  // Messages are keyed by the order's uuid, which decides the lane in both topics.
  datatype Topology = Topology(lanes: nat, lane: Uuid -> nat)

  ghost predicate Routed(g: Topology) {
    forall o: Uuid :: g.lane(o) < g.lanes
  }

  /** The messages of one lane, in log order. */
  function Lane(g: Topology, log: seq<Uuid>, p: nat): seq<Uuid> {
    if log == [] then []
    else
      var last := log[|log| - 1];
      Lane(g, log[..|log| - 1], p) + if g.lane(last) == p then [last] else []
  }

  datatype System = System(
    saga: State,
    assembly: seq<Loop.Partition>,       // consumers of order.paid, one a lane
    shipping: seq<Loop.Partition>,       // consumers of assembly.ship-assembled
    handling: map<nat, Uuid>)            // the order whose lock the handler of a shipping lane holds

  datatype Act =
    | Request(e: Event)                                  // a step of Create, Pay or Cancel, or a late effect
    | Answer(lane: nat, reply: Loop.Reply, sent: bool)   // OrderPaidHandler on the next message of its lane
    | Take(lane: nat)                                    // ShipAssembledHandler takes the order of its next message
    | Pass(lane: nat, reply: Loop.Reply)                 // ... finds it ASSEMBLED, or fails before it has the lock
    | Work(lane: nat, rows: seq<Uuid>)                   // ... has the parts committed
    | Finish(lane: nat, reply: Loop.Reply)               // ... commits; an error may still be reported afterwards
    | GiveUp(lane: nat, reply: Loop.Reply)               // ... rolls back
    | TurnAssembly(lane: nat, turn: Loop.Event)          // a session of a lane ends or begins
    | TurnShipping(lane: nat, turn: Loop.Event)

  function Start(t: Table, g: Topology): System {
    System(Initial(t), seq(g.lanes, _ => Loop.Initial(0)), seq(g.lanes, _ => Loop.Initial(0)), map[])
  }

  function IndexOf(log: seq<Uuid>, o: Uuid): (i: nat)
    requires o in log
    ensures i < |log| && log[i] == o
  {
    if log[0] == o then 0 else 1 + IndexOf(log[1..], o)
  }

  /** The message a consumer would hand over next. */
  function Head(g: Topology, log: seq<Uuid>, cs: seq<Loop.Partition>, p: nat): Option<Uuid> {
    if p < |cs| && cs[p].position < |Lane(g, log, p)| then Some(Lane(g, log, p)[cs[p].position]) else None
  }

  function HeadIndex(log: seq<Uuid>, head: Option<Uuid>): nat {
    if head.Some? && head.value in log then IndexOf(log, head.value) else |log|
  }

  predicate HandlerLock(os: OrderState) {
    Locked(os) && (os.lock.value.Shipping? || os.lock.value.Committed?)
  }

  /** Everything but the steps of the two handlers. */
  predicate IsRequest(s: State, e: Event) {
    && !e.Assemble? && !e.LockForShip? && !e.CommitParts? && !e.CommitShip?
    && (e.Abort? ==> e.order in s.orders && !HandlerLock(s.orders[e.order]))
  }

  /** The step of the saga an act makes, if it makes one. */
  function SagaStep(g: Topology, y: System, a: Act): Option<Event> {
    match a
    case Request(e) => Some(e)
    case Answer(p, _, sent) => if sent then Some(Assemble(HeadIndex(y.saga.paid, NextPaid(g, y, p)))) else None
    case Take(p) => Some(LockForShip(HeadIndex(y.saga.shipped, NextShipped(g, y, p))))
    case Pass(p, reply) =>
      if reply.Succeeded? then Some(LockForShip(HeadIndex(y.saga.shipped, NextShipped(g, y, p)))) else None
    case Work(p, rows) => if p in y.handling then Some(CommitParts(y.handling[p], rows)) else None
    case Finish(p, _) => if p in y.handling then Some(CommitShip(y.handling[p])) else None
    case GiveUp(p, _) => if p in y.handling then Some(Abort(y.handling[p])) else None
    case _ => None
  }

  function NextPaid(g: Topology, y: System, p: nat): Option<Uuid> {
    Head(g, y.saga.paid, y.assembly, p)
  }

  function NextShipped(g: Topology, y: System, p: nat): Option<Uuid> {
    Head(g, y.saga.shipped, y.shipping, p)
  }

  datatype Turn = Turn(lane: nat, event: Loop.Event)

  function AssemblyTurn(a: Act): Option<Turn> {
    match a
    case Answer(p, reply, _) => Some(Turn(p, Loop.Receive(reply)))
    case TurnAssembly(p, turn) => Some(Turn(p, turn))
    case _ => None
  }

  function ShippingTurn(a: Act): Option<Turn> {
    match a
    case Pass(p, reply) => Some(Turn(p, Loop.Receive(reply)))
    case Finish(p, reply) => Some(Turn(p, Loop.Receive(reply)))
    case GiveUp(p, reply) => Some(Turn(p, Loop.Receive(reply)))
    case TurnShipping(p, turn) => Some(Turn(p, turn))
    case _ => None
  }

  predicate CanTurn(cs: seq<Loop.Partition>, turn: Option<Turn>) {
    turn.Some? ==> turn.value.lane < |cs| && Loop.Enabled(cs[turn.value.lane], turn.value.event)
  }

  function Turned(cs: seq<Loop.Partition>, turn: Option<Turn>): seq<Loop.Partition>
    requires CanTurn(cs, turn)
  {
    if turn.None? then cs
    else cs[turn.value.lane := Loop.Apply(cs[turn.value.lane], turn.value.event)]
  }

  predicate IsAssembled(s: State, o: Uuid) {
    o in s.orders && s.orders[o].Stored? && s.orders[o].row.status.Assembled?
  }

  /**
   * What the consumers demand. One lane handles one message at a time; a session ends only when its handler has
   * returned; a handler that succeeds has sent its message, or has found or left the order ASSEMBLED.
   */
  predicate Guard(g: Topology, y: System, a: Act) {
    match a
    case Request(e) => IsRequest(y.saga, e)
    case Answer(p, reply, sent) => NextPaid(g, y, p).Some? && (reply.Succeeded? ==> sent)
    case Take(p) =>
      && p !in y.handling && NextShipped(g, y, p).Some? && y.shipping[p].open
      && !IsAssembled(y.saga, NextShipped(g, y, p).value)
    case Pass(p, reply) =>
      && p !in y.handling && NextShipped(g, y, p).Some?
      && (reply.Succeeded? ==> IsAssembled(y.saga, NextShipped(g, y, p).value))
    case Work(p, _) => p in y.handling
    case Finish(p, _) => p in y.handling
    case GiveUp(p, reply) => p in y.handling && !reply.Succeeded?
    case TurnAssembly(_, turn) => !turn.Receive?
    case TurnShipping(p, turn) => !turn.Receive? && p !in y.handling
  }

  predicate Ready(g: Topology, y: System, a: Act) {
    && Guard(g, y, a)
    && (SagaStep(g, y, a).Some? ==> Enabled(y.saga, SagaStep(g, y, a).value))
    && CanTurn(y.assembly, AssemblyTurn(a)) && CanTurn(y.shipping, ShippingTurn(a))
  }

  function HandlingAfter(g: Topology, y: System, a: Act): map<nat, Uuid> {
    match a
    case Take(p) => if NextShipped(g, y, p).Some? then y.handling[p := NextShipped(g, y, p).value] else y.handling
    case Finish(p, _) => y.handling - {p}
    case GiveUp(p, _) => y.handling - {p}
    case _ => y.handling
  }

  function SagaAfter(s: State, e: Option<Event>): State
    requires e.Some? ==> Enabled(s, e.value)
  {
    if e.Some? then Apply(s, e.value) else s
  }

  function Next(g: Topology, y: System, a: Act): System
    requires Ready(g, y, a)
  {
    System(SagaAfter(y.saga, SagaStep(g, y, a)), Turned(y.assembly, AssemblyTurn(a)),
           Turned(y.shipping, ShippingTurn(a)), HandlingAfter(g, y, a))
  }

  ghost predicate Executes(g: Topology, y: System, acts: seq<Act>)
    decreases |acts|, 0
  {
    acts == [] || (Executes(g, y, acts[..|acts| - 1]) && Ready(g, Final(g, y, acts[..|acts| - 1]), acts[|acts| - 1]))
  }

  ghost function Final(g: Topology, y: System, acts: seq<Act>): System
    requires Executes(g, y, acts)
    decreases |acts|, 1
  {
    if acts == [] then y else Next(g, Final(g, y, acts[..|acts| - 1]), acts[|acts| - 1])
  }

  predicate IsFault(g: Topology, y: System, a: Act) {
    SagaStep(g, y, a).Some? && Faulty(y.saga, SagaStep(g, y, a).value)
  }

  /** A run without any fault of the order side. */
  ghost predicate Cleanly(g: Topology, y: System, acts: seq<Act>)
    decreases |acts|
  {
    && Executes(g, y, acts)
    && (acts == [] || (Cleanly(g, y, acts[..|acts| - 1])
                       && !IsFault(g, Final(g, y, acts[..|acts| - 1]), acts[|acts| - 1])))
  }

  /** The steps of the saga in a run. */
  ghost function Events(g: Topology, y: System, acts: seq<Act>): seq<Event>
    requires Executes(g, y, acts)
  {
    if acts == [] then []
    else
      var e := SagaStep(g, Final(g, y, acts[..|acts| - 1]), acts[|acts| - 1]);
      Events(g, y, acts[..|acts| - 1]) + if e.Some? then [e.value] else []
  }

  /** Every run of the whole is a run of the saga, and a clean one a clean one. */
  lemma {:induction false} IsSagaRun(t0: Table, g: Topology, acts: seq<Act>)
    requires Executes(g, Start(t0, g), acts)
    ensures var es := Events(g, Start(t0, g), acts);
            && Runs(Initial(t0), es) && Exec(Initial(t0), es) == Final(g, Start(t0, g), acts).saga
            && (Cleanly(g, Start(t0, g), acts) ==> CleanRun(Initial(t0), es))
  {
    if acts != [] {
      var init, a := acts[..|acts| - 1], acts[|acts| - 1];
      IsSagaRun(t0, g, init);
      var e := SagaStep(g, Final(g, Start(t0, g), init), a);
      var es := Events(g, Start(t0, g), init);
      if e.Some? {
        AppendEvent(Initial(t0), es, e.value);
      } else {
        assert es + [] == es;
      }
    }
  }

  // ---- lanes ----

  lemma LaneAppend(g: Topology, log: seq<Uuid>, more: seq<Uuid>, p: nat)
    requires |more| <= 1
    ensures Lane(g, log + more, p) == Lane(g, log, p) + if more != [] && g.lane(more[0]) == p then more else []
  {
    if more == [] {
      assert log + more == log;
    } else {
      assert (log + more)[..|log|] == log;
    }
  }

  lemma {:induction false} LaneMember(g: Topology, log: seq<Uuid>, p: nat, o: Uuid)
    ensures o in Lane(g, log, p) <==> o in log && g.lane(o) == p
  {
    if log != [] {
      LaneMember(g, log[..|log| - 1], p, o);
      assert log == log[..|log| - 1] + [log[|log| - 1]];
    }
  }

  function NewPaid(e: Event): seq<Uuid> {
    if e.Publish? || e.LatePublish? then [e.order] else []
  }

  function NewShipped(s: State, e: Event): seq<Uuid> {
    if e.Assemble? && e.offset < |s.paid| then [s.paid[e.offset]] else []
  }

  lemma LogsGrow(s: State, e: Event)
    requires Enabled(s, e)
    ensures Apply(s, e).paid == s.paid + NewPaid(e) && Apply(s, e).shipped == s.shipped + NewShipped(s, e)
  {
  }

  /** What an act adds to the two logs. */
  function AddsPaid(g: Topology, y: System, a: Act): seq<Uuid> {
    if SagaStep(g, y, a).Some? then NewPaid(SagaStep(g, y, a).value) else []
  }

  function AddsShipped(g: Topology, y: System, a: Act): seq<Uuid> {
    if SagaStep(g, y, a).Some? then NewShipped(y.saga, SagaStep(g, y, a).value) else []
  }

  lemma LanesGrow(g: Topology, y: System, a: Act, p: nat)
    requires Ready(g, y, a)
    ensures Lane(g, y.saga.paid, p) <= Lane(g, Next(g, y, a).saga.paid, p)
    ensures Lane(g, y.saga.shipped, p) <= Lane(g, Next(g, y, a).saga.shipped, p)
    ensures Next(g, y, a).saga.paid == y.saga.paid + AddsPaid(g, y, a)
    ensures Next(g, y, a).saga.shipped == y.saga.shipped + AddsShipped(g, y, a)
  {
    if SagaStep(g, y, a).Some? {
      LogsGrow(y.saga, SagaStep(g, y, a).value);
    }
    LaneAppend(g, y.saga.paid, AddsPaid(g, y, a), p);
    LaneAppend(g, y.saga.shipped, AddsShipped(g, y, a), p);
  }

  /** The head of a lane is a message of the log. */
  lemma HeadInLog(g: Topology, log: seq<Uuid>, cs: seq<Loop.Partition>, p: nat)
    requires Head(g, log, cs, p).Some?
    ensures var o := Head(g, log, cs, p).value;
            g.lane(o) == p && HeadIndex(log, Some(o)) < |log| && log[HeadIndex(log, Some(o))] == o
  {
    LaneMember(g, log, p, Head(g, log, cs, p).value);
  }

  // ---- what every run keeps ----

  ghost predicate LoopOk(c: Loop.Partition, lane: seq<Uuid>) {
    Loop.Inv(0, c) && Loop.Settled(0, c) && c.position <= |lane|
  }

  ghost predicate LanesOk(g: Topology, y: System) {
    && |y.assembly| == |y.shipping| == g.lanes
    && forall p :: 0 <= p < g.lanes ==>
         LoopOk(y.assembly[p], Lane(g, y.saga.paid, p)) && LoopOk(y.shipping[p], Lane(g, y.saga.shipped, p))
  }

  /** The handler of a lane works on the message its consumer stands at, and holds the lock of that order. */
  ghost predicate HandlingOk(g: Topology, y: System, p: nat) {
    && p in y.handling && p < |y.shipping| && y.shipping[p].open && NextShipped(g, y, p) == Some(y.handling[p])
    && y.handling[p] in y.saga.orders && HandlerLock(y.saga.orders[y.handling[p]])
  }

  /** Every message of order.paid that was handled successfully has been answered ... */
  ghost predicate AnswersSent(g: Topology, y: System, p: nat)
    requires p < |y.assembly|
  {
    var c, lane := y.assembly[p], Lane(g, y.saga.paid, p);
    forall k :: 0 <= k < |c.trace| && c.trace[k].reply.Succeeded? ==>
      c.trace[k].offset < |lane| && lane[c.trace[k].offset] in y.saga.shipped
  }

  /** ... and every answer that was handled successfully is about an ASSEMBLED order. */
  ghost predicate ShipsDone(g: Topology, y: System, p: nat)
    requires p < |y.shipping|
  {
    AllDone(y.shipping[p].trace, Lane(g, y.saga.shipped, p), y.saga)
  }

  ghost predicate AllDone(trace: seq<Loop.Delivery>, lane: seq<Uuid>, s: State) {
    forall k :: 0 <= k < |trace| && trace[k].reply.Succeeded? ==>
      trace[k].offset < |lane| && IsAssembled(s, lane[trace[k].offset])
  }

  ghost predicate SystemInv(t0: Table, g: Topology, y: System) {
    && Inv(t0, y.saga) && LanesOk(g, y)
    && (forall p :: p in y.handling ==> HandlingOk(g, y, p))
    && (forall p :: 0 <= p < g.lanes ==> AnswersSent(g, y, p) && ShipsDone(g, y, p))
  }

  lemma LoopKept(c: Loop.Partition, e: Loop.Event, lane: seq<Uuid>, lane': seq<Uuid>)
    requires LoopOk(c, lane) && Loop.Enabled(c, e) && lane <= lane' && (e.Receive? ==> c.position < |lane|)
    ensures LoopOk(Loop.Apply(c, e), lane')
  {
    Loop.InvStep(0, c, e);
    Loop.SettledStep(0, c, e);
  }

  lemma TurnKept(g: Topology, cs: seq<Loop.Partition>, turn: Option<Turn>, log: seq<Uuid>, log': seq<Uuid>, p: nat)
    requires p < |cs| && LoopOk(cs[p], Lane(g, log, p)) && CanTurn(cs, turn) && Lane(g, log, p) <= Lane(g, log', p)
    requires turn.Some? && turn.value.lane == p && turn.value.event.Receive? ==> Head(g, log, cs, p).Some?
    ensures LoopOk(Turned(cs, turn)[p], Lane(g, log', p))
  {
    if turn.Some? && turn.value.lane == p {
      LoopKept(cs[p], turn.value.event, Lane(g, log, p), Lane(g, log', p));
    }
  }

  /** A consumer only takes what its lane holds. */
  lemma TakesHead(g: Topology, y: System, a: Act)
    requires (forall p :: p in y.handling ==> HandlingOk(g, y, p)) && Ready(g, y, a)
    ensures var turn := AssemblyTurn(a);
            turn.Some? && turn.value.event.Receive? ==> NextPaid(g, y, turn.value.lane).Some?
    ensures var turn := ShippingTurn(a);
            turn.Some? && turn.value.event.Receive? ==> NextShipped(g, y, turn.value.lane).Some?
  {
  }

  lemma LaneKept(g: Topology, y: System, a: Act, p: nat)
    requires LanesOk(g, y) && Ready(g, y, a) && p < g.lanes
    requires var turn := AssemblyTurn(a);
             turn.Some? && turn.value.event.Receive? ==> NextPaid(g, y, turn.value.lane).Some?
    requires var turn := ShippingTurn(a);
             turn.Some? && turn.value.event.Receive? ==> NextShipped(g, y, turn.value.lane).Some?
    ensures var z := Next(g, y, a);
            LoopOk(z.assembly[p], Lane(g, z.saga.paid, p)) && LoopOk(z.shipping[p], Lane(g, z.saga.shipped, p))
  {
    var z := Next(g, y, a);
    LanesGrow(g, y, a, p);
    TurnKept(g, y.assembly, AssemblyTurn(a), y.saga.paid, z.saga.paid, p);
    TurnKept(g, y.shipping, ShippingTurn(a), y.saga.shipped, z.saga.shipped, p);
  }

  lemma LanesKept(g: Topology, y: System, a: Act)
    requires LanesOk(g, y) && (forall p :: p in y.handling ==> HandlingOk(g, y, p)) && Ready(g, y, a)
    ensures LanesOk(g, Next(g, y, a))
  {
    TakesHead(g, y, a);
    var z := Next(g, y, a);
    forall p | 0 <= p < g.lanes
      ensures LoopOk(z.assembly[p], Lane(g, z.saga.paid, p)) && LoopOk(z.shipping[p], Lane(g, z.saga.shipped, p))
    {
      LaneKept(g, y, a, p);
    }
  }

  // ---- the handlers ----

  /** A lock the handler of another lane, or no handler, acts on is not this one. */
  lemma OthersLockKept(s: State, e: Event, o: Uuid)
    requires Enabled(s, e) && o in s.orders && HandlerLock(s.orders[o])
    requires Subject(s, e) == Some(o) ==> IsRequest(s, e) || e.LockForShip? || e.CommitParts?
    ensures o in Apply(s, e).orders && HandlerLock(Apply(s, e).orders[o])
  {
    if Subject(s, e) == Some(o) {
      OrderAfter(s, e, o);
    } else {
      OrderStays(s, e, o);
    }
  }

  lemma OrderStays(s: State, e: Event, o: Uuid)
    requires Enabled(s, e) && Subject(s, e) != Some(o) && o in s.orders
    ensures o in Apply(s, e).orders && Apply(s, e).orders[o] == s.orders[o]
  {
  }

  /** Two lanes handle two orders. */
  lemma LanesApart(g: Topology, y: System, p: nat, q: nat)
    requires HandlingOk(g, y, p) && HandlingOk(g, y, q) && p != q
    ensures y.handling[p] != y.handling[q]
  {
    HeadInLog(g, y.saga.shipped, y.shipping, p);
    HeadInLog(g, y.saga.shipped, y.shipping, q);
  }

  /** An act that ends the handling of lane p is an act of lane p. */
  lemma HandlingLockKept(g: Topology, y: System, a: Act, p: nat)
    requires (forall q :: q in y.handling ==> HandlingOk(g, y, q)) && Ready(g, y, a)
    requires p in y.handling && !((a.Finish? || a.GiveUp?) && a.lane == p)
    ensures var o, z := y.handling[p], Next(g, y, a);
            o in z.saga.orders && HandlerLock(z.saga.orders[o])
  {
    var o, e := y.handling[p], SagaStep(g, y, a);
    if e.Some? {
      if (a.Finish? || a.GiveUp?) {
        LanesApart(g, y, p, a.lane);
      }
      OthersLockKept(y.saga, e.value, o);
    }
  }

  /** While a handler works, its consumer stands still. */
  lemma ConsumerStands(g: Topology, y: System, a: Act, p: nat)
    requires Ready(g, y, a) && p in y.handling && p < |y.shipping| && !((a.Finish? || a.GiveUp?) && a.lane == p)
    ensures Turned(y.shipping, ShippingTurn(a))[p] == y.shipping[p]
  {
  }

  lemma HeadFixed(g: Topology, log: seq<Uuid>, log': seq<Uuid>, cs: seq<Loop.Partition>, cs': seq<Loop.Partition>,
                  p: nat)
    requires p < |cs| == |cs'| && cs'[p] == cs[p] && Lane(g, log, p) <= Lane(g, log', p) && Head(g, log, cs, p).Some?
    ensures Head(g, log', cs', p) == Head(g, log, cs, p)
  {
  }

  lemma HeadKept(g: Topology, y: System, a: Act, p: nat)
    requires Ready(g, y, a) && p in y.handling && HandlingOk(g, y, p) && !((a.Finish? || a.GiveUp?) && a.lane == p)
    ensures var z := Next(g, y, a);
            p < |z.shipping| && z.shipping[p] == y.shipping[p] && NextShipped(g, z, p) == NextShipped(g, y, p)
  {
    var z := Next(g, y, a);
    ConsumerStands(g, y, a, p);
    LanesGrow(g, y, a, p);
    HeadFixed(g, y.saga.shipped, z.saga.shipped, y.shipping, z.shipping, p);
  }

  lemma TakeKept(g: Topology, y: System, p: nat)
    requires Ready(g, y, Take(p))
    ensures HandlingOk(g, Next(g, y, Take(p)), p)
  {
    HeadInLog(g, y.saga.shipped, y.shipping, p);
    var o, z := NextShipped(g, y, p).value, Next(g, y, Take(p));
    OrderAfter(y.saga, SagaStep(g, y, Take(p)).value, o);
    LanesGrow(g, y, Take(p), p);
  }

  lemma HandlingKept(g: Topology, y: System, a: Act, p: nat)
    requires (forall q :: q in y.handling ==> HandlingOk(g, y, q)) && Ready(g, y, a)
    requires p in Next(g, y, a).handling
    ensures HandlingOk(g, Next(g, y, a), p)
  {
    if a == Take(p) {
      TakeKept(g, y, p);
    } else {
      HandlingLockKept(g, y, a, p);
      HeadKept(g, y, a, p);
    }
  }

  // ---- what success means ----

  lemma AssembledStays(t0: Table, s: State, e: Event, o: Uuid)
    requires Inv(t0, s) && Enabled(s, e) && IsAssembled(s, o)
    ensures IsAssembled(Apply(s, e), o)
  {
    if Subject(s, e) == Some(o) {
      RowFacts(t0, s, o);
      OrderAfter(s, e, o);
    } else {
      OrderStays(s, e, o);
    }
  }

  lemma AssembledKept(t0: Table, g: Topology, y: System, a: Act, o: Uuid)
    requires Inv(t0, y.saga) && Ready(g, y, a) && IsAssembled(y.saga, o)
    ensures IsAssembled(Next(g, y, a).saga, o)
  {
    if SagaStep(g, y, a).Some? {
      AssembledStays(t0, y.saga, SagaStep(g, y, a).value, o);
    }
  }

  /** The message at the head of lane p is handled successfully: its answer is in the log. */
  lemma AnswerIsSent(g: Topology, y: System, a: Act, p: nat)
    requires Ready(g, y, a) && a.Answer? && a.lane == p && a.reply.Succeeded?
    ensures NextPaid(g, y, p).value in Next(g, y, a).saga.shipped
  {
    HeadInLog(g, y.saga.paid, y.assembly, p);
    LanesGrow(g, y, a, p);
    assert Next(g, y, a).saga.shipped[|y.saga.shipped|] == NextPaid(g, y, p).value;
  }

  /** A turn of another lane, or none, adds nothing to the trace of a consumer; a delivery adds itself. */
  lemma TraceAfter(cs: seq<Loop.Partition>, turn: Option<Turn>, p: nat)
    requires p < |cs| && CanTurn(cs, turn)
    ensures var c, d := cs[p], Turned(cs, turn)[p];
            if turn.Some? && turn.value.lane == p && turn.value.event.Receive?
            then d.trace == c.trace + [Loop.Delivery(c.session, c.position, turn.value.event.reply)]
            else d.trace == c.trace
  {
  }

  lemma AnswersKept(g: Topology, y: System, a: Act, p: nat)
    requires Ready(g, y, a) && p < |y.assembly| && AnswersSent(g, y, p)
    ensures AnswersSent(g, Next(g, y, a), p)
  {
    var z := Next(g, y, a);
    LanesGrow(g, y, a, p);
    TraceAfter(y.assembly, AssemblyTurn(a), p);
    if AssemblyTurn(a) == Some(Turn(p, Loop.Receive(Loop.Succeeded))) {
      AnswerIsSent(g, y, a, p);
    }
  }

  /** The message at the head of lane p is handled successfully: its order is ASSEMBLED. */
  lemma ShipIsDone(t0: Table, g: Topology, y: System, a: Act, p: nat)
    requires Inv(t0, y.saga) && (p in y.handling ==> HandlingOk(g, y, p)) && Ready(g, y, a)
    requires ShippingTurn(a) == Some(Turn(p, Loop.Receive(Loop.Succeeded)))
    ensures NextShipped(g, y, p).Some? && IsAssembled(Next(g, y, a).saga, NextShipped(g, y, p).value)
  {
    var o := NextShipped(g, y, p).value;
    if a.Pass? {
      AssembledKept(t0, g, y, a, o);
    } else {
      OrderAfter(y.saga, CommitShip(o), o);
    }
  }

  lemma DoneStays(t0: Table, g: Topology, y: System, a: Act, p: nat)
    requires Inv(t0, y.saga) && Ready(g, y, a) && p < |y.shipping| && ShipsDone(g, y, p)
    ensures AllDone(y.shipping[p].trace, Lane(g, Next(g, y, a).saga.shipped, p), Next(g, y, a).saga)
  {
    LanesGrow(g, y, a, p);
    var trace := y.shipping[p].trace;
    forall k | 0 <= k < |trace| && trace[k].reply.Succeeded?
      ensures IsAssembled(Next(g, y, a).saga, Lane(g, y.saga.shipped, p)[trace[k].offset])
    {
      AssembledKept(t0, g, y, a, Lane(g, y.saga.shipped, p)[trace[k].offset]);
    }
  }

  lemma DoneAppend(trace: seq<Loop.Delivery>, lane: seq<Uuid>, s: State, d: Loop.Delivery)
    requires AllDone(trace, lane, s)
    requires d.reply.Succeeded? ==> d.offset < |lane| && IsAssembled(s, lane[d.offset])
    ensures AllDone(trace + [d], lane, s)
  {
  }

  lemma ShipsKept(t0: Table, g: Topology, y: System, a: Act, p: nat)
    requires Inv(t0, y.saga) && (p in y.handling ==> HandlingOk(g, y, p)) && Ready(g, y, a)
    requires p < |y.shipping| && ShipsDone(g, y, p)
    ensures ShipsDone(g, Next(g, y, a), p)
  {
    DoneStays(t0, g, y, a, p);
    TraceAfter(y.shipping, ShippingTurn(a), p);
    var c, turn := y.shipping[p], ShippingTurn(a);
    if turn.Some? && turn.value.lane == p && turn.value.event.Receive? {
      var d := Loop.Delivery(c.session, c.position, turn.value.event.reply);
      if d.reply.Succeeded? {
        ShipIsDone(t0, g, y, a, p);
        LanesGrow(g, y, a, p);
      }
      DoneAppend(c.trace, Lane(g, Next(g, y, a).saga.shipped, p), Next(g, y, a).saga, d);
    }
  }

  lemma {:induction false} SystemStep(t0: Table, g: Topology, y: System, a: Act)
    requires SystemInv(t0, g, y) && Ready(g, y, a)
    ensures SystemInv(t0, g, Next(g, y, a))
  {
    if SagaStep(g, y, a).Some? {
      InvStep(t0, y.saga, SagaStep(g, y, a).value);
    }
    LanesKept(g, y, a);
    forall p | p in Next(g, y, a).handling ensures HandlingOk(g, Next(g, y, a), p) {
      HandlingKept(g, y, a, p);
    }
    forall p | 0 <= p < g.lanes ensures AnswersSent(g, Next(g, y, a), p) && ShipsDone(g, Next(g, y, a), p) {
      AnswersKept(g, y, a, p);
      ShipsKept(t0, g, y, a, p);
    }
  }

  lemma {:induction false} SystemRun(t0: Table, g: Topology, acts: seq<Act>)
    requires SoundTable(t0) && Executes(g, Start(t0, g), acts)
    ensures SystemInv(t0, g, Final(g, Start(t0, g), acts))
  {
    if acts == [] {
      InitialInv(t0);
    } else {
      SystemRun(t0, g, acts[..|acts| - 1]);
      SystemStep(t0, g, Final(g, Start(t0, g), acts[..|acts| - 1]), acts[|acts| - 1]);
    }
  }

  // ---- what an order can still expect ----

  /** A message about o lies at or after the mark of its consumer. */
  ghost predicate Ahead(lane: seq<Uuid>, c: Loop.Partition, o: Uuid) {
    exists i :: c.marked <= i < |lane| && lane[i] == o
  }

  /** One of the messages about order o can still be handed over. */
  ghost predicate Waiting(g: Topology, y: System, o: Uuid) {
    var p := g.lane(o);
    && p < |y.assembly| && p < |y.shipping|
    && (Ahead(Lane(g, y.saga.paid, p), y.assembly[p], o) || Ahead(Lane(g, y.saga.shipped, p), y.shipping[p], o))
  }

  predicate At(s: State, o: Uuid, row: Order) {
    o in s.orders && s.orders[o] == Stored(row, None)
  }

  lemma NotAheadStep(lane: seq<Uuid>, c: Loop.Partition, o: Uuid, lane': seq<Uuid>, c': Loop.Partition)
    requires !Ahead(lane, c, o) && c'.marked >= c.marked && lane <= lane'
    requires forall i :: |lane| <= i < |lane'| ==> lane'[i] != o
    ensures !Ahead(lane', c', o)
  {
  }

  lemma MarksGrow(cs: seq<Loop.Partition>, turn: Option<Turn>, p: nat)
    requires p < |cs| && CanTurn(cs, turn)
    ensures Turned(cs, turn)[p].marked >= cs[p].marked
  {
  }

  /** An unlocked PAID order about which no message can be handed over, and none can still be published. */
  ghost predicate Stranded(g: Topology, y: System, o: Uuid, row: Order) {
    && At(y.saga, o, row) && row.status.Paid? && !Waiting(g, y, o)
    && forall h: Holder :: h.Charged? ==> Orphan(o, h) !in y.saga.orphans
  }

  /** Nothing new is published about such an order, and nothing answered. */
  lemma NothingNew(g: Topology, y: System, a: Act, o: Uuid, row: Order)
    requires LanesOk(g, y) && Routed(g) && Ready(g, y, a) && Stranded(g, y, o, row)
    ensures o !in AddsPaid(g, y, a) && o !in AddsShipped(g, y, a)
  {
    if a.Answer? && a.sent {
      HeadInLog(g, y.saga.paid, y.assembly, a.lane);
      assert LoopOk(y.assembly[a.lane], Lane(g, y.saga.paid, a.lane));
    }
  }

  lemma StillBehind(g: Topology, log: seq<Uuid>, cs: seq<Loop.Partition>, more: seq<Uuid>, turn: Option<Turn>, o: Uuid)
    requires g.lane(o) < |cs| && CanTurn(cs, turn) && |more| <= 1 && o !in more
    requires !Ahead(Lane(g, log, g.lane(o)), cs[g.lane(o)], o)
    ensures !Ahead(Lane(g, log + more, g.lane(o)), Turned(cs, turn)[g.lane(o)], o)
  {
    var p := g.lane(o);
    MarksGrow(cs, turn, p);
    LaneAppend(g, log, more, p);
    NotAheadStep(Lane(g, log, p), cs[p], o, Lane(g, log + more, p), Turned(cs, turn)[p]);
  }

  lemma StillNotWaiting(g: Topology, y: System, a: Act, o: Uuid)
    requires LanesOk(g, y) && Routed(g) && Ready(g, y, a) && !Waiting(g, y, o)
    requires o !in AddsPaid(g, y, a) && o !in AddsShipped(g, y, a)
    ensures !Waiting(g, Next(g, y, a), o)
  {
    LanesGrow(g, y, a, g.lane(o));
    StillBehind(g, y.saga.paid, y.assembly, AddsPaid(g, y, a), AssemblyTurn(a), o);
    StillBehind(g, y.saga.shipped, y.shipping, AddsShipped(g, y, a), ShippingTurn(a), o);
  }

  /** Pay and Cancel refuse a PAID order ... */
  lemma RequestsRefuse(s: State, e: Event, o: Uuid, row: Order)
    requires Enabled(s, e) && At(s, o, row) && row.status.Paid? && (Subject(s, e) == Some(o) ==> !e.LockForShip?)
    ensures At(Apply(s, e), o, row)
  {
    if Subject(s, e) == Some(o) {
      OrderAfter(s, e, o);
    } else {
      OrderStays(s, e, o);
    }
  }

  /** ... and no handler takes one whose messages are behind the mark. */
  lemma NobodyTakes(g: Topology, y: System, a: Act, o: Uuid, row: Order)
    requires LanesOk(g, y) && Routed(g) && Ready(g, y, a) && Stranded(g, y, o, row)
    ensures At(Next(g, y, a).saga, o, row)
  {
    var e := SagaStep(g, y, a);
    if a.Take? || a.Pass? {
      HeadInLog(g, y.saga.shipped, y.shipping, a.lane);
      assert LoopOk(y.shipping[a.lane], Lane(g, y.saga.shipped, a.lane));
    }
    if e.Some? {
      RequestsRefuse(y.saga, e.value, o, row);
    }
  }

  lemma NoNewOrphan(s: State, e: Event, o: Uuid, h: Holder)
    requires Enabled(s, e) && o in s.orders && s.orders[o].Stored? && s.orders[o].lock.None?
    requires Orphan(o, h) !in s.orphans
    ensures Orphan(o, h) !in Apply(s, e).orphans
  {
  }

  lemma {:induction false} StrandedStep(t0: Table, g: Topology, y: System, a: Act, o: Uuid, row: Order)
    requires SystemInv(t0, g, y) && Routed(g) && Ready(g, y, a) && Stranded(g, y, o, row)
    ensures Stranded(g, Next(g, y, a), o, row)
  {
    NothingNew(g, y, a, o, row);
    StillNotWaiting(g, y, a, o);
    NobodyTakes(g, y, a, o, row);
    forall h: Holder | h.Charged? ensures Orphan(o, h) !in Next(g, y, a).saga.orphans {
      if SagaStep(g, y, a).Some? {
        NoNewOrphan(y.saga, SagaStep(g, y, a).value, o, h);
      }
    }
  }

  /** Whatever happens next, faults included, such an order stays as it is. */
  lemma {:induction false} StrandedForever(t0: Table, g: Topology, y: System, more: seq<Act>, o: Uuid, row: Order)
    requires SystemInv(t0, g, y) && Routed(g) && Stranded(g, y, o, row) && Executes(g, y, more)
    ensures SystemInv(t0, g, Final(g, y, more)) && Stranded(g, Final(g, y, more), o, row)
  {
    if more != [] {
      var init := more[..|more| - 1];
      StrandedForever(t0, g, y, init, o, row);
      StrandedStep(t0, g, Final(g, y, init), more[|more| - 1], o, row);
      SystemStep(t0, g, Final(g, y, init), more[|more| - 1]);
    }
  }

  // ---- how a waiting order is completed ----

  /** Some run leads from y to z without any fault of the order side. */
  ghost predicate Reaches(g: Topology, y: System, z: System) {
    exists acts :: Cleanly(g, y, acts) && Final(g, y, acts) == z
  }

  lemma AppendAct(g: Topology, y: System, acts: seq<Act>, a: Act)
    requires Executes(g, y, acts) && Ready(g, Final(g, y, acts), a)
    ensures Executes(g, y, acts + [a]) && Final(g, y, acts + [a]) == Next(g, Final(g, y, acts), a)
    ensures Cleanly(g, y, acts) && !IsFault(g, Final(g, y, acts), a) ==> Cleanly(g, y, acts + [a])
    ensures SagaStep(g, Final(g, y, acts), a).Some? ==>
      Events(g, y, acts + [a]) == Events(g, y, acts) + [SagaStep(g, Final(g, y, acts), a).value]
  {
    assert (acts + [a])[..|acts|] == acts;
  }

  lemma {:induction false} Concatenate(g: Topology, x: System, acts: seq<Act>, y: System, more: seq<Act>)
    requires Executes(g, x, acts) && Final(g, x, acts) == y && Executes(g, y, more)
    ensures Executes(g, x, acts + more) && Final(g, x, acts + more) == Final(g, y, more)
    decreases |more|
  {
    if more == [] {
      assert acts + more == acts;
    } else {
      Concatenate(g, x, acts, y, more[..|more| - 1]);
      assert (acts + more)[..|acts + more| - 1] == acts + more[..|more| - 1];
    }
  }

  lemma ReachesSelf(g: Topology, y: System)
    ensures Reaches(g, y, y)
  {
    assert Cleanly(g, y, []);
  }

  lemma Then(g: Topology, x: System, y: System, a: Act)
    requires Reaches(g, x, y) && Ready(g, y, a) && !IsFault(g, y, a)
    ensures Reaches(g, x, Next(g, y, a))
  {
    var acts :| Cleanly(g, x, acts) && Final(g, x, acts) == y;
    AppendAct(g, x, acts, a);
  }

  /** The handler of lane p, if there is one, ends without success, and no claim of others is touched. */
  lemma ClearLane(g: Topology, y: System, p: nat, o: Uuid, row: Order) returns (z: System)
    requires p < |y.shipping| && (p in y.handling ==> HandlingOk(g, y, p)) && At(y.saga, o, row)
    ensures Reaches(g, y, z) && p !in z.handling && At(z.saga, o, row)
    ensures z.saga.table == y.saga.table && z.saga.paid == y.saga.paid && z.saga.shipped == y.saga.shipped
    ensures z.assembly == y.assembly && |z.shipping| == |y.shipping| && z.shipping[p].marked == y.shipping[p].marked
  {
    ReachesSelf(g, y);
    z := y;
    if p in y.handling {
      var other := y.handling[p];
      var a := if y.saga.orders[other].lock.value.Committed? then Finish(p, Loop.Cancelled)
               else GiveUp(p, Loop.Cancelled);
      EndsQuietly(g, y, p, other);
      OrderStays(y.saga, SagaStep(g, y, a).value, o);
      Then(g, y, y, a);
      z := Next(g, y, a);
    }
  }

  /** Committing the row, or rolling back before the parts are committed, is no fault and touches nothing else. */
  lemma EndsQuietly(g: Topology, y: System, p: nat, other: Uuid)
    requires p in y.handling && HandlingOk(g, y, p) && y.handling[p] == other
    ensures var a := if y.saga.orders[other].lock.value.Committed? then Finish(p, Loop.Cancelled)
                     else GiveUp(p, Loop.Cancelled);
            && Ready(g, y, a) && !IsFault(g, y, a) && Subject(y.saga, SagaStep(g, y, a).value) == Some(other)
            && Next(g, y, a).saga.table == y.saga.table && Next(g, y, a).saga.paid == y.saga.paid
            && Next(g, y, a).saga.shipped == y.saga.shipped
  {
  }

  /** After a rebalance the assembly consumer can work its way to offset i of its lane. */
  lemma {:induction false} WalkAssembly(g: Topology, y: System, p: nat, i: nat) returns (z: System)
    requires p < |y.assembly| && y.assembly[p].marked <= i <= |Lane(g, y.saga.paid, p)|
    ensures Reaches(g, y, z) && z == y.(assembly := z.assembly)
    ensures |z.assembly| == |y.assembly| && z.assembly[p].position == i && z.assembly[p].open
    decreases i - y.assembly[p].marked
  {
    if i == y.assembly[p].marked {
      ReachesSelf(g, y);
      Then(g, y, y, TurnAssembly(p, Loop.Rebalance));
      z := Next(g, y, TurnAssembly(p, Loop.Rebalance));
    } else {
      var x := WalkAssembly(g, y, p, i - 1);
      Then(g, y, x, Answer(p, Loop.Failed, false));
      z := Next(g, x, Answer(p, Loop.Failed, false));
    }
  }

  /** And so can the consumer of the answers. */
  lemma {:induction false} WalkShipping(g: Topology, y: System, p: nat, i: nat) returns (z: System)
    requires p < |y.shipping| && p !in y.handling && y.shipping[p].marked <= i <= |Lane(g, y.saga.shipped, p)|
    ensures Reaches(g, y, z) && z == y.(shipping := z.shipping)
    ensures |z.shipping| == |y.shipping| && z.shipping[p].position == i && z.shipping[p].open
    decreases i - y.shipping[p].marked
  {
    if i == y.shipping[p].marked {
      ReachesSelf(g, y);
      Then(g, y, y, TurnShipping(p, Loop.Rebalance));
      z := Next(g, y, TurnShipping(p, Loop.Rebalance));
    } else {
      var x := WalkShipping(g, y, p, i - 1);
      Then(g, y, x, Pass(p, Loop.Failed));
      z := Next(g, x, Pass(p, Loop.Failed));
    }
  }

  /** The message about o at the head of its lane is answered. */
  lemma AnswerHead(g: Topology, x: System, y: System, p: nat, o: Uuid, row: Order) returns (z: System)
    requires Reaches(g, x, y) && p < |y.assembly| && y.assembly[p].open && NextPaid(g, y, p) == Some(o)
    requires At(y.saga, o, row)
    ensures Reaches(g, x, z) && At(z.saga, o, row) && z.saga.shipped == y.saga.shipped + [o]
    ensures z.saga.table == y.saga.table && z.shipping == y.shipping && z.handling == y.handling
  {
    HeadInLog(g, y.saga.paid, y.assembly, p);
    Then(g, x, y, Answer(p, Loop.Succeeded, true));
    z := Next(g, y, Answer(p, Loop.Succeeded, true));
  }

  lemma TakeReady(g: Topology, y: System, p: nat, o: Uuid, row: Order)
    requires p < |y.shipping| && p !in y.handling && y.shipping[p].open
    requires NextShipped(g, y, p) == Some(o) && At(y.saga, o, row) && !row.status.Assembled?
    ensures Ready(g, y, Take(p)) && !IsFault(g, y, Take(p))
    ensures var z := Next(g, y, Take(p));
            && z.saga.table == y.saga.table && z.shipping == y.shipping && z.handling == y.handling[p := o]
            && o in z.saga.orders && z.saga.orders[o] == Stored(row, Some(Shipping))
  {
    HeadInLog(g, y.saga.shipped, y.shipping, p);
  }

  lemma WorkReady(g: Topology, y: System, p: nat, o: Uuid, row: Order)
    requires p in y.handling && y.handling[p] == o && o in y.saga.orders
    requires y.saga.orders[o] == Stored(row, Some(Shipping)) && Accepts(y.saga.table, Commit, Uuids(row.items))
    ensures Ready(g, y, Work(p, Uuids(row.items))) && !IsFault(g, y, Work(p, Uuids(row.items)))
    ensures var z := Next(g, y, Work(p, Uuids(row.items)));
            && z.handling == y.handling && z.shipping == y.shipping
            && o in z.saga.orders && z.saga.orders[o] == Stored(row, Some(Committed))
  {
    CommitReady(y.saga, o, row);
  }

  lemma CommitReady(s: State, o: Uuid, row: Order)
    requires o in s.orders && s.orders[o] == Stored(row, Some(Shipping)) && Accepts(s.table, Commit, Uuids(row.items))
    ensures Enabled(s, CommitParts(o, Uuids(row.items)))
    ensures var s' := Apply(s, CommitParts(o, Uuids(row.items)));
            o in s'.orders && s'.orders[o] == Stored(row, Some(Committed))
  {
  }

  lemma FinishReady(g: Topology, y: System, p: nat, o: Uuid, row: Order)
    requires p in y.handling && y.handling[p] == o && p < |y.shipping| && y.shipping[p].open
    requires o in y.saga.orders && y.saga.orders[o] == Stored(row, Some(Committed))
    ensures Ready(g, y, Finish(p, Loop.Succeeded)) && !IsFault(g, y, Finish(p, Loop.Succeeded))
    ensures At(Next(g, y, Finish(p, Loop.Succeeded)).saga, o, row.(status := Assembled))
  {
    ShipReady(y.saga, o, row);
  }

  lemma ShipReady(s: State, o: Uuid, row: Order)
    requires o in s.orders && s.orders[o] == Stored(row, Some(Committed))
    ensures Enabled(s, CommitShip(o)) && At(Apply(s, CommitShip(o)), o, row.(status := Assembled))
  {
  }

  lemma ShipHead(g: Topology, x: System, y: System, p: nat, o: Uuid, row: Order) returns (z: System)
    requires Reaches(g, x, y) && p < |y.shipping| && p !in y.handling && y.shipping[p].open
    requires NextShipped(g, y, p) == Some(o) && At(y.saga, o, row) && !row.status.Assembled?
    requires Accepts(y.saga.table, Commit, Uuids(row.items))
    ensures Reaches(g, x, z) && At(z.saga, o, row.(status := Assembled))
  {
    TakeReady(g, y, p, o, row);
    Then(g, x, y, Take(p));
    z := Next(g, y, Take(p));
    WorkReady(g, z, p, o, row);
    Then(g, x, z, Work(p, Uuids(row.items)));
    z := Next(g, z, Work(p, Uuids(row.items)));
    FinishReady(g, z, p, o, row);
    Then(g, x, z, Finish(p, Loop.Succeeded));
    z := Next(g, z, Finish(p, Loop.Succeeded));
  }

  lemma ReachesThrough(g: Topology, x: System, y: System, z: System)
    requires Reaches(g, x, y) && Reaches(g, y, z)
    ensures Reaches(g, x, z)
  {
    var more :| Cleanly(g, y, more) && Final(g, y, more) == z;
    CleanThrough(g, x, y, more);
  }

  lemma {:induction false} CleanThrough(g: Topology, x: System, y: System, more: seq<Act>)
    requires Reaches(g, x, y) && Cleanly(g, y, more)
    ensures Reaches(g, x, Final(g, y, more))
  {
    if more != [] {
      CleanThrough(g, x, y, more[..|more| - 1]);
      Then(g, x, Final(g, y, more[..|more| - 1]), more[|more| - 1]);
    }
  }

  /** From an answer that can still be handed over to the ASSEMBLED order. */
  lemma CompleteFromAnswer(g: Topology, x: System, y: System, o: Uuid, row: Order, i: nat) returns (z: System)
    requires Reaches(g, x, y) && g.lane(o) < |y.shipping| && g.lane(o) !in y.handling
    requires y.shipping[g.lane(o)].marked <= i < |Lane(g, y.saga.shipped, g.lane(o))|
    requires Lane(g, y.saga.shipped, g.lane(o))[i] == o && At(y.saga, o, row) && !row.status.Assembled?
    requires Accepts(y.saga.table, Commit, Uuids(row.items))
    ensures Reaches(g, x, z) && At(z.saga, o, row.(status := Assembled))
  {
    z := WalkShipping(g, y, g.lane(o), i);
    ReachesThrough(g, x, y, z);
    z := ShipHead(g, x, z, g.lane(o), o, row);
  }

  /** From a message that can still be handed over to an answer that can. */
  lemma AnswerFromPaid(g: Topology, x: System, y: System, o: Uuid, row: Order, i: nat) returns (z: System, k: nat)
    requires Reaches(g, x, y) && g.lane(o) < |y.assembly| && g.lane(o) < |y.shipping|
    requires y.assembly[g.lane(o)].marked <= i < |Lane(g, y.saga.paid, g.lane(o))|
    requires Lane(g, y.saga.paid, g.lane(o))[i] == o && At(y.saga, o, row)
    requires y.shipping[g.lane(o)].marked <= |Lane(g, y.saga.shipped, g.lane(o))|
    ensures Reaches(g, x, z) && At(z.saga, o, row) && z.saga.table == y.saga.table
    ensures z.shipping == y.shipping && z.handling == y.handling
    ensures y.shipping[g.lane(o)].marked <= k < |Lane(g, z.saga.shipped, g.lane(o))|
    ensures Lane(g, z.saga.shipped, g.lane(o))[k] == o
  {
    var p := g.lane(o);
    z := WalkAssembly(g, y, p, i);
    ReachesThrough(g, x, y, z);
    z := AnswerHead(g, x, z, p, o, row);
    LaneAppend(g, y.saga.shipped, [o], p);
    k := |Lane(g, y.saga.shipped, p)|;
  }

  lemma {:induction false} CompleteWaiting(t0: Table, g: Topology, y: System, o: Uuid, row: Order) returns (z: System)
    requires SystemInv(t0, g, y) && Routed(g) && Waiting(g, y, o) && At(y.saga, o, row) && !row.status.Assembled?
    requires Accepts(y.saga.table, Commit, Uuids(row.items))
    ensures Reaches(g, y, z) && At(z.saga, o, row.(status := Assembled))
  {
    var p := g.lane(o);
    assert LoopOk(y.shipping[p], Lane(g, y.saga.shipped, p));
    z := ClearLane(g, y, p, o, row);
    if Ahead(Lane(g, y.saga.shipped, p), y.shipping[p], o) {
      var i :| y.shipping[p].marked <= i < |Lane(g, y.saga.shipped, p)| && Lane(g, y.saga.shipped, p)[i] == o;
      z := CompleteFromAnswer(g, y, z, o, row, i);
    } else {
      var i :| y.assembly[p].marked <= i < |Lane(g, y.saga.paid, p)| && Lane(g, y.saga.paid, p)[i] == o;
      var k;
      z, k := AnswerFromPaid(g, y, z, o, row, i);
      z := CompleteFromAnswer(g, y, z, o, row, k);
    }
  }

  // ---- the theorems ----

  /** In a clean run no Pay is given up after its charge, so no publication is outstanding. */
  lemma OrphanAfter(s: State, e: Event, o: Uuid, h: Holder)
    requires Enabled(s, e) && !Faulty(s, e) && h.Charged? && Orphan(o, h) !in s.orphans
    ensures Orphan(o, h) !in Apply(s, e).orphans
  {
  }

  lemma {:induction false} NoLatePublication(t0: Table, es: seq<Event>, o: Uuid, h: Holder)
    requires CleanRun(Initial(t0), es) && h.Charged?
    ensures Orphan(o, h) !in Exec(Initial(t0), es).orphans
  {
    if es != [] {
      NoLatePublication(t0, es[..|es| - 1], o, h);
      OrphanAfter(Exec(Initial(t0), es[..|es| - 1]), es[|es| - 1], o, h);
    }
  }
}
