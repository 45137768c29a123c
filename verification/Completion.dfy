/**
 * Which paid orders are completed. A message reaches its handler only through its consumer, and a consumer never goes
 * back below its mark: that decides what becomes of an order.
 */
module Completion {
  import opened Prelude
  import opened Parts
  import opened BatchSpec
  import opened Orders
  import opened Saga
  import opened SagaInvariants
  import opened SagaTheorems
  import opened SagaFaults
  import opened Pipeline
  import Loop = ClaimLoop

  // ---- clean runs: exactly the waiting orders can be completed ----

  lemma CleanFacts(t0: Table, g: Topology, acts: seq<Act>, y: System, o: Uuid)
    requires SoundTable(t0) && Cleanly(g, Start(t0, g), acts) && y == Final(g, Start(t0, g), acts)
    ensures SystemInv(t0, g, y) && NoFaults(y.saga.ledger)
    ensures forall h: Holder :: h.Charged? ==> Orphan(o, h) !in y.saga.orphans
  {
    SystemRun(t0, g, acts);
    IsSagaRun(t0, g, acts);
    var es := Events(g, Start(t0, g), acts);
    CleanRunFacts(t0, es);
    forall h: Holder | h.Charged? ensures Orphan(o, h) !in y.saga.orphans {
      NoLatePublication(t0, es, o, h);
    }
  }

  /** Some continuation without any fault completes order o ... */
  ghost predicate CanComplete(g: Topology, y: System, o: Uuid) {
    exists z :: Reaches(g, y, z) && IsAssembled(z.saga, o)
  }

  /** ... or some continuation at all. */
  ghost predicate MayComplete(g: Topology, y: System, o: Uuid) {
    exists more :: Executes(g, y, more) && IsAssembled(Final(g, y, more).saga, o)
  }

  lemma CanIsMay(g: Topology, y: System, o: Uuid)
    requires CanComplete(g, y, o)
    ensures MayComplete(g, y, o)
  {
    var z :| Reaches(g, y, z) && IsAssembled(z.saga, o);
    var more :| Cleanly(g, y, more) && Final(g, y, more) == z;
  }

  lemma WaitingCanComplete(t0: Table, g: Topology, y: System, o: Uuid, row: Order)
    requires SystemInv(t0, g, y) && Routed(g) && Waiting(g, y, o) && At(y.saga, o, row) && !row.status.Assembled?
    requires Accepts(y.saga.table, Commit, Uuids(row.items))
    ensures CanComplete(g, y, o)
  {
    var z := CompleteWaiting(t0, g, y, o, row);
    assert IsAssembled(z.saga, o);
  }

  lemma StrandedMayNot(t0: Table, g: Topology, y: System, o: Uuid, row: Order)
    requires SystemInv(t0, g, y) && Routed(g) && Stranded(g, y, o, row)
    ensures forall more :: Executes(g, y, more) ==> At(Final(g, y, more).saga, o, row)
    ensures !MayComplete(g, y, o)
  {
    forall more | Executes(g, y, more) ensures At(Final(g, y, more).saga, o, row) {
      StrandedForever(t0, g, y, more, o, row);
    }
  }

  /**
   * After any clean run, an unlocked PAID order can still be completed if and only if one of its messages lies at or
   * after the mark of the consumer of its lane: then some continuation without any fault completes it, and otherwise
   * every continuation, with whatever requests, redeliveries and faults, leaves it exactly as it is.
   */
  lemma {:induction false} CompletableExactly(t0: Table, g: Topology, acts: seq<Act>, y: System, o: Uuid, row: Order)
    requires SoundTable(t0) && Routed(g) && Cleanly(g, Start(t0, g), acts) && y == Final(g, Start(t0, g), acts)
    requires At(y.saga, o, row) && row.status.Paid?
    ensures Waiting(g, y, o) <==> CanComplete(g, y, o)
    ensures Waiting(g, y, o) <==> MayComplete(g, y, o)
    ensures !Waiting(g, y, o) ==> forall more :: Executes(g, y, more) ==> At(Final(g, y, more).saga, o, row)
  {
    CleanFacts(t0, g, acts, y, o);
    if Waiting(g, y, o) {
      PaidItemsCommittable(t0, y.saga, o);
      WaitingCanComplete(t0, g, y, o, row);
    } else {
      StrandedMayNot(t0, g, y, o, row);
    }
    if CanComplete(g, y, o) {
      CanIsMay(g, y, o);
    }
  }

  // ---- an order is lost only by a handler that failed on its message ----

  /** A handler has returned an error for a message about o. */
  ghost predicate FailedOn(lane: seq<Uuid>, c: Loop.Partition, o: Uuid) {
    exists k :: 0 <= k < |c.trace| && c.trace[k].reply.Failed?
                && c.trace[k].offset < |lane| && lane[c.trace[k].offset] == o
  }

  /** A message behind the mark was handled successfully or failed. */
  lemma BehindTheMark(g: Topology, log: seq<Uuid>, c: Loop.Partition, o: Uuid) returns (k: nat)
    requires o in log && LoopOk(c, Lane(g, log, g.lane(o))) && !Ahead(Lane(g, log, g.lane(o)), c, o)
    ensures var lane := Lane(g, log, g.lane(o));
            && k < |c.trace| && c.trace[k].offset < |lane| && lane[c.trace[k].offset] == o
            && !c.trace[k].reply.Cancelled?
  {
    var lane := Lane(g, log, g.lane(o));
    LaneMember(g, log, g.lane(o), o);
    var i :| 0 <= i < |lane| && lane[i] == o;
    assert Loop.Dealt(c, i);
    k :| 0 <= k < |c.trace| && c.trace[k].offset == i && !c.trace[k].reply.Cancelled?;
  }

  /**
   * In every run, faulty or not: an unlocked PAID order whose messages are all behind the marks has lost one of them
   * to a handler that returned an error.
   */
  lemma {:induction false} LostOnlyByFailure(t0: Table, g: Topology, acts: seq<Act>, y: System, o: Uuid, row: Order)
    requires SoundTable(t0) && Routed(g) && Executes(g, Start(t0, g), acts) && y == Final(g, Start(t0, g), acts)
    requires At(y.saga, o, row) && row.status.Paid? && !Waiting(g, y, o)
    ensures var p := g.lane(o);
            && p < |y.assembly| && p < |y.shipping|
            && (FailedOn(Lane(g, y.saga.paid, p), y.assembly[p], o)
                || FailedOn(Lane(g, y.saga.shipped, p), y.shipping[p], o))
  {
    SystemRun(t0, g, acts);
    var p := g.lane(o);
    assert Provenance(y.saga, o);
    assert LoopOk(y.assembly[p], Lane(g, y.saga.paid, p)) && LoopOk(y.shipping[p], Lane(g, y.saga.shipped, p));
    assert AnswersSent(g, y, p) && ShipsDone(g, y, p);
    var k := BehindTheMark(g, y.saga.paid, y.assembly[p], o);
    if y.assembly[p].trace[k].reply.Succeeded? {
      var n := BehindTheMark(g, y.saga.shipped, y.shipping[p], o);
      assert y.shipping[p].trace[n].reply.Failed?;
    }
  }

  /**
   * So no paid order is stuck as long as no handler has returned an error about it: after any clean run it can be
   * completed without any fault.
   */
  lemma {:induction false} PaidOrderCanComplete(t0: Table, g: Topology, acts: seq<Act>, y: System, o: Uuid, row: Order)
      returns (z: System)
    requires SoundTable(t0) && Routed(g) && Cleanly(g, Start(t0, g), acts) && y == Final(g, Start(t0, g), acts)
    requires At(y.saga, o, row) && row.status.Paid? && g.lane(o) < |y.assembly| && g.lane(o) < |y.shipping|
    requires !FailedOn(Lane(g, y.saga.paid, g.lane(o)), y.assembly[g.lane(o)], o)
    requires !FailedOn(Lane(g, y.saga.shipped, g.lane(o)), y.shipping[g.lane(o)], o)
    ensures Reaches(g, y, z) && At(z.saga, o, row.(status := Assembled))
  {
    if !Waiting(g, y, o) {
      LostOnlyByFailure(t0, g, acts, y, o, row);
    }
    CleanFacts(t0, g, acts, y, o);
    PaidItemsCommittable(t0, y.saga, o);
    z := CompleteWaiting(t0, g, y, o, row);
  }

  // ---- every run: whatever can be handed over is assembled ----

  /**
   * From any state of any run in which a message about an unlocked order can still be handed over and its parts can
   * be committed, a continuation without any fault assembles it, whatever its status; so its history is lawful
   * exactly when it was PAID.
   */
  lemma {:induction false} WaitingOrderIsAssembled(t0: Table, g: Topology, acts: seq<Act>, y: System, o: Uuid,
                                                   row: Order)
      returns (more: seq<Act>)
    requires SoundTable(t0) && Routed(g) && Executes(g, Start(t0, g), acts) && y == Final(g, Start(t0, g), acts)
    requires At(y.saga, o, row) && !row.status.Assembled? && Waiting(g, y, o)
    requires Accepts(y.saga.table, Commit, Uuids(row.items))
    ensures Cleanly(g, y, more) && Executes(g, Start(t0, g), acts + more)
    ensures At(Final(g, Start(t0, g), acts + more).saga, o, row.(status := Assembled))
    ensures var es := Events(g, Start(t0, g), acts + more);
            Runs(Initial(t0), es) && (Lawful(History(Initial(t0), es, o)) <==> row.status.Paid?)
  {
    SystemRun(t0, g, acts);
    var z := CompleteWaiting(t0, g, y, o, row);
    more :| Cleanly(g, y, more) && Final(g, y, more) == z;
    Concatenate(g, Start(t0, g), acts, y, more);
    RowFacts(t0, y.saga, o);
    LawfulIfShown(t0, g, acts + more, o, row.(status := Assembled));
  }

  lemma LawfulIfShown(t0: Table, g: Topology, acts: seq<Act>, o: Uuid, row: Order)
    requires SoundTable(t0) && Executes(g, Start(t0, g), acts)
    requires At(Final(g, Start(t0, g), acts).saga, o, row) && row.status.Assembled?
    ensures var es := Events(g, Start(t0, g), acts);
            Runs(Initial(t0), es) && (Lawful(History(Initial(t0), es, o)) <==> row.transaction.Some?)
  {
    IsSagaRun(t0, g, acts);
    var es := Events(g, Start(t0, g), acts);
    PaymentFieldsExact(t0, es, o);
    StatusSafetyExact(t0, es, o);
  }

  // ---- runs that show it ----

  /** A step of Create or Pay that calls nobody and is nobody else's business. */
  lemma PlainMove(s: State, e: Event, o: Uuid)
    requires o in s.orders && CanMove(s.orders[o], e) && Subject(s, e) == Some(o)
    requires e.InsertOrder? || e.LockForPay? || e.Charge? || e.Publish? || e.CommitPay?
    ensures Enabled(s, e) && !Faulty(s, e) && IsRequest(s, e)
    ensures Apply(s, e).orders == s.orders[o := Move(s.orders[o], e)] && Apply(s, e).table == s.table
    ensures Apply(s, e).paid == s.paid + NewPaid(e) && Apply(s, e).shipped == s.shipped
  {
  }

  /** The request makes its step. */
  lemma Ask(g: Topology, x: System, y: System, e: Event)
    requires Reaches(g, x, y) && Enabled(y.saga, e) && !Faulty(y.saga, e) && IsRequest(y.saga, e)
    ensures Reaches(g, x, y.(saga := Apply(y.saga, e)))
  {
    Then(g, x, y, Request(e));
  }

  lemma Reserving(s: State, id: Uuid, p: OrderParts)
    requires id !in s.orders && Orderable(s.table, p) && Accepts(s.table, Reserve, PartUuids(p))
    ensures var e := ReserveParts(id, p);
            && Enabled(s, e) && !Faulty(s, e) && IsRequest(s, e)
            && Apply(s, e).orders == s.orders[id := Inserting(ItemsFor(s.table, PartUuids(p)))]
            && Apply(s, e).table == Updated(s.table, Reserve, PartUuids(p))
            && Apply(s, e).paid == s.paid && Apply(s, e).shipped == s.shipped
  {
  }

  /** One more step of order o on the way from x, whose state at y was `before`. */
  lemma OneMore(g: Topology, x: System, y: System, orders: map<Uuid, OrderState>, o: Uuid, os: OrderState, e: Event)
      returns (z: System)
    requires Reaches(g, x, y) && y.saga.orders == orders[o := os] && CanMove(os, e) && Subject(y.saga, e) == Some(o)
    requires e.InsertOrder? || e.LockForPay? || e.Charge? || e.Publish? || e.CommitPay?
    ensures Reaches(g, x, z) && z == y.(saga := z.saga) && z.saga.orders == orders[o := Move(os, e)]
    ensures z.saga.table == y.saga.table && z.saga.paid == y.saga.paid + NewPaid(e) && z.saga.shipped == y.saga.shipped
  {
    PlainMove(y.saga, e, o);
    Ask(g, x, y, e);
    z := y.(saga := Apply(y.saga, e));
    SetTwice(orders, o, os, Move(os, e));
  }

  lemma SetTwice(orders: map<Uuid, OrderState>, o: Uuid, first: OrderState, second: OrderState)
    ensures orders[o := first][o := second] == orders[o := second]
  {
  }

  lemma CreateNew(g: Topology, x: System, y: System, id: Uuid, p: OrderParts) returns (z: System)
    requires Reaches(g, x, y) && id !in y.saga.orders
    requires Orderable(y.saga.table, p) && Accepts(y.saga.table, Reserve, PartUuids(p))
    ensures Reaches(g, x, z) && z == y.(saga := z.saga)
    ensures z.saga.orders == y.saga.orders[id := Stored(NewOrder(ItemsFor(y.saga.table, PartUuids(p))), None)]
    ensures z.saga.table == Updated(y.saga.table, Reserve, PartUuids(p))
    ensures z.saga.paid == y.saga.paid && z.saga.shipped == y.saga.shipped
  {
    Reserving(y.saga, id, p);
    Ask(g, x, y, ReserveParts(id, p));
    z := y.(saga := Apply(y.saga, ReserveParts(id, p)));
    z := OneMore(g, x, z, y.saga.orders, id, Inserting(ItemsFor(y.saga.table, PartUuids(p))), InsertOrder(id));
  }

  lemma ChargeNew(g: Topology, x: System, y: System, orders: map<Uuid, OrderState>, id: Uuid, row: Order,
                  m: PaymentMethod, tx: Uuid) returns (z: System)
    requires Reaches(g, x, y) && y.saga.orders == orders[id := Stored(row, None)] && row.status.PendingPayment?
    ensures Reaches(g, x, z) && z == y.(saga := z.saga)
    ensures z.saga.orders == orders[id := Stored(row, Some(Charged(m, tx)))]
    ensures z.saga.table == y.saga.table && z.saga.paid == y.saga.paid && z.saga.shipped == y.saga.shipped
  {
    z := OneMore(g, x, y, orders, id, Stored(row, None), LockForPay(id, m));
    z := OneMore(g, x, z, orders, id, Stored(row, Some(Paying(m))), Charge(id, tx));
  }

  /** A new order is created, locked, charged and announced. */
  lemma PublishNew(g: Topology, x: System, y: System, id: Uuid, p: OrderParts, m: PaymentMethod, tx: Uuid)
      returns (z: System)
    requires Reaches(g, x, y) && id !in y.saga.orders
    requires Orderable(y.saga.table, p) && Accepts(y.saga.table, Reserve, PartUuids(p))
    ensures Reaches(g, x, z) && z == y.(saga := z.saga)
    ensures var row := NewOrder(ItemsFor(y.saga.table, PartUuids(p)));
            z.saga.orders == y.saga.orders[id := Stored(row, Some(Published(m, tx)))]
    ensures z.saga.table == Updated(y.saga.table, Reserve, PartUuids(p))
    ensures z.saga.paid == y.saga.paid + [id] && z.saga.shipped == y.saga.shipped
  {
    var row := NewOrder(ItemsFor(y.saga.table, PartUuids(p)));
    z := CreateNew(g, x, y, id, p);
    z := ChargeNew(g, x, z, y.saga.orders, id, row, m, tx);
    z := OneMore(g, x, z, y.saga.orders, id, Stored(row, Some(Charged(m, tx))), Publish(id));
  }

  /** A new order is created and paid for. */
  lemma PayNew(g: Topology, x: System, y: System, id: Uuid, p: OrderParts, m: PaymentMethod, tx: Uuid)
      returns (z: System, row: Order)
    requires Reaches(g, x, y) && id !in y.saga.orders
    requires Orderable(y.saga.table, p) && Accepts(y.saga.table, Reserve, PartUuids(p))
    ensures Reaches(g, x, z) && z == y.(saga := z.saga)
    ensures row == Order(ItemsFor(y.saga.table, PartUuids(p)), Paid, Some(tx), Some(m))
    ensures z.saga.orders == y.saga.orders[id := Stored(row, None)]
    ensures z.saga.table == Updated(y.saga.table, Reserve, PartUuids(p))
    ensures z.saga.paid == y.saga.paid + [id] && z.saga.shipped == y.saga.shipped
  {
    var items := ItemsFor(y.saga.table, PartUuids(p));
    row := Order(items, Paid, Some(tx), Some(m));
    z := PublishNew(g, x, y, id, p, m, tx);
    z := OneMore(g, x, z, y.saga.orders, id, Stored(NewOrder(items), Some(Published(m, tx))), CommitPay(id));
  }

  lemma FreshLanes(t0: Table, g: Topology, p: nat)
    requires p < g.lanes
    ensures Start(t0, g).assembly[p] == Loop.Initial(0) && Start(t0, g).shipping[p] == Loop.Initial(0)
    ensures |Start(t0, g).assembly| == |Start(t0, g).shipping| == g.lanes
  {
  }

  lemma LaneOfOne(g: Topology, o: Uuid)
    ensures Lane(g, [o], g.lane(o)) == [o]
  {
    LaneAppend(g, [], [o], g.lane(o));
    assert [] + [o] == [o];
  }

  lemma LaneOfTwo(g: Topology, a: Uuid, b: Uuid)
    requires g.lane(a) == g.lane(b)
    ensures Lane(g, [a] + [b], g.lane(a)) == [a, b]
  {
    LaneOfOne(g, a);
    LaneAppend(g, [a], [b], g.lane(a));
  }

  /** Of two messages in a fresh lane the first fails and the second succeeds: the mark is behind both. */
  lemma SkipFirst(g: Topology, x: System, y: System, p: nat, a: Uuid, b: Uuid) returns (z: System)
    requires Reaches(g, x, y) && p < |y.assembly| && y.assembly[p] == Loop.Initial(0)
    requires y.saga.paid == [a] + [b] && g.lane(a) == g.lane(b) == p && y.saga.shipped == []
    ensures Reaches(g, x, z) && |z.assembly| == |y.assembly| && z.assembly[p].marked == 2 && z.shipping == y.shipping
    ensures z.saga.orders == y.saga.orders && z.saga.paid == y.saga.paid && z.saga.shipped == [b]
  {
    LaneOfTwo(g, a, b);
    Then(g, x, y, Answer(p, Loop.Failed, false));
    z := Next(g, y, Answer(p, Loop.Failed, false));
    HeadInLog(g, z.saga.paid, z.assembly, p);
    Then(g, x, z, Answer(p, Loop.Succeeded, true));
    z := Next(g, z, Answer(p, Loop.Succeeded, true));
  }

  lemma BehindBoth(g: Topology, y: System, a: Uuid, b: Uuid)
    requires a != b && g.lane(a) == g.lane(b) && y.saga.paid == [a] + [b] && y.saga.shipped == [b]
    requires g.lane(a) < |y.assembly| && y.assembly[g.lane(a)].marked == 2
    ensures !Waiting(g, y, a)
  {
    LaneOfTwo(g, a, b);
    LaneOfOne(g, b);
  }

  /**
   * A clean run that strands a paid order, for every catalogue that can serve two requests (or one twice) and any two
   * orders in the same lane: both are paid, the assembly handler returns an error for the first message and succeeds
   * on the second. From then on nothing completes the first order: it stays PAID whatever happens, and Pay and Cancel
   * refuse it.
   */
  lemma {:induction false} SkippedMessageStrandsOrder(t0: Table, g: Topology, first: Uuid, p: OrderParts, second: Uuid,
                                                      q: OrderParts, m: PaymentMethod, tx: Uuid)
      returns (acts: seq<Act>, y: System, row: Order)
    requires SoundTable(t0) && Routed(g) && first != second && g.lane(first) == g.lane(second)
    requires Orderable(t0, p) && Accepts(t0, Reserve, PartUuids(p))
    requires var t := Updated(t0, Reserve, PartUuids(p));
             Orderable(t, q) && Accepts(t, Reserve, PartUuids(q))
    ensures Cleanly(g, Start(t0, g), acts) && y == Final(g, Start(t0, g), acts)
    ensures At(y.saga, first, row) && row.status.Paid? && !MayComplete(g, y, first)
    ensures forall more :: Executes(g, y, more) ==> At(Final(g, y, more).saga, first, row)
  {
    var x := Start(t0, g);
    FreshLanes(t0, g, g.lane(first));
    ReachesSelf(g, x);
    var other;
    y, row := PayNew(g, x, x, first, p, m, tx);
    y, other := PayNew(g, x, y, second, q, m, tx);
    assert [] + [first] == [first];
    y := SkipFirst(g, x, y, g.lane(first), first, second);
    BehindBoth(g, y, first, second);
    acts :| Cleanly(g, x, acts) && Final(g, x, acts) == y;
    CompletableExactly(t0, g, acts, y, first, row);
  }

  /** Reserved parts can be committed. */
  lemma ReservedIsCommittable(t: Table, p: OrderParts)
    requires SoundTable(t) && Accepts(t, Reserve, PartUuids(p))
    ensures Uuids(ItemsFor(t, PartUuids(p))) == PartUuids(p)
    ensures Accepts(Updated(t, Reserve, PartUuids(p)), Commit, PartUuids(p))
  {
    var ids := PartUuids(p);
    UuidsByIndex(ItemsFor(t, ids));
    forall u | u in ids ensures Refusal(Commit, After(Reserve, t[u])).None? {
      assert Sound(t[u]);
    }
  }

  lemma LosingReady(g: Topology, y: System, id: Uuid, row: Order, h: Holder)
    requires id in y.saga.orders && y.saga.orders[id] == Stored(row, Some(h)) && h.Published?
    ensures Ready(g, y, Request(Abort(id))) && IsFault(g, y, Request(Abort(id)))
    ensures var z := Next(g, y, Request(Abort(id)));
            && At(z.saga, id, row) && z == y.(saga := z.saga)
            && z.saga.table == y.saga.table && z.saga.paid == y.saga.paid && z.saga.shipped == y.saga.shipped
  {
  }

  lemma FirstIsWaiting(g: Topology, y: System, id: Uuid)
    requires g.lane(id) < |y.assembly| && g.lane(id) < |y.shipping| && y.assembly[g.lane(id)].marked == 0
    requires y.saga.paid == [id]
    ensures Waiting(g, y, id)
  {
    LaneOfOne(g, id);
    assert Lane(g, y.saga.paid, g.lane(id))[0] == id;
  }

  /**
   * For every catalogue and every order it can serve, one Pay lost after publishing is enough: no step before it and
   * none after it is a fault, and yet the order is assembled without having been paid for, and its history is
   * unlawful.
   */
  lemma {:induction false} OneLostPayBreaksStatusSafety(t0: Table, g: Topology, id: Uuid, p: OrderParts,
                                                        m: PaymentMethod, tx: Uuid)
      returns (before: seq<Act>, more: seq<Act>, row: Order)
    requires SoundTable(t0) && Routed(g) && Orderable(t0, p) && Accepts(t0, Reserve, PartUuids(p))
    ensures Cleanly(g, Start(t0, g), before) && Executes(g, Start(t0, g), before + [Request(Abort(id))])
    ensures Cleanly(g, Final(g, Start(t0, g), before + [Request(Abort(id))]), more)
    ensures var all := before + [Request(Abort(id))] + more;
            && Executes(g, Start(t0, g), all) && Runs(Initial(t0), Events(g, Start(t0, g), all))
            && At(Final(g, Start(t0, g), all).saga, id, row) && row.status.Assembled? && row.transaction.None?
            && !Lawful(History(Initial(t0), Events(g, Start(t0, g), all), id))
  {
    var x, a, unpaid := Start(t0, g), Request(Abort(id)), NewOrder(ItemsFor(t0, PartUuids(p)));
    FreshLanes(t0, g, g.lane(id));
    ReachesSelf(g, x);
    var y := PublishNew(g, x, x, id, p, m, tx);
    before :| Cleanly(g, x, before) && Final(g, x, before) == y;
    LosingReady(g, y, id, unpaid, Published(m, tx));
    AppendAct(g, x, before, a);
    assert [] + [id] == [id];
    FirstIsWaiting(g, Next(g, y, a), id);
    ReservedIsCommittable(t0, p);
    more := WaitingOrderIsAssembled(t0, g, before + [a], Next(g, y, a), id, unpaid);
    row := unpaid.(status := Assembled);
  }

  lemma FirstReservation(t: Table, ids: seq<Uuid>)
    requires Accepts(t, Reserve, ids) && exists u :: u in ids && t[u].reserved == 0
    ensures exists u :: u in ids && u in t && Updated(t, Reserve, ids)[u].reserved < 2
  {
    var u :| u in ids && t[u].reserved == 0;
    assert Updated(t, Reserve, ids)[u] == After(Reserve, t[u]);
  }

  /** A new order is paid for, answered and taken by the handler. */
  lemma TakeNew(t0: Table, g: Topology, id: Uuid, p: OrderParts, m: PaymentMethod, tx: Uuid)
      returns (y: System, row: Order)
    requires SoundTable(t0) && Routed(g) && Orderable(t0, p) && Accepts(t0, Reserve, PartUuids(p))
    ensures Reaches(g, Start(t0, g), y) && y.saga.table == Updated(t0, Reserve, PartUuids(p))
    ensures row == Order(ItemsFor(t0, PartUuids(p)), Paid, Some(tx), Some(m))
    ensures id in y.saga.orders && y.saga.orders[id] == Stored(row, Some(Shipping))
  {
    var x, lane := Start(t0, g), g.lane(id);
    FreshLanes(t0, g, lane);
    ReachesSelf(g, x);
    y, row := PayNew(g, x, x, id, p, m, tx);
    assert [] + [id] == [id];
    LaneOfOne(g, id);
    y := AnswerHead(g, x, y, lane, id, row);
    TakeReady(g, y, lane, id, row);
    Then(g, x, y, Take(lane));
    y := Next(g, y, Take(lane));
  }

  /**
   * A handler can strand its order too: for every catalogue and every order it can serve, one of whose parts nobody
   * else has reserved, a clean run leads to a PAID order in the hands of a handler; if that is lost after its commit,
   * the inventory refuses the order from then on even when the message is handed over again.
   */
  lemma {:induction false} HandlerCanStrand(t0: Table, g: Topology, id: Uuid, p: OrderParts, m: PaymentMethod, tx: Uuid)
      returns (y: System)
    requires SoundTable(t0) && Routed(g) && Orderable(t0, p) && Accepts(t0, Reserve, PartUuids(p))
    requires exists u :: u in PartUuids(p) && t0[u].reserved == 0
    ensures Reaches(g, Start(t0, g), y) && id in y.saga.orders && HandlerLock(y.saga.orders[id])
    ensures Enabled(y.saga, CommitParts(id, PartUuids(p))) && y.saga.orders[id].row.status.Paid?
    ensures var s1 := Apply(y.saga, CommitParts(id, PartUuids(p)));
            Enabled(s1, Abort(id)) && !Accepts(Apply(s1, Abort(id)).table, Commit, PartUuids(p))
  {
    var row;
    y, row := TakeNew(t0, g, id, p, m, tx);
    ReservedIsCommittable(t0, p);
    CommitReady(y.saga, id, row);
    FirstReservation(t0, PartUuids(p));
    var acts :| Cleanly(g, Start(t0, g), acts) && Final(g, Start(t0, g), acts) == y;
    IsSagaRun(t0, g, acts);
    LostHandlerStrandsOrder(t0, Events(g, Start(t0, g), acts), y.saga, id, PartUuids(p));
  }
}
