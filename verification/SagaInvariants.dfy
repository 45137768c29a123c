/** What every step of the saga keeps, in every run, faulty ones included. */
module SagaInvariants {
  import opened Prelude
  import opened Parts
  import opened BatchSpec
  import opened Orders
  import opened Saga

  function One(b: bool): nat {
    if b then 1 else 0
  }

  // ---- the catalogue is the initial one up to stock figures ----

  ghost predicate TableOk(t0: Table, t: Table) {
    && t.Keys == t0.Keys && SoundTable(t)
    && forall u :: u in t0 ==> SameIdentity(t0[u], t[u])
  }

  lemma TableStep(t0: Table, s: State, e: Event)
    requires TableOk(t0, s.table) && Enabled(s, e)
    ensures TableOk(t0, Apply(s, e).table)
  {
    if CallOf(e).Some? {
      var c := CallOf(e).value;
      BatchKeepsSound(s.table, c.op, c.targets);
      assert Batch(s.table, c.op, c.targets) == Updated(s.table, c.op, c.targets);
    }
  }

  // ---- one order, with its lock holder and its share of the ledger ----

  ghost predicate ItemsOk(t0: Table, items: seq<Item>) {
    && |Uuids(items)| >= 2 && Distinct(Uuids(items))
    && forall u :: u in Uuids(items) ==> u in t0 && ConversionError(t0[u]).None?
  }

  /** Every lock holder has checked its order. */
  predicate PhaseOk(status: Status, h: Holder) {
    if h.Shipping? || h.Committed? then !status.Assembled? else status.PendingPayment?
  }

  /** Payment columns are filled together, and only by a payment. */
  predicate FieldsOk(order: Order) {
    && (order.transaction.Some? <==> order.payment.Some?)
    && (order.status.Paid? ==> order.transaction.Some?)
    && (order.status.PendingPayment? || order.status.Cancelled? ==> order.transaction.None?)
  }

  function ReceiptsOf(receipts: seq<Receipt>, o: Uuid): seq<Receipt> {
    if receipts == [] then []
    else
      var last := receipts[|receipts| - 1];
      ReceiptsOf(receipts[..|receipts| - 1], o) + if last.order == o then [last] else []
  }

  lemma ReceiptAdded(receipts: seq<Receipt>, r: Receipt, o: Uuid)
    ensures ReceiptsOf(receipts + [r], o) == ReceiptsOf(receipts, o) + if r.order == o then [r] else []
  {
    assert (receipts + [r])[..|receipts|] == receipts;
  }

  ghost predicate Untouched(l: Ledger, o: Uuid) {
    && ReceiptsOf(l.receipts, o) == []
    && l.payAborts[o] == l.publishAborts[o] == l.commits[o] == l.shipAborts[o] == 0
    && l.releases[o] == l.cancelAborts[o] == 0
  }

  /** Every charge is either the one the order shows or belongs to a Pay that was lost, before or after charging. */
  ghost predicate ChargesOk(l: Ledger, o: Uuid, order: Order) {
    var charges := ReceiptsOf(l.receipts, o);
    && |charges| == l.payAborts[o] + One(order.transaction.Some?)
    && (order.transaction.Some? && order.payment.Some? ==>
          Receipt(o, order.transaction.value, order.payment.value) in charges)
  }

  /** Every commit of parts either assembled the order or belongs to a handler that was lost. */
  predicate CommitsOk(l: Ledger, o: Uuid, order: Order) {
    l.commits[o] == l.shipAborts[o] + One(order.status.Assembled?)
  }

  /** Every release either cancelled the order or belongs to a Cancel that was lost. */
  predicate ReleasesOk(l: Ledger, o: Uuid, row: Order, lock: Option<Holder>) {
    match row.status
    case Assembled => l.releases[o] <= l.cancelAborts[o] + 1
    case Cancelled => l.releases[o] == l.cancelAborts[o] + 1
    case _ => l.releases[o] == l.cancelAborts[o] + One(lock == Some(Released))
  }

  predicate RowOk(row: Order, lock: Option<Holder>) {
    FieldsOk(row) && (lock.Some? ==> PhaseOk(row.status, lock.value))
  }

  ghost predicate OrderOk(t0: Table, l: Ledger, o: Uuid, os: OrderState) {
    && ItemsOk(t0, Items(os))
    && match os
       case Inserting(_) => Untouched(l, o)
       case Stored(row, lock) =>
         RowOk(row, lock) && ChargesOk(l, o, Seen(os)) && CommitsOk(l, o, Seen(os)) && ReleasesOk(l, o, row, lock)
  }

  /** Steps without an effect outside the order's own row and lock. */
  predicate Silent(e: Event) {
    !(e.Charge? || e.ReleaseParts? || e.CommitParts? || e.Abort? || e.InsertFailed? || Late(e))
  }

  lemma SilentMove(l: Ledger, o: Uuid, os: OrderState, e: Event)
    requires CanMove(os, e) && Silent(e)
    ensures Seen(Move(os, e)) == Seen(os) && Booked(l, o, os, e) == l
  {
  }

  lemma RowKept(os: OrderState, e: Event)
    requires CanMove(os, e) && !e.InsertFailed? && (os.Stored? ==> RowOk(os.row, os.lock))
    ensures Items(Move(os, e)) == Items(os) && Move(os, e).Stored? && RowOk(Move(os, e).row, Move(os, e).lock)
  {
  }

  lemma ChargeKept(l: Ledger, o: Uuid, os: OrderState, e: Event)
    requires CanMove(os, e) && e.Charge? && RowOk(os.row, os.lock) && ChargesOk(l, o, os.row)
    ensures ChargesOk(Booked(l, o, os, e), o, Seen(Move(os, e)))
  {
    ReceiptAdded(l.receipts, Receipt(o, e.tx, os.lock.value.paidBy), o);
  }

  lemma LateChargeKept(l: Ledger, o: Uuid, os: OrderState, e: Event)
    requires CanMove(os, e) && e.LateCharge? && ChargesOk(l, o, Seen(os))
    ensures ChargesOk(Booked(l, o, os, e), o, Seen(Move(os, e)))
  {
    ReceiptAdded(l.receipts, Receipt(o, e.tx, e.paidBy), o);
  }

  lemma AbortCharges(l: Ledger, o: Uuid, os: OrderState, e: Event)
    requires CanMove(os, e) && e.Abort? && RowOk(os.row, os.lock) && ChargesOk(l, o, Seen(os))
    ensures ChargesOk(Booked(l, o, os, e), o, Seen(Move(os, e)))
  {
    assert Booked(l, o, os, e).receipts == l.receipts;
  }

  lemma ChargesKept(l: Ledger, o: Uuid, os: OrderState, e: Event)
    requires CanMove(os, e) && !e.InsertFailed?
    requires if os.Stored? then RowOk(os.row, os.lock) && ChargesOk(l, o, Seen(os)) else Untouched(l, o)
    ensures ChargesOk(Booked(l, o, os, e), o, Seen(Move(os, e)))
  {
    if Silent(e) {
      SilentMove(l, o, os, e);
    } else if e.Charge? {
      ChargeKept(l, o, os, e);
    } else if e.LateCharge? {
      LateChargeKept(l, o, os, e);
    } else if e.Abort? {
      AbortCharges(l, o, os, e);
    } else {
      assert Booked(l, o, os, e).receipts == l.receipts;
    }
  }

  lemma AbortCommits(l: Ledger, o: Uuid, os: OrderState, e: Event)
    requires CanMove(os, e) && e.Abort? && RowOk(os.row, os.lock) && CommitsOk(l, o, Seen(os))
    ensures CommitsOk(Booked(l, o, os, e), o, Seen(Move(os, e)))
  {
  }

  lemma CommitsKept(l: Ledger, o: Uuid, os: OrderState, e: Event)
    requires CanMove(os, e) && !e.InsertFailed?
    requires if os.Stored? then RowOk(os.row, os.lock) && CommitsOk(l, o, Seen(os)) else Untouched(l, o)
    ensures CommitsOk(Booked(l, o, os, e), o, Seen(Move(os, e)))
  {
    if Silent(e) {
      SilentMove(l, o, os, e);
    } else if e.Abort? {
      AbortCommits(l, o, os, e);
    }
  }

  lemma AbortReleases(l: Ledger, o: Uuid, os: OrderState, e: Event)
    requires CanMove(os, e) && e.Abort? && RowOk(os.row, os.lock) && ReleasesOk(l, o, os.row, os.lock)
    ensures ReleasesOk(Booked(l, o, os, e), o, Move(os, e).row, Move(os, e).lock)
  {
  }

  lemma SilentReleases(l: Ledger, o: Uuid, os: OrderState, e: Event)
    requires CanMove(os, e) && Silent(e)
    requires if os.Stored? then RowOk(os.row, os.lock) && ReleasesOk(l, o, os.row, os.lock) else Untouched(l, o)
    ensures Move(os, e).Stored? && ReleasesOk(l, o, Move(os, e).row, Move(os, e).lock)
  {
  }

  lemma ReleasesKept(l: Ledger, o: Uuid, os: OrderState, e: Event)
    requires CanMove(os, e) && !e.InsertFailed?
    requires if os.Stored? then RowOk(os.row, os.lock) && ReleasesOk(l, o, os.row, os.lock) else Untouched(l, o)
    ensures Move(os, e).Stored? && ReleasesOk(Booked(l, o, os, e), o, Move(os, e).row, Move(os, e).lock)
  {
    if Silent(e) {
      SilentReleases(l, o, os, e);
      SilentMove(l, o, os, e);
    } else if e.Abort? {
      AbortReleases(l, o, os, e);
    }
  }

  /** The step of a request keeps its own order in good shape ... */
  lemma {:induction false} MoveKeeps(t0: Table, l: Ledger, o: Uuid, os: OrderState, e: Event)
    requires OrderOk(t0, l, o, os) && CanMove(os, e) && !e.InsertFailed?
    ensures OrderOk(t0, Booked(l, o, os, e), o, Move(os, e))
  {
    RowKept(os, e);
    ChargesKept(l, o, os, e);
    CommitsKept(l, o, os, e);
    ReleasesKept(l, o, os, e);
  }

  ghost predicate SameShare(l: Ledger, k: Ledger, o: Uuid) {
    && ReceiptsOf(k.receipts, o) == ReceiptsOf(l.receipts, o)
    && k.payAborts[o] == l.payAborts[o] && k.publishAborts[o] == l.publishAborts[o]
    && k.commits[o] == l.commits[o] && k.shipAborts[o] == l.shipAborts[o]
    && k.releases[o] == l.releases[o] && k.cancelAborts[o] == l.cancelAborts[o]
  }

  /** ... and does not touch the share of any other order. */
  lemma MoveIsLocal(l: Ledger, o: Uuid, os: OrderState, e: Event, other: Uuid)
    requires CanMove(os, e) && (other != o || e.InsertFailed?)
    ensures SameShare(l, Booked(l, o, os, e), other)
  {
    if Silent(e) {
      SilentMove(l, o, os, e);
    } else if e.Charge? {
      ReceiptAdded(l.receipts, Receipt(o, e.tx, os.lock.value.paidBy), other);
    } else if e.LateCharge? {
      ReceiptAdded(l.receipts, Receipt(o, e.tx, e.paidBy), other);
    } else {
      assert Booked(l, o, os, e).receipts == l.receipts;
    }
  }

  ghost predicate OrdersOk(t0: Table, s: State) {
    && (forall o :: o in s.orders ==> OrderOk(t0, s.ledger, o, s.orders[o]))
    && (forall o :: o !in s.orders ==> Untouched(s.ledger, o))
  }

  lemma ReservedItemsOk(t0: Table, t: Table, p: OrderParts)
    requires TableOk(t0, t) && Accepts(t, Reserve, PartUuids(p))
    ensures ItemsOk(t0, ItemsFor(t, PartUuids(p)))
    ensures Uuids(ItemsFor(t, PartUuids(p))) == PartUuids(p)
  {
    UuidsByIndex(ItemsFor(t, PartUuids(p)));
    assert forall u :: u in t0 ==> ConversionError(t0[u]) == ConversionError(t[u]);
  }

  lemma ShareDecides(t0: Table, l: Ledger, k: Ledger, o: Uuid, os: OrderState)
    requires SameShare(l, k, o)
    ensures OrderOk(t0, l, o, os) ==> OrderOk(t0, k, o, os)
    ensures Untouched(l, o) ==> Untouched(k, o)
  {
  }

  /** Replacing one order and leaving the shares of the others alone. */
  lemma OrdersUpdate(t0: Table, s: State, s': State, o: Uuid, os: OrderState)
    requires OrdersOk(t0, s) && s'.orders == s.orders[o := os] && OrderOk(t0, s'.ledger, o, os)
    requires forall other :: other != o ==> SameShare(s.ledger, s'.ledger, other)
    ensures OrdersOk(t0, s')
  {
    forall other | other != o
      ensures if other in s'.orders then OrderOk(t0, s'.ledger, other, s'.orders[other])
              else Untouched(s'.ledger, other)
    {
      ShareDecides(t0, s.ledger, s'.ledger, other, if other in s'.orders then s'.orders[other] else os);
    }
  }

  lemma OrdersRemove(t0: Table, s: State, s': State, o: Uuid)
    requires OrdersOk(t0, s) && s'.orders == s.orders - {o} && Untouched(s.ledger, o)
    requires forall other :: SameShare(s.ledger, s'.ledger, other)
    ensures OrdersOk(t0, s')
  {
    forall other
      ensures if other in s'.orders then OrderOk(t0, s'.ledger, other, s'.orders[other])
              else Untouched(s'.ledger, other)
    {
      ShareDecides(t0, s.ledger, s'.ledger, other, if other in s'.orders then s'.orders[other] else Inserting([]));
    }
  }

  lemma OrdersMove(t0: Table, s: State, e: Event, o: Uuid)
    requires OrdersOk(t0, s) && Enabled(s, e) && Subject(s, e) == Some(o) && !e.InsertFailed?
    ensures OrdersOk(t0, Apply(s, e))
  {
    MoveKeeps(t0, s.ledger, o, s.orders[o], e);
    forall other | other != o ensures SameShare(s.ledger, Apply(s, e).ledger, other) {
      MoveIsLocal(s.ledger, o, s.orders[o], e, other);
    }
    OrdersUpdate(t0, s, Apply(s, e), o, Move(s.orders[o], e));
  }

  lemma {:induction false} OrdersStep(t0: Table, s: State, e: Event)
    requires TableOk(t0, s.table) && OrdersOk(t0, s) && Enabled(s, e)
    ensures OrdersOk(t0, Apply(s, e))
  {
    if e.ReserveParts? {
      ReservedItemsOk(t0, s.table, e.parts);
      OrdersUpdate(t0, s, Apply(s, e), e.id, Apply(s, e).orders[e.id]);
    } else if e.InsertFailed? {
      forall other ensures SameShare(s.ledger, Apply(s, e).ledger, other) {
        MoveIsLocal(s.ledger, e.id, s.orders[e.id], e, other);
      }
      OrdersRemove(t0, s, Apply(s, e), e.id);
    } else if !e.Assemble? {
      OrdersMove(t0, s, e, Subject(s, e).value);
    }
  }

  // ---- where messages come from ----

  /**
   * A message about an order implies a payment: the row is PAID or ASSEMBLED, or a Pay has published and still
   * holds the lock, or a Pay was lost after publishing.
   */
  predicate Announced(l: Ledger, o: Uuid, os: OrderState) {
    && os.Stored?
    && (l.publishAborts[o] > 0 || os.row.status.Paid? || os.row.status.Assembled?
        || (os.lock.Some? && os.lock.value.Published?))
  }

  ghost predicate MessagesOk(s: State) {
    forall o :: o in s.paid || o in s.shipped ==> o in s.orders && Announced(s.ledger, o, s.orders[o])
  }

  lemma AnnouncedKept(l: Ledger, o: Uuid, os: OrderState, e: Event)
    requires CanMove(os, e) && Announced(l, o, os)
    requires os.lock.Some? ==> PhaseOk(os.row.status, os.lock.value)
    ensures Announced(Booked(l, o, os, e), o, Move(os, e))
  {
  }

  lemma MessageKept(s: State, e: Event, m: Uuid)
    requires Enabled(s, e) && m in s.orders && Announced(s.ledger, m, s.orders[m])
    requires s.orders[m].lock.Some? ==> PhaseOk(s.orders[m].row.status, s.orders[m].lock.value)
    ensures m in Apply(s, e).orders && Announced(Apply(s, e).ledger, m, Apply(s, e).orders[m])
  {
    if Subject(s, e) == Some(m) {
      AnnouncedKept(s.ledger, m, s.orders[m], e);
    } else if Subject(s, e).Some? {
      MoveIsLocal(s.ledger, Subject(s, e).value, s.orders[Subject(s, e).value], e, m);
    }
  }

  /** A message is new because a Pay has published it, in time or late. */
  lemma NewMessage(s: State, e: Event, m: Uuid)
    requires Enabled(s, e) && m !in s.paid && m !in s.shipped && (m in Apply(s, e).paid || m in Apply(s, e).shipped)
    ensures m in Apply(s, e).orders && Announced(Apply(s, e).ledger, m, Apply(s, e).orders[m])
  {
    assert e.Publish? || e.LatePublish?;
    assert Subject(s, e) == Some(m);
  }

  lemma {:induction false} MessagesStep(t0: Table, s: State, e: Event)
    requires OrdersOk(t0, s) && MessagesOk(s) && Enabled(s, e)
    ensures MessagesOk(Apply(s, e))
  {
    var s' := Apply(s, e);
    forall m | m in s'.paid || m in s'.shipped ensures m in s'.orders && Announced(s'.ledger, m, s'.orders[m]) {
      if m in s.paid || m in s.shipped {
        assert OrderOk(t0, s.ledger, m, s.orders[m]);
        MessageKept(s, e, m);
      } else {
        NewMessage(s, e, m);
      }
    }
  }

  /**
   * Handlers work on messages, a payment leaves a message, and an order is assembled after its payment unless a
   * publishing Pay was lost.
   */
  predicate Sourced(paid: seq<Uuid>, shipped: seq<Uuid>, lostPays: nat, o: Uuid, row: Order, lock: Option<Holder>) {
    && (row.status.Paid? || (lock.Some? && lock.value.Published?) ==> o in paid)
    && (lock.Some? && (lock.value.Shipping? || lock.value.Committed?) ==> o in shipped)
    && (row.status.Assembled? ==> row.transaction.Some? || lostPays > 0)
  }

  ghost predicate Provenance(s: State, o: Uuid) {
    && o in s.orders
    && (s.orders[o].Stored? ==>
          Sourced(s.paid, s.shipped, s.ledger.publishAborts[o], o, s.orders[o].row, s.orders[o].lock))
  }

  /** An order in the hands of a handler is PAID, unless a publishing Pay was lost. */
  lemma HandledIsPaid(t0: Table, s: State, o: Uuid)
    requires o in s.orders && OrderOk(t0, s.ledger, o, s.orders[o]) && MessagesOk(s) && Provenance(s, o)
    requires Locked(s.orders[o]) && (s.orders[o].lock.value.Shipping? || s.orders[o].lock.value.Committed?)
    ensures s.orders[o].row.status.Paid? || s.ledger.publishAborts[o] > 0
  {
  }

  /** What a step does to the order it is about. */
  lemma OrderAfter(s: State, e: Event, o: Uuid)
    requires Enabled(s, e) && Subject(s, e) == Some(o)
    ensures CanMove(s.orders[o], e)
    ensures if e.InsertFailed? then s.orders[o].Inserting? && o !in Apply(s, e).orders
            else o in Apply(s, e).orders && Apply(s, e).orders[o] == Move(s.orders[o], e)
  {
  }

  lemma LogsAfter(s: State, e: Event, o: Uuid)
    requires Enabled(s, e)
    ensures o in s.paid ==> o in Apply(s, e).paid
    ensures o in s.shipped ==> o in Apply(s, e).shipped
    ensures e == Publish(o) ==> o in Apply(s, e).paid
  {
  }

  lemma CounterAfter(s: State, e: Event, o: Uuid)
    requires Enabled(s, e)
    ensures Apply(s, e).ledger.publishAborts[o] >= s.ledger.publishAborts[o]
  {
  }

  lemma SourcedKept(paid: seq<Uuid>, shipped: seq<Uuid>, k: nat, paid': seq<Uuid>, shipped': seq<Uuid>, k': nat,
                    o: Uuid, os: OrderState, e: Event)
    requires CanMove(os, e) && !e.InsertFailed? && Move(os, e).Stored?
    requires os.Stored? ==> RowOk(os.row, os.lock) && Sourced(paid, shipped, k, o, os.row, os.lock)
    requires (o in paid ==> o in paid') && (o in shipped ==> o in shipped') && k <= k'
    requires (e.Publish? ==> o in paid') && (e.LockForShip? ==> o in shipped)
    requires e.CommitShip? ==> os.row.status.Paid? || k > 0
    ensures Sourced(paid', shipped', k', o, Move(os, e).row, Move(os, e).lock)
  {
  }

  lemma OwnProvenance(t0: Table, s: State, e: Event, o: Uuid)
    requires OrdersOk(t0, s) && MessagesOk(s) && Enabled(s, e) && Subject(s, e) == Some(o) && !e.InsertFailed?
    requires Provenance(s, o)
    ensures Provenance(Apply(s, e), o)
  {
    var os, s' := s.orders[o], Apply(s, e);
    assert OrderOk(t0, s.ledger, o, os);
    OrderAfter(s, e, o);
    LogsAfter(s, e, o);
    CounterAfter(s, e, o);
    if e.CommitShip? {
      HandledIsPaid(t0, s, o);
    }
    if Move(os, e).Stored? {
      var k, k' := s.ledger.publishAborts[o], s'.ledger.publishAborts[o];
      SourcedKept(s.paid, s.shipped, k, s'.paid, s'.shipped, k', o, os, e);
    }
  }

  lemma {:induction false} ProvenanceStep(t0: Table, s: State, e: Event, o: Uuid)
    requires OrdersOk(t0, s) && MessagesOk(s) && Enabled(s, e)
    requires o in s.orders ==> Provenance(s, o)
    requires o in Apply(s, e).orders
    ensures Provenance(Apply(s, e), o)
  {
    if Subject(s, e) == Some(o) {
      OrderAfter(s, e, o);
      OwnProvenance(t0, s, e, o);
    } else {
      LogsAfter(s, e, o);
      CounterAfter(s, e, o);
    }
  }

  // ---- conservation ----

  predicate Claims(order: Order, u: Uuid) {
    (order.status.PendingPayment? || order.status.Paid?) && u in Uuids(order.items)
  }

  predicate Built(order: Order, u: Uuid) {
    order.status.Assembled? && u in Uuids(order.items)
  }

  /** The orders that hold a reservation of part u. */
  function Claimants(view: map<Uuid, Order>, u: Uuid): set<Uuid> {
    set o | o in view && Claims(view[o], u)
  }

  /** The orders part u was built into. */
  function Ships(view: map<Uuid, Order>, u: Uuid): set<Uuid> {
    set o | o in view && Built(view[o], u)
  }

  /** Two sets that differ at most in o. */
  lemma CountDiffer(a: set<Uuid>, b: set<Uuid>, o: Uuid)
    requires a - {o} == b - {o}
    ensures |a| + One(o in b) == |b| + One(o in a)
  {
    assert o in a ==> a == (a - {o}) + {o};
    assert o in b ==> b == (b - {o}) + {o};
    assert o !in a ==> a == a - {o};
    assert o !in b ==> b == b - {o};
  }

  lemma CountUpdate(view: map<Uuid, Order>, o: Uuid, x: Order, u: Uuid)
    ensures |Claimants(view[o := x], u)| + One(o in view && Claims(view[o], u))
            == |Claimants(view, u)| + One(Claims(x, u))
    ensures |Ships(view[o := x], u)| + One(o in view && Built(view[o], u)) == |Ships(view, u)| + One(Built(x, u))
  {
    CountDiffer(Claimants(view[o := x], u), Claimants(view, u), o);
    CountDiffer(Ships(view[o := x], u), Ships(view, u), o);
  }

  lemma CountRemove(view: map<Uuid, Order>, o: Uuid, u: Uuid)
    ensures |Claimants(view - {o}, u)| + One(o in view && Claims(view[o], u)) == |Claimants(view, u)|
    ensures |Ships(view - {o}, u)| + One(o in view && Built(view[o], u)) == |Ships(view, u)|
  {
    CountDiffer(Claimants(view - {o}, u), Claimants(view, u), o);
    CountDiffer(Ships(view - {o}, u), Ships(view, u), o);
  }

  /** Stock figures of one part against the orders and the faults that touched it. */
  ghost predicate Balanced(t0: Table, s: State, u: Uuid) {
    && u in t0 && u in s.table
    && s.table[u].reserved + s.ledger.lost[u] == t0[u].reserved + |Claimants(View(s), u)| + s.ledger.leaked[u]
    && s.table[u].stock + s.ledger.burned[u] + |Ships(View(s), u)| == t0[u].stock
  }

  /** What a request's step does to one part: its call, its order's claim and the ledger move together. */
  ghost predicate MovesTogether(l: Ledger, k: Ledger, t: Table, t': Table, before: Order, after: Order, u: Uuid) {
    && u in t && u in t'
    && t'[u].reserved + k.lost[u] + One(Claims(before, u)) == t[u].reserved + l.lost[u] + One(Claims(after, u))
    && t'[u].stock + k.burned[u] + One(Built(after, u)) == t[u].stock + l.burned[u] + One(Built(before, u))
    && k.leaked == l.leaked
  }

  lemma RowsAgree(rows: seq<Uuid>, ids: seq<Uuid>, u: Uuid)
    requires multiset(rows) == multiset(ids)
    ensures u in rows <==> u in ids
  {
    assert u in rows <==> u in multiset(rows);
  }

  lemma ReleaseBalances(l: Ledger, o: Uuid, os: OrderState, e: Event, t: Table, u: Uuid)
    requires CanMove(os, e) && e.ReleaseParts? && CallOk(t, os, e) && u in t && RowOk(os.row, os.lock)
    ensures MovesTogether(l, Booked(l, o, os, e), t, TableAfter(t, e), Seen(os), Seen(Move(os, e)), u)
  {
    RowsAgree(e.rows, Uuids(Items(os)), u);
    assert TableAfter(t, e)[u] == if u in e.rows then After(Release, t[u]) else t[u];
  }

  lemma CommitBalances(l: Ledger, o: Uuid, os: OrderState, e: Event, t: Table, u: Uuid)
    requires CanMove(os, e) && e.CommitParts? && CallOk(t, os, e) && u in t && RowOk(os.row, os.lock)
    requires Distinct(Uuids(Items(os)))
    ensures MovesTogether(l, Booked(l, o, os, e), t, TableAfter(t, e), Seen(os), Seen(Move(os, e)), u)
  {
    var here := u in Uuids(os.row.items);
    assert TableAfter(t, e)[u] == if here then After(Commit, t[u]) else t[u] by {
      RowsAgree(e.rows, Uuids(Items(os)), u);
    }
    assert Booked(l, o, os, e).lost[u] == l.lost[u] + One(here && os.row.status.Cancelled?) by {
      DistinctMultiplicity(Uuids(Items(os)), u);
    }
    assert Seen(os) == os.row && Seen(Move(os, e)) == os.row.(status := Assembled);
  }

  lemma AbortBalances(l: Ledger, o: Uuid, os: OrderState, e: Event, t: Table, u: Uuid)
    requires CanMove(os, e) && e.Abort? && u in t && Distinct(Uuids(Items(os))) && RowOk(os.row, os.lock)
    ensures MovesTogether(l, Booked(l, o, os, e), t, t, Seen(os), Seen(Move(os, e)), u)
  {
    DistinctMultiplicity(Uuids(Items(os)), u);
  }

  lemma LateReleaseBalances(l: Ledger, o: Uuid, os: OrderState, e: Event, t: Table, u: Uuid)
    requires CanMove(os, e) && e.LateRelease? && CallOk(t, os, e) && u in t && Distinct(Uuids(Items(os)))
    ensures MovesTogether(l, Booked(l, o, os, e), t, TableAfter(t, e), Seen(os), Seen(Move(os, e)), u)
  {
    RowsAgree(e.rows, Uuids(Items(os)), u);
    DistinctMultiplicity(Uuids(Items(os)), u);
  }

  lemma LateCommitBalances(l: Ledger, o: Uuid, os: OrderState, e: Event, t: Table, u: Uuid)
    requires CanMove(os, e) && e.LateCommit? && CallOk(t, os, e) && u in t && Distinct(Uuids(Items(os)))
    ensures MovesTogether(l, Booked(l, o, os, e), t, TableAfter(t, e), Seen(os), Seen(Move(os, e)), u)
  {
    RowsAgree(e.rows, Uuids(Items(os)), u);
    DistinctMultiplicity(Uuids(Items(os)), u);
  }

  lemma MoveBalances(t0: Table, l: Ledger, o: Uuid, os: OrderState, e: Event, t: Table, u: Uuid)
    requires OrderOk(t0, l, o, os) && CanMove(os, e) && !e.InsertFailed? && !e.ReserveParts?
    requires CallOk(t, os, e) && u in t
    ensures MovesTogether(l, Booked(l, o, os, e), t, TableAfter(t, e), Seen(os), Seen(Move(os, e)), u)
  {
    if Silent(e) {
      SilentMove(l, o, os, e);
    } else if e.Abort? {
      AbortBalances(l, o, os, e, t, u);
    } else if e.LateRelease? {
      LateReleaseBalances(l, o, os, e, t, u);
    } else if e.LateCommit? {
      LateCommitBalances(l, o, os, e, t, u);
    } else if e.ReleaseParts? {
      ReleaseBalances(l, o, os, e, t, u);
    } else if e.CommitParts? {
      CommitBalances(l, o, os, e, t, u);
    }
  }

  lemma BalanceUpdate(t0: Table, s: State, s': State, o: Uuid, os: OrderState, u: Uuid)
    requires Balanced(t0, s, u) && o in s.orders && s'.orders == s.orders[o := os]
    requires MovesTogether(s.ledger, s'.ledger, s.table, s'.table, Seen(s.orders[o]), Seen(os), u)
    ensures Balanced(t0, s', u)
  {
    assert View(s') == View(s)[o := Seen(os)];
    CountUpdate(View(s), o, Seen(os), u);
  }

  lemma BalanceInsert(t0: Table, s: State, s': State, o: Uuid, os: OrderState, u: Uuid)
    requires Balanced(t0, s, u) && o !in s.orders && s'.orders == s.orders[o := os] && s'.ledger == s.ledger
    requires Seen(os).status.PendingPayment? && u in s'.table
    requires s'.table[u].reserved == s.table[u].reserved + One(u in Uuids(Items(os)))
    requires s'.table[u].stock == s.table[u].stock
    ensures Balanced(t0, s', u)
  {
    assert View(s') == View(s)[o := Seen(os)];
    CountUpdate(View(s), o, Seen(os), u);
  }

  lemma ReserveBalanced(t0: Table, s: State, e: Event, u: Uuid)
    requires TableOk(t0, s.table) && Enabled(s, e) && Balanced(t0, s, u) && e.ReserveParts?
    ensures Balanced(t0, Apply(s, e), u)
  {
    ReservedItemsOk(t0, s.table, e.parts);
    BalanceInsert(t0, s, Apply(s, e), e.id, Inserting(ItemsFor(s.table, PartUuids(e.parts))), u);
  }

  lemma BalanceRemove(t0: Table, s: State, s': State, o: Uuid, u: Uuid)
    requires Balanced(t0, s, u) && o in s.orders && s.orders[o].Inserting? && s'.orders == s.orders - {o}
    requires s'.table == s.table && s'.ledger.lost == s.ledger.lost && s'.ledger.burned == s.ledger.burned
    requires s'.ledger.leaked[u] == s.ledger.leaked[u] + One(u in Uuids(s.orders[o].items))
    ensures Balanced(t0, s', u)
  {
    assert View(s') == View(s) - {o};
    CountRemove(View(s), o, u);
  }

  lemma InsertFailedBalanced(t0: Table, s: State, e: Event, u: Uuid)
    requires Enabled(s, e) && e.InsertFailed? && OrderOk(t0, s.ledger, e.id, s.orders[e.id]) && Balanced(t0, s, u)
    ensures Balanced(t0, Apply(s, e), u)
  {
    DistinctMultiplicity(Uuids(s.orders[e.id].items), u);
    BalanceRemove(t0, s, Apply(s, e), e.id, u);
  }

  lemma {:induction false} BalancedStep(t0: Table, s: State, e: Event, u: Uuid)
    requires TableOk(t0, s.table) && OrdersOk(t0, s) && Enabled(s, e) && Balanced(t0, s, u)
    ensures Balanced(t0, Apply(s, e), u)
  {
    if e.ReserveParts? {
      ReserveBalanced(t0, s, e, u);
    } else if e.InsertFailed? {
      InsertFailedBalanced(t0, s, e, u);
    } else if e.Assemble? {
      assert View(Apply(s, e)) == View(s);
    } else {
      var o := Subject(s, e).value;
      MoveBalances(t0, s.ledger, o, s.orders[o], e, s.table, u);
      BalanceUpdate(t0, s, Apply(s, e), o, Move(s.orders[o], e), u);
    }
  }

  // ---- the whole ----

  ghost predicate Inv(t0: Table, s: State) {
    && TableOk(t0, s.table) && OrdersOk(t0, s) && MessagesOk(s)
    && (forall o :: o in s.orders ==> Provenance(s, o))
    && forall u :: u in t0 ==> Balanced(t0, s, u)
  }

  lemma {:induction false} InvStep(t0: Table, s: State, e: Event)
    requires Inv(t0, s) && Enabled(s, e)
    ensures Inv(t0, Apply(s, e))
  {
    TableStep(t0, s, e);
    OrdersStep(t0, s, e);
    MessagesStep(t0, s, e);
    forall o | o in Apply(s, e).orders ensures Provenance(Apply(s, e), o) {
      ProvenanceStep(t0, s, e, o);
    }
    forall u | u in t0 ensures Balanced(t0, Apply(s, e), u) {
      BalancedStep(t0, s, e, u);
    }
  }

  lemma InitialInv(t0: Table)
    requires SoundTable(t0)
    ensures Inv(t0, Initial(t0))
  {
    forall u | u in t0 ensures Balanced(t0, Initial(t0), u) {
      assert View(Initial(t0)) == map[];
      assert Claimants(map[], u) == {} && Ships(map[], u) == {};
    }
  }

  lemma {:induction false} InvRun(t0: Table, es: seq<Event>)
    requires SoundTable(t0) && Runs(Initial(t0), es)
    ensures Inv(t0, Exec(Initial(t0), es))
  {
    if es == [] {
      InitialInv(t0);
    } else {
      InvRun(t0, es[..|es| - 1]);
      InvStep(t0, Exec(Initial(t0), es[..|es| - 1]), es[|es| - 1]);
    }
  }
}
