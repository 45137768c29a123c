/**
 * The order saga as a machine of steps. Create, Pay, Cancel and the ShipAssembled handler each take several steps
 * and interleave freely; a step is one effect that others can see: taking or dropping the lock on an order row,
 * one remote call that took effect, one published message, one commit.
 *
 * Every locked order records how far the request holding its lock has come. Requests that still wait for a lock
 * have no effect on anything and are therefore not part of the state.
 */
module Saga {
  import opened Prelude
  import opened Parts
  import opened BatchSpec
  import opened Orders

  datatype Status = PendingPayment | Paid | Cancelled | Assembled

  datatype PaymentMethod = Card | Sbp | CreditCard | InvestorMoney

  datatype Order = Order(items: seq<Item>, status: Status, transaction: Option<Uuid>, payment: Option<PaymentMethod>)

  datatype Holder =
    | Paying(paidBy: PaymentMethod)                 // found PENDING_PAYMENT, about to charge
    | Charged(paidBy: PaymentMethod, tx: Uuid)      // the payment service has charged
    | Published(paidBy: PaymentMethod, tx: Uuid)    // OrderPaid is in the log, the row is not committed
    | Cancelling                                    // found PENDING_PAYMENT, about to release
    | Released                                      // the inventory has released
    | Shipping                                      // found anything but ASSEMBLED, about to commit the parts
    | Committed                                     // the inventory has committed the parts

  datatype Receipt = Receipt(order: Uuid, tx: Uuid, paidBy: PaymentMethod)

  // A request given up while its remote call was still running, so that the call may yet take effect.
  datatype Orphan = Orphan(order: Uuid, holder: Holder)

  // Remote effects and lost order-side transactions, per order and per part. Nothing in the system reads it.
  datatype Ledger = Ledger(
    receipts: seq<Receipt>,
    releases: multiset<Uuid>, commits: multiset<Uuid>,
    payAborts: multiset<Uuid>, publishAborts: multiset<Uuid>,
    cancelAborts: multiset<Uuid>, shipAborts: multiset<Uuid>,
    leaked: multiset<Uuid>,    // parts reserved for an order that was never inserted
    lost: multiset<Uuid>,      // parts whose reservation was given up without the order giving up its claim
    burned: multiset<Uuid>)    // parts taken from stock without the order becoming ASSEMBLED

  // An order whose parts are reserved but whose row is not inserted yet, or a committed row and its lock.
  datatype OrderState = Inserting(items: seq<Item>) | Stored(row: Order, lock: Option<Holder>)

  datatype State = State(
    orders: map<Uuid, OrderState>,
    table: Table,                        // the inventory
    paid: seq<Uuid>,                     // topic order.paid
    shipped: seq<Uuid>,                  // topic assembly.ship-assembled
    orphans: multiset<Orphan>,
    ledger: Ledger)

  datatype Event =
    | ReserveParts(id: Uuid, parts: OrderParts)
    | InsertOrder(id: Uuid)
    | InsertFailed(id: Uuid)
    | LockForPay(order: Uuid, paidBy: PaymentMethod)
    | Charge(order: Uuid, tx: Uuid)
    | Publish(order: Uuid)
    | CommitPay(order: Uuid)
    | LockForCancel(order: Uuid)
    | ReleaseParts(order: Uuid, rows: seq<Uuid>)
    | CommitCancel(order: Uuid)
    | Assemble(offset: nat)              // the assembly service answers a message, first or repeated delivery
    | LockForShip(offset: nat)           // the order consumer handles a message, first or repeated delivery
    | CommitParts(order: Uuid, rows: seq<Uuid>)
    | CommitShip(order: Uuid)
    | Abort(order: Uuid)                 // the order-side transaction of the lock holder rolls back
    | LateCharge(order: Uuid, paidBy: PaymentMethod, tx: Uuid)    // the call of a request given up takes effect
    | LatePublish(order: Uuid, paidBy: PaymentMethod, tx: Uuid)
    | LateRelease(order: Uuid, rows: seq<Uuid>)
    | LateCommit(order: Uuid, rows: seq<Uuid>)

  function EmptyLedger(): Ledger {
    var none := multiset{};
    Ledger([], none, none, none, none, none, none, none, none, none)
  }

  function Initial(t: Table): State {
    State(map[], t, [], [], multiset{}, EmptyLedger())
  }

  function NewOrder(items: seq<Item>): Order {
    Order(items, PendingPayment, None, None)
  }

  function Items(os: OrderState): seq<Item> {
    if os.Inserting? then os.items else os.row.items
  }

  predicate Locked(os: OrderState) {
    os.Stored? && os.lock.Some?
  }

  predicate Late(e: Event) {
    e.LateCharge? || e.LatePublish? || e.LateRelease? || e.LateCommit?
  }

  /** What the request demands of the order before it makes the step. */
  predicate CanMove(os: OrderState, e: Event) {
    match e
    case InsertOrder(_) => os.Inserting?
    case InsertFailed(_) => os.Inserting?
    case LockForPay(_, _) => os.Stored? && os.lock.None?
    case LockForCancel(_) => os.Stored? && os.lock.None?
    case LockForShip(_) => os.Stored? && os.lock.None?
    case Charge(_, _) => Locked(os) && os.lock.value.Paying?
    case Publish(_) => Locked(os) && os.lock.value.Charged?
    case CommitPay(_) => Locked(os) && os.lock.value.Published?
    case ReleaseParts(_, _) => Locked(os) && os.lock.value.Cancelling?
    case CommitCancel(_) => Locked(os) && os.lock.value.Released?
    case CommitParts(_, _) => Locked(os) && os.lock.value.Shipping?
    case CommitShip(_) => Locked(os) && os.lock.value.Committed?
    case Abort(_) => Locked(os)
    case _ => Late(e) && os.Stored?
  }

  /** The order after the step; a lock that finds the wrong status is dropped again at once. */
  function Move(os: OrderState, e: Event): OrderState
    requires CanMove(os, e)
  {
    match e
    case InsertOrder(_) => Stored(NewOrder(os.items), None)
    case InsertFailed(_) => os
    case LockForPay(_, m) => if os.row.status.PendingPayment? then os.(lock := Some(Paying(m))) else os
    case LockForCancel(_) => if os.row.status.PendingPayment? then os.(lock := Some(Cancelling)) else os
    case LockForShip(_) => if os.row.status.Assembled? then os else os.(lock := Some(Shipping))
    case Charge(_, tx) => os.(lock := Some(Charged(os.lock.value.paidBy, tx)))
    case Publish(_) => os.(lock := Some(Published(os.lock.value.paidBy, os.lock.value.tx)))
    case CommitPay(_) =>
      Stored(Order(os.row.items, Paid, Some(os.lock.value.tx), Some(os.lock.value.paidBy)), None)
    case ReleaseParts(_, _) => os.(lock := Some(Released))
    case CommitCancel(_) => Stored(Order(os.row.items, Cancelled, os.row.transaction, os.row.payment), None)
    case CommitParts(_, _) => os.(lock := Some(Committed))
    case CommitShip(_) => Stored(Order(os.row.items, Assembled, os.row.transaction, os.row.payment), None)
    case Abort(_) => os.(lock := None)
    case _ => os
  }

  function Booked(l: Ledger, o: Uuid, os: OrderState, e: Event): Ledger
    requires CanMove(os, e)
  {
    var here, parts := multiset{o}, multiset(Uuids(Items(os)));
    match e
    case InsertFailed(_) => l.(leaked := l.leaked + parts)
    case Charge(_, tx) => l.(receipts := l.receipts + [Receipt(o, tx, os.lock.value.paidBy)])
    case ReleaseParts(_, _) => l.(releases := l.releases + here)
    case LateCharge(_, m, tx) =>
      l.(receipts := l.receipts + [Receipt(o, tx, m)], payAborts := l.payAborts + here)
    case LatePublish(_, _, _) => l.(publishAborts := l.publishAborts + here)
    case LateRelease(_, _) =>
      l.(releases := l.releases + here, cancelAborts := l.cancelAborts + here, lost := l.lost + parts)
    case LateCommit(_, _) =>
      l.(commits := l.commits + here, shipAborts := l.shipAborts + here,
         burned := l.burned + parts, lost := l.lost + parts)
    case CommitParts(_, _) =>
      l.(commits := l.commits + here, lost := if os.row.status.Cancelled? then l.lost + parts else l.lost)
    case Abort(_) => (
      match os.lock.value
      case Charged(_, _) => l.(payAborts := l.payAborts + here)
      case Published(_, _) => l.(payAborts := l.payAborts + here, publishAborts := l.publishAborts + here)
      case Released => l.(cancelAborts := l.cancelAborts + here, lost := l.lost + parts)
      case Committed =>
        l.(shipAborts := l.shipAborts + here, burned := l.burned + parts,
           lost := if os.row.status.Cancelled? then l.lost else l.lost + parts)
      case _ => l)
    case _ => l
  }

  /** The order a step is about. */
  function Subject(s: State, e: Event): Option<Uuid> {
    match e
    case ReserveParts(_, _) => None
    case Assemble(_) => None
    case LockForShip(i) => if i < |s.shipped| then Some(s.shipped[i]) else None
    case InsertOrder(id) => Some(id)
    case InsertFailed(id) => Some(id)
    case LockForPay(o, _) => Some(o)
    case LockForCancel(o) => Some(o)
    case Charge(o, _) => Some(o)
    case Publish(o) => Some(o)
    case CommitPay(o) => Some(o)
    case ReleaseParts(o, _) => Some(o)
    case CommitCancel(o) => Some(o)
    case CommitParts(o, _) => Some(o)
    case CommitShip(o) => Some(o)
    case Abort(o) => Some(o)
    case LateCharge(o, _, _) => Some(o)
    case LatePublish(o, _, _) => Some(o)
    case LateRelease(o, _) => Some(o)
    case LateCommit(o, _) => Some(o)
  }

  /** The request a late effect belongs to. */
  function OrphanOf(e: Event): Option<Orphan> {
    match e
    case LateCharge(o, m, _) => Some(Orphan(o, Paying(m)))
    case LatePublish(o, m, tx) => Some(Orphan(o, Charged(m, tx)))
    case LateRelease(o, _) => Some(Orphan(o, Cancelling))
    case LateCommit(o, _) => Some(Orphan(o, Shipping))
    case _ => None
  }

  /** The batch call a step makes; the item rows come back in no particular order. */
  function CallOf(e: Event): Option<Call> {
    match e
    case ReserveParts(_, p) => Some(Call(Reserve, PartUuids(p)))
    case ReleaseParts(_, rows) => Some(Call(Release, rows))
    case CommitParts(_, rows) => Some(Call(Commit, rows))
    case LateRelease(_, rows) => Some(Call(Release, rows))
    case LateCommit(_, rows) => Some(Call(Commit, rows))
    case _ => None
  }

  predicate CallOk(t: Table, os: OrderState, e: Event) {
    e.ReleaseParts? || e.CommitParts? || e.LateRelease? || e.LateCommit? ==>
      multiset(e.rows) == multiset(Uuids(Items(os))) && Accepts(t, CallOf(e).value.op, e.rows)
  }

  /** A request for an order that does not exist fails without a step. */
  predicate Enabled(s: State, e: Event) {
    if e.ReserveParts? then
      e.id !in s.orders && Orderable(s.table, e.parts) && Accepts(s.table, Reserve, PartUuids(e.parts))
    else if e.Assemble? then e.offset < |s.paid|
    else
      var o := Subject(s, e);
      && o.Some? && o.value in s.orders && CanMove(s.orders[o.value], e) && CallOk(s.table, s.orders[o.value], e)
      && (OrphanOf(e).Some? ==> OrphanOf(e).value in s.orphans)
  }

  /** The holder's next effect is one that others bring about, so that it may come late. */
  predicate AwaitsAnswer(h: Holder) {
    h.Paying? || h.Charged? || h.Cancelling? || h.Shipping?
  }

  /** Giving up before the answer leaves an orphan; its late effect uses it up. */
  function OrphansAfter(orphans: multiset<Orphan>, o: Uuid, os: OrderState, e: Event): multiset<Orphan> {
    if e.Abort? && Locked(os) && AwaitsAnswer(os.lock.value) then orphans + multiset{Orphan(o, os.lock.value)}
    else if OrphanOf(e).Some? then orphans - multiset{OrphanOf(e).value}
    else orphans
  }

  function TableAfter(t: Table, e: Event): Table {
    if CallOf(e).Some? then Updated(t, CallOf(e).value.op, CallOf(e).value.targets) else t
  }

  function Apply(s: State, e: Event): State
    requires Enabled(s, e)
  {
    if e.ReserveParts? then
      s.(orders := s.orders[e.id := Inserting(ItemsFor(s.table, PartUuids(e.parts)))], table := TableAfter(s.table, e))
    else if e.Assemble? then s.(shipped := s.shipped + [s.paid[e.offset]])
    else
      var o := Subject(s, e).value;
      var ledger := Booked(s.ledger, o, s.orders[o], e);
      if e.InsertFailed? then s.(orders := s.orders - {o}, ledger := ledger)
      else
        s.(orders := s.orders[o := Move(s.orders[o], e)],
           table := TableAfter(s.table, e),
           paid := if e.Publish? || e.LatePublish? then s.paid + [o] else s.paid,
           orphans := OrphansAfter(s.orphans, o, s.orders[o], e),
           ledger := ledger)
  }

  predicate HadEffect(h: Holder) {
    h.Charged? || h.Published? || h.Released? || h.Committed?
  }

  /** The order side gives up after a remote effect or a publication, or has given up before it. */
  predicate Faulty(s: State, e: Event) {
    || e.InsertFailed? || Late(e)
    || (e.Abort? && e.order in s.orders && Locked(s.orders[e.order]) && HadEffect(s.orders[e.order].lock.value))
  }

  ghost predicate Runs(s: State, es: seq<Event>)
    decreases |es|, 0
  {
    es == [] || (Runs(s, es[..|es| - 1]) && Enabled(Exec(s, es[..|es| - 1]), es[|es| - 1]))
  }

  ghost function Exec(s: State, es: seq<Event>): State
    requires Runs(s, es)
    decreases |es|, 1
  {
    if es == [] then s else Apply(Exec(s, es[..|es| - 1]), es[|es| - 1])
  }

  /** A run in which the order side always commits what it has started remotely. */
  ghost predicate CleanRun(s: State, es: seq<Event>)
    decreases |es|
  {
    Runs(s, es) && (es == [] || (CleanRun(s, es[..|es| - 1]) && !Faulty(Exec(s, es[..|es| - 1]), es[|es| - 1])))
  }

  lemma AppendEvent(s: State, es: seq<Event>, e: Event)
    requires Runs(s, es) && Enabled(Exec(s, es), e)
    ensures Runs(s, es + [e]) && Exec(s, es + [e]) == Apply(Exec(s, es), e)
    ensures CleanRun(s, es) && !Faulty(Exec(s, es), e) ==> CleanRun(s, es + [e])
  {
    assert (es + [e])[..|es|] == es;
  }

  // ---- the orders as the remote services already see them ----

  /** A request counts from its remote effect on, not from its commit. */
  function Effect(order: Order, h: Holder): Order {
    match h
    case Charged(m, tx) => Order(order.items, Paid, Some(tx), Some(m))
    case Published(m, tx) => Order(order.items, Paid, Some(tx), Some(m))
    case Released => order.(status := Cancelled)
    case Committed => order.(status := Assembled)
    case _ => order
  }

  function Seen(os: OrderState): Order {
    match os
    case Inserting(items) => NewOrder(items)
    case Stored(row, lock) => if lock.Some? then Effect(row, lock.value) else row
  }

  function View(s: State): map<Uuid, Order> {
    map o | o in s.orders :: Seen(s.orders[o])
  }

  /** No request is in flight. */
  predicate Quiet(s: State) {
    forall o | o in s.orders :: s.orders[o].Stored? && s.orders[o].lock.None?
  }

  /** Then what the services see is what the rows say. */
  lemma QuietView(s: State)
    requires Quiet(s)
    ensures forall o :: o in s.orders ==> View(s)[o] == s.orders[o].row
  {
  }
}
