/**
 * The order service as written: each request one method, run from the moment its lock is granted, with the answers
 * of the outside world as parameters. Any sequence of requests is one run of the saga machine, from the empty factory.
 */
module OrderService {
  import opened Prelude
  import opened Parts
  import opened BatchSpec
  import opened InventoryService
  import opened Slots
  import opened Orders
  import opened Saga
  import opened SagaInvariants

  datatype ServiceError =
    | Unauthorized | InvalidPartUuid | OutOfStockPart | InventoryError(cause: Error) | ValidationCrashed
    | OrderNotFound | InvalidOrderStatus | InvalidPaymentMethod | PaymentFailed | StorageFailed | SendFailed

  datatype Result<+T> = Ok(value: T) | Err(error: ServiceError)

  // What becomes of a message on its way to the broker.
  datatype Sending = Acknowledged | Unacknowledged | Refused

  // Where a transaction is lost after its remote effect.
  datatype PayLoss = AtUpdate | AtPublish | AtCommit

  // What requests have done so far, step by step, from the state in which they found the system.
  datatype Course = Begin(start: State) | Then(before: Course, step: Event)

  ghost predicate Possible(c: Course)
    decreases c, 0
  {
    c.Begin? || (Possible(c.before) && Enabled(End(c.before), c.step))
  }

  ghost function End(c: Course): State
    requires Possible(c)
    decreases c, 1
  {
    if c.Begin? then c.start else Apply(End(c.before), c.step)
  }

  lemma Advance(c: Course, s: State, e: Event, now: State)
    requires Possible(c) && End(c) == s && Enabled(s, e) && now == Apply(s, e)
    ensures Possible(Then(c, e)) && End(Then(c, e)) == now && Start(Then(c, e)) == Start(c)
  {
  }

  function Start(c: Course): State {
    if c.Begin? then c.start else Start(c.before)
  }

  function Steps(c: Course): seq<Event> {
    if c.Begin? then [] else Steps(c.before) + [c.step]
  }

  /** What requests do is a run of the saga machine. */
  lemma {:induction false} CourseIsRun(c: Course)
    requires Possible(c)
    ensures Runs(Start(c), Steps(c)) && Exec(Start(c), Steps(c)) == End(c)
  {
    if c.Then? {
      CourseIsRun(c.before);
      AppendEvent(Start(c), Steps(c.before), c.step);
    }
  }

  /** Some part is listed twice; uuid.Nil is not compared, and left to the lookup to reject. */
  predicate Repeats(ids: seq<Uuid>) {
    exists i, j :: 0 <= i < j < |ids| && ids[i] == ids[j] && ids[i] != NIL
  }

  method ValidateUniqueUuids(ids: seq<Uuid>) returns (ok: bool)
    ensures ok <==> forall i, j :: 0 <= i < j < |ids| && ids[i] == ids[j] ==> ids[i] == NIL
  {
    var seen: set<Uuid> := {};
    for i := 0 to |ids|
      invariant forall u :: u in seen <==> u != NIL && u in ids[..i]
      invariant forall k, j :: 0 <= k < j < i && ids[k] == ids[j] ==> ids[k] == NIL
    {
      if ids[i] == NIL {
        continue;
      }
      if ids[i] in seen {
        ghost var k :| 0 <= k < i && ids[..i][k] == ids[i];
        assert ids[k] == ids[i];
        return false;
      }
      seen := seen + {ids[i]};
    }
    return true;
  }

  /** The order has a committed row. */
  predicate Exists(orders: map<Uuid, OrderState>, o: Uuid) {
    o in orders && orders[o].Stored?
  }

  /** Every committed order has its item rows. */
  ghost predicate RowsStored(orders: map<Uuid, OrderState>, itemRows: map<Uuid, seq<ItemRecord>>) {
    forall o :: Exists(orders, o) ==> o in itemRows && itemRows[o] == Records(o, orders[o].row.items)
  }

  lemma RowsKept(orders: map<Uuid, OrderState>, itemRows: map<Uuid, seq<ItemRecord>>, o: Uuid, row: Order)
    requires RowsStored(orders, itemRows) && Exists(orders, o) && row.items == orders[o].row.items
    ensures RowsStored(orders[o := Stored(row, None)], itemRows)
  {
  }

  lemma RowsAdded(orders: map<Uuid, OrderState>, itemRows: map<Uuid, seq<ItemRecord>>, o: Uuid, row: Order)
    requires RowsStored(orders, itemRows)
    ensures RowsStored(orders[o := Stored(row, None)], itemRows[o := Records(o, row.items)])
  {
  }

  // Updating one order twice, or back, or away again.

  lemma Restored(m: map<Uuid, OrderState>, o: Uuid)
    requires o in m
    ensures m[o := m[o]] == m
  {
  }

  lemma Stepped(m: map<Uuid, OrderState>, o: Uuid, first: OrderState, second: OrderState)
    requires o !in m
    ensures m[o := first][o := second] == m[o := second] && m[o := first] - {o} == m
  {
  }

  lemma Twice(m: map<Uuid, OrderState>, o: Uuid, first: OrderState, second: OrderState)
    ensures m[o := first][o := second] == m[o := second]
  {
  }

  // ---- the answers, condition by condition in the order of the code ----

  /** What the read-only checks of Create find: the list, the stock, the ship. */
  function ExamineFailure(t: Table, p: OrderParts): Option<ServiceError> {
    var ids := PartUuids(p);
    if ListError(t, ids).Some? then Some(InventoryError(ListError(t, ids).value))
    else if exists u :: u in ids && u in t && t[u].stock <= 0 then Some(OutOfStockPart)
    else
      match Validation(t, SlotsOf(p))
      case Rejected(cause) => Some(InventoryError(cause))
      case Panics => Some(ValidationCrashed)
      case Compatible => None
  }

  function CreateFailure(authorized: bool, t: Table, p: OrderParts): Option<ServiceError> {
    if !authorized then Some(Unauthorized)
    else if Repeats(PartUuids(p)) then Some(InvalidPartUuid)
    else ExamineFailure(t, p)
  }

  /** Nothing stops a request before the reservation exactly when it is authorized, orderable and in stock. */
  lemma CreateFailureExact(authorized: bool, t: Table, p: OrderParts)
    ensures CreateFailure(authorized, t, p).None? <==>
      authorized && Orderable(t, p) && forall u :: u in PartUuids(p) ==> u in t && t[u].stock > 0
  {
  }

  predicate InStock(t: Table, ids: seq<Uuid>) {
    AllReadable(t, ids) && forall u :: u in ids ==> t[u].stock > 0
  }

  /** And every failure, each with exactly when: the first condition that does not hold decides. */
  lemma CreateErrors(authorized: bool, t: Table, p: OrderParts)
    ensures var ids, f := PartUuids(p), CreateFailure(authorized, t, p);
            && (f == Some(Unauthorized) <==> !authorized)
            && (f == Some(InvalidPartUuid) <==> authorized && Repeats(ids))
            && (f == Some(OutOfStockPart) <==>
                  authorized && !Repeats(ids) && AllReadable(t, ids) && exists u :: u in ids && t[u].stock <= 0)
            && (f == Some(ValidationCrashed) <==>
                  authorized && !Repeats(ids) && InStock(t, ids) && Validation(t, SlotsOf(p)).Panics?)
            && (forall e :: f == Some(InventoryError(e)) <==>
                  && authorized && !Repeats(ids)
                  && (ListError(t, ids) == Some(e) || (InStock(t, ids) && Validation(t, SlotsOf(p)) == Rejected(e))))
  {
    ListErrors(t, PartUuids(p));
  }

  // ---- the steps each request takes ----

  /** What SELECT without ORDER BY may return: the rows inserted for the order, in any order. */
  ghost predicate Fetched(itemRows: map<Uuid, seq<ItemRecord>>, o: Uuid, records: seq<ItemRecord>) {
    o in itemRows && multiset(records) == multiset(itemRows[o])
  }

  /**
   * One inventory call for the items of an order whose uuids came back as `ids`: the error follows that order, but
   * acceptance and the new table are those of the items as stored.
   */
  ghost predicate Called(t: Table, op: PartOp, items: seq<Item>, ids: seq<Uuid>, err: Option<Error>, now: Table) {
    && err == Outcome(t, op, ids)
    && (err.None? <==> Accepts(t, op, Uuids(items)))
    && now == Batch(t, op, Uuids(items))
  }

  /** The uuids in the order their rows came back. */
  function Ids(records: seq<ItemRecord>): seq<Uuid> {
    Uuids(Models(records))
  }

  lemma FetchedIds(o: Uuid, items: seq<Item>, records: seq<ItemRecord>)
    requires multiset(records) == multiset(Records(o, items))
    ensures multiset(Ids(records)) == multiset(Uuids(items)) && (items != [] ==> Ids(records) != [])
  {
    RowsRoundTrip(o, items, records);
    ReorderedRows(items, Models(records));
    UuidsByIndex(items);
    assert |multiset(Ids(records))| == |Ids(records)| && |multiset(Uuids(items))| == |Uuids(items)|;
  }

  function CallAnswer(err: Option<Error>, lost: bool): Result<()> {
    if err.Some? then Err(InventoryError(err.value)) else if lost then Err(StorageFailed) else Ok(())
  }

  /** What the caller learns from an answer. */
  lemma AnswerExact(t: Table, op: PartOp, items: seq<Item>, ids: seq<Uuid>, err: Option<Error>, now: Table, lost: bool)
    requires Called(t, op, items, ids, err, now)
    ensures CallAnswer(err, lost) == Ok(()) <==> Accepts(t, op, Uuids(items)) && !lost
    ensures CallAnswer(err, lost) == Err(StorageFailed) <==> Accepts(t, op, Uuids(items)) && lost
    ensures forall e :: CallAnswer(err, lost) == Err(InventoryError(e)) <==> Outcome(t, op, ids) == Some(e)
    ensures now == Batch(t, op, Uuids(items)) && (err.None? <==> Accepts(t, op, Uuids(items)))
  {
  }

  /** The course of a Pay that holds the lock and has charged. */
  function PayCourse(before: Course, o: Uuid, tx: Uuid, loss: Option<PayLoss>): Course {
    match loss
    case None => Then(Then(Then(before, Charge(o, tx)), Publish(o)), CommitPay(o))
    case Some(AtCommit) => Then(Then(Then(before, Charge(o, tx)), Publish(o)), Abort(o))
    case Some(_) => Then(Then(before, Charge(o, tx)), Abort(o))
  }

  /** The inventory call of Cancel or of the handler. */
  function CallStep(o: Uuid, op: PartOp, ids: seq<Uuid>): Event {
    if op.Release? then ReleaseParts(o, ids) else CommitParts(o, ids)
  }

  /** The machine's side of an accepted call. */
  lemma CallMoves(s: State, o: Uuid, op: PartOp, ids: seq<Uuid>)
    requires Exists(s.orders, o) && !op.Reserve?
    requires s.orders[o].lock == Some(if op.Release? then Cancelling else Shipping)
    requires multiset(ids) == multiset(Uuids(s.orders[o].row.items)) && Accepts(s.table, op, ids)
    ensures var e := CallStep(o, op, ids);
            && Enabled(s, e) && CanMove(s.orders[o], e)
            && Apply(s, e) == s.(orders := s.orders[o := Stored(s.orders[o].row, Some(CallHolder(op)))],
                                 table := Updated(s.table, op, ids), ledger := Booked(s.ledger, o, s.orders[o], e))
  {
    if op.Release? {
      ReleaseMoves(s, o, ids);
    } else {
      CommitMoves(s, o, ids);
    }
  }

  lemma ReleaseMoves(s: State, o: Uuid, ids: seq<Uuid>)
    requires Exists(s.orders, o) && s.orders[o].lock == Some(Cancelling)
    requires multiset(ids) == multiset(Uuids(s.orders[o].row.items)) && Accepts(s.table, Release, ids)
    ensures var e := ReleaseParts(o, ids);
            && Enabled(s, e) && CanMove(s.orders[o], e)
            && Apply(s, e) == s.(orders := s.orders[o := Stored(s.orders[o].row, Some(Released))],
                                 table := Updated(s.table, Release, ids), ledger := Booked(s.ledger, o, s.orders[o], e))
  {
  }

  lemma CommitMoves(s: State, o: Uuid, ids: seq<Uuid>)
    requires Exists(s.orders, o) && s.orders[o].lock == Some(Shipping)
    requires multiset(ids) == multiset(Uuids(s.orders[o].row.items)) && Accepts(s.table, Commit, ids)
    ensures var e := CommitParts(o, ids);
            && Enabled(s, e) && CanMove(s.orders[o], e)
            && Apply(s, e) == s.(orders := s.orders[o := Stored(s.orders[o].row, Some(Committed))],
                                 table := Updated(s.table, Commit, ids), ledger := Booked(s.ledger, o, s.orders[o], e))
  {
  }

  function CallHolder(op: PartOp): Holder {
    if op.Release? then Released else Committed
  }

  /** The course of a Cancel or a handler that holds the lock. */
  function CallCourse(before: Course, o: Uuid, op: PartOp, ids: seq<Uuid>, accepted: bool, lost: bool): Course {
    if !accepted then Then(before, Abort(o))
    else if lost then Then(Then(before, CallStep(o, op, ids)), Abort(o))
    else Then(Then(before, CallStep(o, op, ids)), if op.Release? then CommitCancel(o) else CommitShip(o))
  }

  class Service {
    var orders: map<Uuid, OrderState>
    var itemRows: map<Uuid, seq<ItemRecord>>
    const inventory: Repository
    var paid: seq<Uuid>
    var shipped: seq<Uuid>
    ghost var orphans: multiset<Orphan>
    ghost var ledger: Ledger
    ghost const catalogue: Table
    ghost var course: Course           // everything the service has done since it started

    ghost function Snapshot(): State
      reads this, inventory
    {
      State(orders, inventory.table, paid, shipped, orphans, ledger)
    }

    /** The service stands where the course ends. */
    ghost predicate Follows(c: Course)
      reads this, inventory
    {
      Possible(c) && Snapshot() == End(c)
    }

    /** Where the service stands is explained by what it has done since it started on a sound catalogue. */
    ghost predicate Valid()
      reads this, inventory
    {
      && Follows(course) && Start(course) == Initial(catalogue) && SoundTable(catalogue)
      && RowsStored(orders, itemRows)
    }

    constructor (inventory: Repository)
      requires SoundTable(inventory.table)
      ensures Valid() && this.inventory == inventory && catalogue == inventory.table
      ensures Snapshot() == Initial(inventory.table) && course == Begin(Initial(inventory.table))
    {
      this.inventory, catalogue := inventory, inventory.table;
      orders, itemRows, paid, shipped := map[], map[], [], [];
      orphans, ledger := multiset{}, EmptyLedger();
      course := Begin(Initial(inventory.table));
    }

    /**
     * Any sequence of calls is one run of the saga machine from the empty factory, so everything proved about all
     * runs holds of the service at all times.
     */
    lemma ServiceRuns()
      requires Valid()
      ensures Runs(Initial(catalogue), Steps(course)) && Exec(Initial(catalogue), Steps(course)) == Snapshot()
      ensures Inv(catalogue, Snapshot())
    {
      CourseIsRun(course);
      InvRun(catalogue, Steps(course));
    }

    /** In particular every order has items. */
    lemma ItemsPresent(o: Uuid)
      requires Valid() && Exists(orders, o)
      ensures orders[o].row.items != []
    {
      ServiceRuns();
      assert OrderOk(catalogue, ledger, o, orders[o]);
      UuidsByIndex(orders[o].row.items);
    }

    // ---- one step each ----

    /** GetForUpdate and the status check of one request. */
    method Lock(o: Uuid, holder: Holder, ghost e: Event, ghost before: Course)
        returns (ghost c: Course)
      requires Exists(orders, o) && orders[o].lock.None? && Follows(before)
      requires var status := orders[o].row.status;
               || (holder.Paying? && e == LockForPay(o, holder.paidBy) && status.PendingPayment?)
               || (holder.Cancelling? && e == LockForCancel(o) && status.PendingPayment?)
               || (holder.Shipping? && e.LockForShip? && Subject(Snapshot(), e) == Some(o) && !status.Assembled?)
      modifies this`orders
      ensures Follows(c) && Start(c) == Start(before) && c == Then(before, e)
      ensures orders == old(orders)[o := Stored(old(orders)[o].row, Some(holder))]
      ensures paid == old(paid) && shipped == old(shipped)
    {
      orders := orders[o := orders[o].(lock := Some(holder))];
      Advance(before, old(Snapshot()), e, Snapshot());
      c := Then(before, e);
    }

    /** PayOrder succeeded. */
    method RecordCharge(o: Uuid, m: PaymentMethod, tx: Uuid, ghost before: Course)
        returns (ghost c: Course)
      requires Exists(orders, o) && orders[o].lock == Some(Paying(m)) && Follows(before)
      modifies this`orders, this`ledger
      ensures Follows(c) && Start(c) == Start(before) && c == Then(before, Charge(o, tx))
      ensures orders == old(orders)[o := Stored(old(orders)[o].row, Some(Charged(m, tx)))]
      ensures paid == old(paid) && shipped == old(shipped)
    {
      ledger := Booked(ledger, o, orders[o], Charge(o, tx));
      orders := orders[o := orders[o].(lock := Some(Charged(m, tx)))];
      Advance(before, old(Snapshot()), Charge(o, tx), Snapshot());
      c := Then(before, Charge(o, tx));
    }

    /** ProduceOrderPaid was acknowledged. */
    method PublishPaid(o: Uuid, m: PaymentMethod, tx: Uuid, ghost before: Course)
        returns (ghost c: Course)
      requires Exists(orders, o) && orders[o].lock == Some(Charged(m, tx)) && Follows(before)
      modifies this`orders, this`paid
      ensures Follows(c) && Start(c) == Start(before) && c == Then(before, Publish(o))
      ensures orders == old(orders)[o := Stored(old(orders)[o].row, Some(Published(m, tx)))]
      ensures paid == old(paid) + [o] && shipped == old(shipped)
    {
      paid := paid + [o];
      orders := orders[o := orders[o].(lock := Some(Published(m, tx)))];
      Advance(before, old(Snapshot()), Publish(o), Snapshot());
      c := Then(before, Publish(o));
    }

    /** Update and COMMIT: status and payment columns are written, items are not. */
    method CommitRow(o: Uuid, status: Status, transaction: Option<Uuid>, payment: Option<PaymentMethod>,
                     ghost e: Event, ghost before: Course)
        returns (ghost c: Course)
      requires Exists(orders, o) && orders[o].lock.Some? && Follows(before)
      requires var row, h := orders[o].row, orders[o].lock.value;
               if e == CommitPay(o)
               then h.Published? && status.Paid? && transaction == Some(h.tx) && payment == Some(h.paidBy)
               else && transaction == row.transaction && payment == row.payment
                    && ((e == CommitCancel(o) && h.Released? && status.Cancelled?)
                        || (e == CommitShip(o) && h.Committed? && status.Assembled?))
      modifies this`orders
      ensures Follows(c) && Start(c) == Start(before) && c == Then(before, e)
      ensures orders == old(orders)[o := Stored(Order(old(orders)[o].row.items, status, transaction, payment), None)]
      ensures paid == old(paid) && shipped == old(shipped)
    {
      orders := orders[o := Stored(Order(orders[o].row.items, status, transaction, payment), None)];
      Advance(before, old(Snapshot()), e, Snapshot());
      c := Then(before, e);
    }

    /** The transaction of the lock holder rolls back. */
    method Rollback(o: Uuid, ghost before: Course)
        returns (ghost c: Course)
      requires Exists(orders, o) && orders[o].lock.Some? && Follows(before)
      modifies this`orders, this`ledger, this`orphans
      ensures Follows(c) && Start(c) == Start(before) && c == Then(before, Abort(o))
      ensures orders == old(orders)[o := Stored(old(orders)[o].row, None)]
      ensures paid == old(paid) && shipped == old(shipped)
    {
      ledger := Booked(ledger, o, orders[o], Abort(o));
      orphans := OrphansAfter(orphans, o, orders[o], Abort(o));
      orders := orders[o := orders[o].(lock := None)];
      Advance(before, old(Snapshot()), Abort(o), Snapshot());
      c := Then(before, Abort(o));
    }

    /** The lock holder learns that its call was accepted. */
    method CallAccepted(o: Uuid, op: PartOp, ghost ids: seq<Uuid>, ghost before: Course) returns (ghost c: Course)
      requires Exists(orders, o) && orders[o].lock == Some(if op.Release? then Cancelling else Shipping) && !op.Reserve?
      requires Possible(before) && Snapshot() == End(before).(table := Updated(End(before).table, op, ids))
      requires multiset(ids) == multiset(Uuids(orders[o].row.items)) && Accepts(End(before).table, op, ids)
      modifies this`orders, this`ledger
      ensures Follows(c) && Start(c) == Start(before) && c == Then(before, CallStep(o, op, ids))
      ensures orders == old(orders)[o := Stored(old(orders)[o].row, Some(CallHolder(op)))]
    {
      CallMoves(End(before), o, op, ids);
      ledger := Booked(ledger, o, orders[o], CallStep(o, op, ids));
      orders := orders[o := Stored(orders[o].row, Some(CallHolder(op)))];
      Advance(before, End(before), CallStep(o, op, ids), Snapshot());
      c := Then(before, CallStep(o, op, ids));
    }

    /** ReleaseParts or CommitParts for the items as their rows happen to come back. */
    method CallInventory(o: Uuid, op: PartOp, records: seq<ItemRecord>, ghost before: Course)
        returns (err: Option<Error>, ghost c: Course)
      requires Exists(orders, o) && orders[o].row.items != [] && !op.Reserve?
      requires multiset(records) == multiset(Records(o, orders[o].row.items))
      requires orders[o].lock == Some(if op.Release? then Cancelling else Shipping) && Follows(before)
      modifies this`orders, this`ledger, inventory
      ensures Called(old(inventory.table), op, old(orders)[o].row.items, Ids(records), err, inventory.table)
      ensures Follows(c) && Start(c) == Start(before)
      ensures c == if err.None? then Then(before, CallStep(o, op, Ids(records))) else before
      ensures var holder := if op.Release? then Released else Committed;
              orders == if err.Some? then old(orders) else old(orders)[o := Stored(old(orders)[o].row, Some(holder))]
      ensures paid == old(paid) && shipped == old(shipped)
    {
      var rows := ToItems(records);
      var ids := ItemsUuids(rows);
      FetchedIds(o, orders[o].row.items, records);
      PermutedBatch(inventory.table, op, ids, Uuids(orders[o].row.items));
      ghost var targets;
      err, targets := inventory.ChangeParts(op, ids);
      c := before;
      if err.None? {
        c := CallAccepted(o, op, ids, before);
      }
    }

    // ---- the requests ----

    /**
     * Pay. `charge` is the answer of the payment service, None when it did not charge; `loss` says where the
     * transaction is lost afterwards, if it is. The message is in the log even when the transaction is lost at its
     * commit.
     */
    method Pay(o: Uuid, paymentMethod: Option<PaymentMethod>, charge: Option<Uuid>, loss: Option<PayLoss>)
        returns (r: Result<Uuid>)
      requires Valid() && (Exists(orders, o) ==> orders[o].lock.None?)
      modifies this
      ensures Valid()
      ensures var stored := o in old(orders) && old(orders)[o].Stored?;
              var payable := paymentMethod.Some? && stored && old(orders)[o].row.status == PendingPayment;
              && (r == Err(InvalidPaymentMethod) <==> paymentMethod.None?)
              && (r == Err(OrderNotFound) <==> paymentMethod.Some? && !stored)
              && (r == Err(InvalidOrderStatus) <==>
                    paymentMethod.Some? && stored && old(orders)[o].row.status != PendingPayment)
              && (r == Err(PaymentFailed) <==> payable && charge.None?)
              && (r == Err(StorageFailed) <==> payable && charge.Some? && loss.Some?)
              && (r.Ok? <==> payable && charge.Some? && loss.None?)
              && course == if !payable then old(course)
                           else
                             var locked := Then(old(course), LockForPay(o, paymentMethod.value));
                             if charge.None? then Then(locked, Abort(o)) else PayCourse(locked, o, charge.value, loss)
      ensures r.Ok? ==> r.value == charge.value
      ensures r.Err? ==> orders == old(orders)
      ensures r.Ok? ==>
        orders == old(orders)[o := Stored(Order(old(orders)[o].row.items, Paid, charge, paymentMethod), None)]
      ensures paid == old(paid) + if r.Ok? || (r.error.StorageFailed? && loss == Some(AtCommit)) then [o] else []
      ensures shipped == old(shipped)
    {
      if paymentMethod.None? {
        return Err(InvalidPaymentMethod);
      }
      if !Exists(orders, o) {
        return Err(OrderNotFound);
      }
      if !orders[o].row.status.PendingPayment? {
        return Err(InvalidOrderStatus);
      }
      ghost var c;
      r, c := LockAndPay(o, paymentMethod.value, charge, loss, course);
      course := c;
      Restored(old(orders), o);
      RowsKept(old(orders), itemRows, o, orders[o].row);
    }

    /** Pay, once the status has been found in order. */
    method LockAndPay(o: Uuid, m: PaymentMethod, charge: Option<Uuid>, loss: Option<PayLoss>, ghost before: Course)
        returns (r: Result<Uuid>, ghost c: Course)
      requires Exists(orders, o) && orders[o].lock.None? && orders[o].row.status.PendingPayment? && Follows(before)
      modifies this`orders, this`paid, this`ledger, this`orphans
      ensures Follows(c) && Start(c) == Start(before)
      ensures c == if charge.None? then Then(Then(before, LockForPay(o, m)), Abort(o))
                   else PayCourse(Then(before, LockForPay(o, m)), o, charge.value, loss)
      ensures r == if charge.None? then Err(PaymentFailed) else if loss.Some? then Err(StorageFailed)
                   else Ok(charge.value)
      ensures var row := old(orders)[o].row;
              orders == old(orders)[o := Stored(if r.Ok? then Order(row.items, Paid, charge, Some(m)) else row, None)]
      ensures paid == old(paid) + if charge.Some? && (loss.None? || loss.value.AtCommit?) then [o] else []
    {
      c := Lock(o, Paying(m), LockForPay(o, m), before);
      ghost var locked := orders[o];
      if charge.None? {
        c := Rollback(o, c);
        r := Err(PaymentFailed);
      } else {
        r, c := FinishPay(o, m, charge.value, loss, c);
      }
      Twice(old(orders), o, locked, orders[o]);
    }

    /** The rest of Pay, once the lock is held and the payment service has charged. */
    method FinishPay(o: Uuid, m: PaymentMethod, tx: Uuid, loss: Option<PayLoss>, ghost before: Course)
        returns (r: Result<Uuid>, ghost c: Course)
      requires Exists(orders, o) && orders[o].lock == Some(Paying(m)) && Follows(before)
      modifies this`orders, this`paid, this`ledger, this`orphans
      ensures Follows(c) && Start(c) == Start(before) && c == PayCourse(before, o, tx, loss)
      ensures r == if loss.Some? then Err(StorageFailed) else Ok(tx)
      ensures var row := old(orders)[o].row;
              orders == old(orders)[o := Stored(if r.Ok? then Order(row.items, Paid, Some(tx), Some(m)) else row, None)]
      ensures paid == old(paid) + if loss.None? || loss.value.AtCommit? then [o] else []
      ensures shipped == old(shipped)
    {
      c := RecordCharge(o, m, tx, before);
      ghost var charged := orders[o];
      if loss.Some? && !loss.value.AtCommit? {
        c := Rollback(o, c);
        Twice(old(orders), o, charged, orders[o]);
        return Err(StorageFailed), c;
      }
      c := PublishAndCommit(o, m, tx, loss.Some?, c);
      Twice(old(orders), o, charged, orders[o]);
      r := if loss.Some? then Err(StorageFailed) else Ok(tx);
    }

    /** The end of Pay: the message first, the commit after it. */
    method PublishAndCommit(o: Uuid, m: PaymentMethod, tx: Uuid, lost: bool, ghost before: Course)
        returns (ghost c: Course)
      requires Exists(orders, o) && orders[o].lock == Some(Charged(m, tx)) && Follows(before)
      modifies this`orders, this`paid, this`ledger, this`orphans
      ensures Follows(c) && Start(c) == Start(before)
      ensures c == Then(Then(before, Publish(o)), if lost then Abort(o) else CommitPay(o))
      ensures var row := old(orders)[o].row;
              orders == old(orders)[o := Stored(if lost then row else Order(row.items, Paid, Some(tx), Some(m)), None)]
      ensures paid == old(paid) + [o] && shipped == old(shipped)
    {
      c := PublishPaid(o, m, tx, before);
      ghost var published := orders[o];
      if lost {
        c := Rollback(o, c);
      } else {
        c := CommitRow(o, Status.Paid, Some(tx), Some(m), CommitPay(o), c);
      }
      Twice(old(orders), o, published, orders[o]);
    }

    /**
     * The common tail of Cancel and of the handler: call the inventory for the items, then write the new status;
     * the transaction may still be lost after the call, which then stands.
     */
    method CallAndWrite(o: Uuid, op: PartOp, records: seq<ItemRecord>, lost: bool, ghost before: Course)
        returns (r: Result<()>, ghost err: Option<Error>, ghost c: Course)
      requires Exists(orders, o) && orders[o].row.items != [] && !op.Reserve?
      requires multiset(records) == multiset(Records(o, orders[o].row.items))
      requires orders[o].lock == Some(if op.Release? then Cancelling else Shipping) && Follows(before)
      modifies this`orders, this`ledger, this`orphans, inventory
      ensures Called(old(inventory.table), op, old(orders)[o].row.items, Ids(records), err, inventory.table)
      ensures r == CallAnswer(err, lost)
      ensures Follows(c) && Start(c) == Start(before) && c == CallCourse(before, o, op, Ids(records), err.None?, lost)
      ensures var row, done := old(orders)[o].row, if op.Release? then Cancelled else Assembled;
              orders == old(orders)[o := Stored(if r.Ok? then row.(status := done) else row, None)]
      ensures paid == old(paid) && shipped == old(shipped)
    {
      var failure;
      failure, c := CallInventory(o, op, records, before);
      err := failure;
      ghost var called := orders[o];
      r, c := Conclude(o, op, failure, lost, c);
      Twice(old(orders), o, called, orders[o]);
    }

    /** The answer of the inventory decides between rolling back and writing. */
    method Conclude(o: Uuid, op: PartOp, err: Option<Error>, lost: bool, ghost before: Course)
        returns (r: Result<()>, ghost c: Course)
      requires Exists(orders, o) && orders[o].lock.Some? && !op.Reserve? && Follows(before)
      requires err.None? ==> orders[o].lock == Some(if op.Release? then Released else Committed)
      modifies this`orders, this`ledger, this`orphans
      ensures r == CallAnswer(err, lost) && Follows(c) && Start(c) == Start(before)
      ensures c == Then(before, if r.Err? then Abort(o) else if op.Release? then CommitCancel(o) else CommitShip(o))
      ensures var row, done := old(orders)[o].row, if op.Release? then Cancelled else Assembled;
              orders == old(orders)[o := Stored(if r.Ok? then row.(status := done) else row, None)]
      ensures paid == old(paid) && shipped == old(shipped)
    {
      var row := orders[o].row;
      if err.Some? {
        c := Rollback(o, before);
        r := Err(InventoryError(err.value));
      } else if lost {
        c := Rollback(o, before);
        r := Err(StorageFailed);
      } else if op.Release? {
        c := CommitRow(o, Cancelled, row.transaction, row.payment, CommitCancel(o), before);
        r := Ok(());
      } else {
        c := CommitRow(o, Assembled, row.transaction, row.payment, CommitShip(o), before);
        r := Ok(());
      }
    }

    /** Cancel and the handler, once the status has been found in order. */
    method LockAndCall(o: Uuid, op: PartOp, ghost e: Event, records: seq<ItemRecord>, lost: bool, ghost before: Course)
        returns (r: Result<()>, ghost err: Option<Error>, ghost c: Course)
      requires Exists(orders, o) && orders[o].lock.None? && orders[o].row.items != [] && !op.Reserve? && Follows(before)
      requires multiset(records) == multiset(Records(o, orders[o].row.items))
      requires if op.Release? then e == LockForCancel(o) && orders[o].row.status.PendingPayment?
               else e.LockForShip? && Subject(Snapshot(), e) == Some(o) && !orders[o].row.status.Assembled?
      modifies this`orders, this`ledger, this`orphans, inventory
      ensures Called(old(inventory.table), op, old(orders)[o].row.items, Ids(records), err, inventory.table)
      ensures r == CallAnswer(err, lost)
      ensures Follows(c) && Start(c) == Start(before)
      ensures c == CallCourse(Then(before, e), o, op, Ids(records), err.None?, lost)
      ensures var row, done := old(orders)[o].row, if op.Release? then Cancelled else Assembled;
              orders == old(orders)[o := Stored(if r.Ok? then row.(status := done) else row, None)]
    {
      c := Lock(o, if op.Release? then Cancelling else Shipping, e, before);
      ghost var locked := orders[o];
      r, err, c := CallAndWrite(o, op, records, lost, c);
      Twice(old(orders), o, locked, orders[o]);
    }

    /** The same, on the books of the service. */
    method ChangeOrder(o: Uuid, op: PartOp, ghost e: Event, records: seq<ItemRecord>, lost: bool)
        returns (r: Result<()>, ghost err: Option<Error>)
      requires Valid() && Exists(orders, o) && orders[o].lock.None? && Fetched(itemRows, o, records) && !op.Reserve?
      requires if op.Release? then e == LockForCancel(o) && orders[o].row.status.PendingPayment?
               else e.LockForShip? && Subject(Snapshot(), e) == Some(o) && !orders[o].row.status.Assembled?
      modifies this`orders, this`ledger, this`orphans, this`course, inventory
      ensures Valid() && course == CallCourse(Then(old(course), e), o, op, Ids(records), err.None?, lost)
      ensures Called(old(inventory.table), op, old(orders)[o].row.items, Ids(records), err, inventory.table)
      ensures r == CallAnswer(err, lost)
      ensures var row, done := old(orders)[o].row, if op.Release? then Cancelled else Assembled;
              orders == if r.Ok? then old(orders)[o := Stored(row.(status := done), None)] else old(orders)
    {
      ItemsPresent(o);
      ghost var c;
      r, err, c := LockAndCall(o, op, e, records, lost, course);
      course := c;
      Restored(old(orders), o);
      RowsKept(old(orders), itemRows, o, orders[o].row);
    }

    /** Cancel. `records` are the item rows as they come back. */
    method Cancel(o: Uuid, records: seq<ItemRecord>, lost: bool) returns (r: Result<()>)
      requires Valid() && (Exists(orders, o) ==> orders[o].lock.None? && Fetched(itemRows, o, records))
      modifies this`orders, this`ledger, this`orphans, this`course, inventory
      ensures Valid()
      ensures r == Err(OrderNotFound) <==> !(o in old(orders) && old(orders)[o].Stored?)
      ensures r == Err(InvalidOrderStatus) <==>
        o in old(orders) && old(orders)[o].Stored? && old(orders)[o].row.status != PendingPayment
      ensures o in old(orders) && old(orders)[o].Stored? && old(orders)[o].row.status == PendingPayment ==>
        var t, ids := old(inventory.table), Uuids(old(orders)[o].row.items);
        && (r.Ok? <==> Accepts(t, Release, ids) && !lost)
        && (r == Err(StorageFailed) <==> Accepts(t, Release, ids) && lost)
        && (forall e :: r == Err(InventoryError(e)) <==> Outcome(t, Release, Ids(records)) == Some(e))
        && inventory.table == Batch(t, Release, ids)
        && course == CallCourse(Then(old(course), LockForCancel(o)), o, Release, Ids(records),
                                Accepts(t, Release, ids), lost)
      ensures r == Err(OrderNotFound) || r == Err(InvalidOrderStatus) ==>
        Snapshot() == old(Snapshot()) && course == old(course)
      ensures r.Err? ==> orders == old(orders)
      ensures r.Ok? ==> orders == old(orders)[o := Stored(old(orders)[o].row.(status := Cancelled), None)]
    {
      if !Exists(orders, o) {
        return Err(OrderNotFound);
      }
      if !orders[o].row.status.PendingPayment? {
        return Err(InvalidOrderStatus);
      }
      ghost var err;
      r, err := ChangeOrder(o, Release, LockForCancel(o), records, lost);
      AnswerExact(old(inventory.table), Release, old(orders)[o].row.items, Ids(records), err, inventory.table, lost);
    }

    /** ShipAssembledHandler, for the message at an offset of the ship-assembled log. */
    method ShipAssembledHandler(offset: nat, records: seq<ItemRecord>, lost: bool) returns (r: Result<()>)
      requires Valid() && offset < |shipped|
      requires var o := shipped[offset];
               Exists(orders, o) ==> orders[o].lock.None? && Fetched(itemRows, o, records)
      modifies this`orders, this`ledger, this`orphans, this`course, inventory
      ensures Valid()
      ensures var o := shipped[offset];
              var stored := o in old(orders) && old(orders)[o].Stored?;
              var assembled := stored && old(orders)[o].row.status == Assembled;
              && (r == Err(OrderNotFound) <==> !stored)
              && (r == Ok(()) && orders == old(orders) <==> assembled)
              && (!stored || assembled ==> Snapshot() == old(Snapshot()) && course == old(course))
      ensures var o := shipped[offset];
              o in old(orders) && old(orders)[o].Stored? && old(orders)[o].row.status != Assembled ==>
                var t, ids := old(inventory.table), Uuids(old(orders)[o].row.items);
                && (r.Ok? <==> Accepts(t, Commit, ids) && !lost)
                && (r == Err(StorageFailed) <==> Accepts(t, Commit, ids) && lost)
                && (forall e :: r == Err(InventoryError(e)) <==> Outcome(t, Commit, Ids(records)) == Some(e))
                && inventory.table == Batch(t, Commit, ids)
                && (r.Ok? ==> orders == old(orders)[o := Stored(old(orders)[o].row.(status := Assembled), None)])
                && course == CallCourse(Then(old(course), LockForShip(offset)), o, Commit, Ids(records),
                                        Accepts(t, Commit, ids), lost)
      ensures r.Err? ==> orders == old(orders)
    {
      r := ShipOrder(shipped[offset], offset, records, lost);
    }

    /** The transaction of the handler. */
    method ShipOrder(o: Uuid, ghost offset: nat, records: seq<ItemRecord>, lost: bool) returns (r: Result<()>)
      requires Valid() && offset < |shipped| && shipped[offset] == o
      requires Exists(orders, o) ==> orders[o].lock.None? && Fetched(itemRows, o, records)
      modifies this`orders, this`ledger, this`orphans, this`course, inventory
      ensures Valid()
      ensures var stored := o in old(orders) && old(orders)[o].Stored?;
              var assembled := stored && old(orders)[o].row.status == Assembled;
              && (r == Err(OrderNotFound) <==> !stored)
              && (r == Ok(()) && orders == old(orders) <==> assembled)
              && (!stored || assembled ==> Snapshot() == old(Snapshot()) && course == old(course))
      ensures o in old(orders) && old(orders)[o].Stored? && old(orders)[o].row.status != Assembled ==>
        var t, ids := old(inventory.table), Uuids(old(orders)[o].row.items);
        && (r.Ok? <==> Accepts(t, Commit, ids) && !lost)
        && (r == Err(StorageFailed) <==> Accepts(t, Commit, ids) && lost)
        && (forall e :: r == Err(InventoryError(e)) <==> Outcome(t, Commit, Ids(records)) == Some(e))
        && inventory.table == Batch(t, Commit, ids)
        && (r.Ok? ==> orders == old(orders)[o := Stored(old(orders)[o].row.(status := Assembled), None)])
        && course == CallCourse(Then(old(course), LockForShip(offset)), o, Commit, Ids(records),
                                Accepts(t, Commit, ids), lost)
      ensures r.Err? ==> orders == old(orders)
    {
      if !Exists(orders, o) {
        return Err(OrderNotFound);
      }
      if orders[o].row.status.Assembled? {
        return Ok(());
      }
      ghost var err;
      r, err := ChangeOrder(o, Commit, LockForShip(offset), records, lost);
      AnswerExact(old(inventory.table), Commit, old(orders)[o].row.items, Ids(records), err, inventory.table, lost);
    }

    /**
     * OrderPaidHandler with Assemble: a message in order.paid is answered by one about the same order. Without an
     * acknowledgement the handler fails, whether or not its message has reached the log.
     */
    method OrderPaidHandler(offset: nat, sending: Sending) returns (r: Result<()>)
      requires Valid() && offset < |paid|
      modifies this
      ensures Valid() && r == if sending.Acknowledged? then Ok(()) else Err(SendFailed)
      ensures course == if sending.Refused? then old(course) else Then(old(course), Assemble(offset))
      ensures shipped == old(shipped) + (if sending.Refused? then [] else [old(paid)[offset]])
      ensures orders == old(orders) && paid == old(paid)
    {
      if !sending.Refused? {
        shipped := shipped + [paid[offset]];
        Advance(course, old(Snapshot()), Assemble(offset), Snapshot());
        course := Then(course, Assemble(offset));
      }
      r := if sending.Acknowledged? then Ok(()) else Err(SendFailed);
    }

    /** The order items of the listed parts, unless one of them is out of stock. */
    method ItemsOf(parts: seq<Part>, ghost ids: seq<Uuid>) returns (items: seq<Item>, inStock: bool)
      requires |parts| == |ids|
      requires forall i :: 0 <= i < |ids| ==>
        ids[i] in inventory.table && parts[i].uuid == ids[i] && parts[i].Value() == inventory.table[ids[i]]
      ensures forall u :: u in ids ==> u in inventory.table
      ensures inStock <==> forall u :: u in ids ==> inventory.table[u].stock > 0
      ensures inStock ==> items == ItemsFor(inventory.table, ids)
    {
      items := [];
      for i := 0 to |parts|
        invariant |items| == i
        invariant forall j :: 0 <= j < i ==> inventory.table[ids[j]].stock > 0
        invariant forall j :: 0 <= j < i ==>
          items[j] == Item(ids[j], inventory.table[ids[j]].partType, inventory.table[ids[j]].price)
      {
        var part := parts[i].Value();
        if part.stock <= 0 {
          assert ids[i] in ids;
          return items, false;
        }
        items := items + [Item(parts[i].uuid, part.partType, part.price)];
      }
      inStock := true;
    }

    /**
     * Create. `id` is the new random uuid; `inserted` says whether the order row could be stored. When it could
     * not, the reservation stays: nothing releases it.
     */
    method Create(authorized: bool, p: OrderParts, id: Uuid, inserted: bool)
        returns (r: Result<Order>)
      requires Valid() && id !in orders
      modifies this, inventory
      ensures Valid()
      ensures var t, failure := old(inventory.table), CreateFailure(authorized, old(inventory.table), p);
              var err := Outcome(t, Reserve, PartUuids(p));
              && r == (if failure.Some? then Err(failure.value)
                       else if err.Some? then Err(InventoryError(err.value))
                       else if !inserted then Err(StorageFailed)
                       else
                         assert forall u :: u in PartUuids(p) ==> u in t;
                         Ok(NewOrder(ItemsFor(t, PartUuids(p)))))
              && inventory.table == (if failure.Some? then t else Batch(t, Reserve, PartUuids(p)))
              && course == if failure.Some? || err.Some? then old(course)
                           else Then(Then(old(course), ReserveParts(id, p)),
                                     if inserted then InsertOrder(id) else InsertFailed(id))
      ensures r.Ok? <==>
        && authorized && Orderable(old(inventory.table), p) && Accepts(old(inventory.table), Reserve, PartUuids(p))
        && (forall u :: u in PartUuids(p) ==> old(inventory.table)[u].stock > 0) && inserted
      ensures orders == if r.Ok? then old(orders)[id := Stored(r.value, None)] else old(orders)
      ensures r.Ok? ==>
        var t, ids := old(inventory.table), PartUuids(p);
        && r.value.status == PendingPayment && r.value.transaction == None && r.value.payment == None
        && |r.value.items| == |ids|
        && forall i :: 0 <= i < |ids| ==> r.value.items[i] == Item(ids[i], t[ids[i]].partType, t[ids[i]].price)
      ensures paid == old(paid) && shipped == old(shipped)
    {
      CreateFailureExact(authorized, inventory.table, p);
      OutcomeExact(inventory.table, Reserve, PartUuids(p));
      if !authorized {
        return Err(Unauthorized);
      }
      var ids := [p.hull, p.engine];
      if p.shield.Some? {
        ids := ids + [p.shield.value];
      }
      if p.weapon.Some? {
        ids := ids + [p.weapon.value];
      }
      assert ids == PartUuids(p);
      var unique := ValidateUniqueUuids(ids);
      if !unique {
        return Err(InvalidPartUuid);
      }
      var items, failure := Examine(p, ids);
      if failure.Some? {
        return Err(failure.value);
      }
      ghost var refusal;
      r, refusal := ReserveAndInsert(p, id, items, inserted);
    }

    /** The read-only part of Create: list the parts, check their stock, validate the ship. */
    method Examine(p: OrderParts, ids: seq<Uuid>) returns (items: seq<Item>, failure: Option<ServiceError>)
      requires ids == PartUuids(p)
      ensures failure == ExamineFailure(inventory.table, p)
      ensures failure.None? ==>
        (forall u :: u in ids ==> u in inventory.table) && items == ItemsFor(inventory.table, ids)
    {
      items := [];
      var parts, err;
      ghost var targets;
      parts, err, targets := inventory.List(Only(ids));
      if err.Some? {
        return items, Some(InventoryError(err.value));
      }
      var inStock;
      items, inStock := ItemsOf(parts, ids);
      if !inStock {
        return items, Some(OutOfStockPart);
      }
      var verdict := ValidateCompatibility(inventory, SlotsOf(p));
      match verdict
      case Rejected(cause) => failure := Some(InventoryError(cause));
      case Panics => failure := Some(ValidationCrashed);
      case Compatible => failure := None;
    }

    /** The effects of Create: reserve, then insert the row with its items. */
    method ReserveAndInsert(p: OrderParts, id: Uuid, items: seq<Item>, inserted: bool)
        returns (r: Result<Order>, ghost refusal: Option<Error>)
      requires Valid() && id !in orders && Orderable(inventory.table, p)
      requires forall u :: u in PartUuids(p) ==> u in inventory.table
      requires items == ItemsFor(inventory.table, PartUuids(p))
      modifies this, inventory
      ensures Valid()
      ensures refusal == Outcome(old(inventory.table), Reserve, PartUuids(p))
      ensures r == if refusal.Some? then Err(InventoryError(refusal.value))
                   else if !inserted then Err(StorageFailed) else Ok(NewOrder(items))
      ensures course == if refusal.Some? then old(course)
                        else Then(Then(old(course), ReserveParts(id, p)),
                                  if inserted then InsertOrder(id) else InsertFailed(id))
      ensures orders == if r.Ok? then old(orders)[id := Stored(NewOrder(items), None)] else old(orders)
      ensures inventory.table == Batch(old(inventory.table), Reserve, PartUuids(p))
      ensures paid == old(paid) && shipped == old(shipped)
    {
      var err;
      ghost var c;
      err, c := ReserveFor(id, p, items);
      refusal := err;
      if err.Some? {
        return Err(InventoryError(err.value)), refusal;
      }
      var order := NewOrder(items);
      Insert(id, order, inserted, c);
      Stepped(old(orders), id, Inserting(items), Stored(order, None));
      r := if inserted then Ok(order) else Err(StorageFailed);
    }

    /** The insert, on the books of the service. */
    method Insert(id: Uuid, order: Order, inserted: bool, ghost before: Course)
      requires id in orders && orders[id].Inserting? && order == NewOrder(orders[id].items) && Follows(before)
      requires Start(before) == Initial(catalogue) && SoundTable(catalogue) && RowsStored(orders, itemRows)
      modifies this`orders, this`itemRows, this`ledger, this`course
      ensures Valid() && course == Then(before, if inserted then InsertOrder(id) else InsertFailed(id))
      ensures orders == if inserted then old(orders)[id := Stored(order, None)] else old(orders) - {id}
    {
      ghost var c := Store(id, order, inserted, before);
      course := c;
      RowsAdded(old(orders), old(itemRows), id, order);
    }

    /** ReserveParts, on the way to an order that is not inserted yet. */
    method ReserveFor(id: Uuid, p: OrderParts, items: seq<Item>) returns (err: Option<Error>, ghost c: Course)
      requires Follows(course) && id !in orders && Orderable(inventory.table, p)
      requires forall u :: u in PartUuids(p) ==> u in inventory.table
      requires items == ItemsFor(inventory.table, PartUuids(p))
      modifies this`orders, inventory
      ensures Follows(c) && Start(c) == Start(course)
      ensures c == if err.Some? then course else Then(course, ReserveParts(id, p))
      ensures err == Outcome(old(inventory.table), Reserve, PartUuids(p))
      ensures orders == if err.Some? then old(orders) else old(orders)[id := Inserting(items)]
      ensures inventory.table == Batch(old(inventory.table), Reserve, PartUuids(p))
    {
      c := course;
      ghost var targets;
      err, targets := inventory.ChangeParts(Reserve, PartUuids(p));
      if err.None? {
        orders := orders[id := Inserting(items)];
        Advance(course, old(Snapshot()), ReserveParts(id, p), Snapshot());
        c := Then(course, ReserveParts(id, p));
      }
    }

    /** orderRepository.Create: the row and its items in one transaction. */
    method Store(id: Uuid, order: Order, inserted: bool, ghost before: Course) returns (ghost c: Course)
      requires id in orders && orders[id].Inserting? && order == NewOrder(orders[id].items) && Follows(before)
      modifies this`orders, this`itemRows, this`ledger
      ensures Follows(c) && Start(c) == Start(before)
      ensures c == Then(before, if inserted then InsertOrder(id) else InsertFailed(id))
      ensures orders == if inserted then old(orders)[id := Stored(order, None)] else old(orders) - {id}
      ensures itemRows == if inserted then old(itemRows)[id := Records(id, order.items)] else old(itemRows)
    {
      if inserted {
        orders := orders[id := Stored(order, None)];
        var records := ToRecords(id, order.items);
        itemRows := itemRows[id := records];
        Advance(before, old(Snapshot()), InsertOrder(id), Snapshot());
        c := Then(before, InsertOrder(id));
      } else {
        ledger := Booked(ledger, id, orders[id], InsertFailed(id));
        orders := orders - {id};
        Advance(before, old(Snapshot()), InsertFailed(id), Snapshot());
        c := Then(before, InsertFailed(id));
      }
    }

    /** GetOrder: the requested parts and the total, from the item rows in whatever order they come. */
    method Get(o: Uuid, records: seq<ItemRecord>) returns (r: Result<(OrderParts, int)>)
      requires Valid() && (Exists(orders, o) ==> Fetched(itemRows, o, records))
      ensures r == if !Exists(orders, o) then Err(OrderNotFound)
                   else Ok((ByType(Models(records)), Wrap(Sum(orders[o].row.items))))
      ensures r.Ok? ==> forall p :: ReadsBack(orders[o].row.items, p) ==> r.value.0 == p
    {
      if !Exists(orders, o) {
        return Err(OrderNotFound);
      }
      var items := ToItems(records);
      RowsRoundTrip(o, orders[o].row.items, records);
      TotalRoundTrip(orders[o].row.items, items);
      var parts := GetOrderItemByType(items);
      var total := TotalPrice(items);
      r := Ok((parts, total));
    }
  }
}
