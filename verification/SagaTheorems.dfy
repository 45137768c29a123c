/** What the saga guarantees over whole runs. */
module SagaTheorems {
  import opened Prelude
  import opened Parts
  import opened BatchSpec
  import opened Orders
  import opened Saga
  import opened SagaInvariants

  // ---- what the invariant says about one order ----

  lemma RowFacts(t0: Table, s: State, o: Uuid)
    requires Inv(t0, s) && o in s.orders
    ensures ItemsOk(t0, Items(s.orders[o])) && (s.orders[o].Stored? ==> RowOk(s.orders[o].row, s.orders[o].lock))
  {
    assert OrderOk(t0, s.ledger, o, s.orders[o]);
  }

  lemma HandlerFacts(t0: Table, s: State, o: Uuid)
    requires Inv(t0, s) && o in s.orders && s.ledger.publishAborts[o] == 0 && Locked(s.orders[o])
    requires s.orders[o].lock.value.Shipping? || s.orders[o].lock.value.Committed?
    ensures s.orders[o].row.status.Paid?
  {
    assert OrderOk(t0, s.ledger, o, s.orders[o]);
    HandledIsPaid(t0, s, o);
  }

  // ---- every run, faults included ----

  /**
   * Conservation with faults: a part's reservations are the initial ones plus one per order that claims it, plus
   * what failed inserts leaked, minus what lost cancellations and lost or misdirected handlers gave away; its
   * stock is the initial one minus one per ship built, minus what lost handlers burned. And it is never oversold.
   */
  lemma {:induction false} Conservation(t0: Table, es: seq<Event>, u: Uuid)
    requires SoundTable(t0) && Runs(Initial(t0), es) && u in t0
    ensures var s := Exec(Initial(t0), es);
            && u in s.table && Sound(s.table[u])
            && s.table[u].reserved == t0[u].reserved + |Claimants(View(s), u)| + s.ledger.leaked[u] - s.ledger.lost[u]
            && s.table[u].stock == t0[u].stock - |Ships(View(s), u)| - s.ledger.burned[u]
  {
    InvRun(t0, es);
    assert Balanced(t0, Exec(Initial(t0), es), u);
  }

  /**
   * Bounded duplication: the charges for an order exceed the one it shows by exactly the Pays lost after charging or
   * charged late, its part commits exceed the one that assembled it by exactly the handlers lost after committing or
   * committed late.
   */
  lemma {:induction false} BoundedDuplication(t0: Table, es: seq<Event>, o: Uuid)
    requires SoundTable(t0) && Runs(Initial(t0), es)
    ensures var s := Exec(Initial(t0), es);
            && |ReceiptsOf(s.ledger.receipts, o)| ==
               s.ledger.payAborts[o] + One(o in s.orders && Seen(s.orders[o]).transaction.Some?)
            && s.ledger.commits[o] == s.ledger.shipAborts[o] + One(o in s.orders && Seen(s.orders[o]).status.Assembled?)
            && s.ledger.releases[o] <= s.ledger.cancelAborts[o] + 1
  {
    InvRun(t0, es);
    var s := Exec(Initial(t0), es);
    if o in s.orders {
      assert OrderOk(t0, s.ledger, o, s.orders[o]);
    }
  }

  /**
   * Every order of every run has at least a hull and an engine, in whatever order its rows come back, so no request
   * of the saga ever takes the whole-catalogue branch of the inventory.
   */
  lemma {:induction false} SagaNamesItsParts(t0: Table, es: seq<Event>, o: Uuid, rows: seq<Uuid>)
    requires SoundTable(t0) && Runs(Initial(t0), es) && o in Exec(Initial(t0), es).orders
    requires multiset(rows) == multiset(Uuids(Items(Exec(Initial(t0), es).orders[o])))
    ensures |rows| >= 2 && Distinct(rows) && forall u :: u in rows ==> u in t0
  {
    InvRun(t0, es);
    var s := Exec(Initial(t0), es);
    RowFacts(t0, s, o);
    var ids := Uuids(Items(s.orders[o]));
    SamePermutation(rows, ids);
    forall u | u in rows ensures u in t0 {
      RowsAgree(rows, ids, u);
    }
  }

  // ---- every order is the request that created it ----

  /** The request that created order o: the last one under its id. */
  function RequestOf(es: seq<Event>, o: Uuid): Option<OrderParts> {
    if es == [] then None
    else if es[|es| - 1].ReserveParts? && es[|es| - 1].id == o then Some(es[|es| - 1].parts)
    else RequestOf(es[..|es| - 1], o)
  }

  /** The items are those of the request, at catalogue prices, and they read back as the request if anything does. */
  ghost predicate MadeFrom(t0: Table, items: seq<Item>, p: OrderParts) {
    && (forall u :: u in PartUuids(p) ==> u in t0)
    && items == ItemsFor(t0, PartUuids(p))
    && (ReadsBack(items, p) <==> NilFits(t0, p))
  }

  lemma SameCatalogue(t0: Table, t: Table, p: OrderParts)
    requires TableOk(t0, t) && Orderable(t, p)
    ensures (forall u :: u in PartUuids(p) ==> u in t) && MadeFrom(t0, ItemsFor(t, PartUuids(p)), p)
  {
    CreateGetRoundTrip(t, p);
    assert forall u :: u in t0 ==> SameIdentity(t0[u], t[u]);
    assert NilFits(t0, p) <==> NilFits(t, p);
  }

  lemma ItemsFixed(s: State, e: Event, o: Uuid)
    requires Enabled(s, e) && o in Apply(s, e).orders && !(e.ReserveParts? && e.id == o)
    ensures o in s.orders && Items(Apply(s, e).orders[o]) == Items(s.orders[o])
  {
    if Subject(s, e) == Some(o) {
      assert !e.InsertFailed?;
    }
  }

  /**
   * Create, then Get, in every run: every order has the items of the request that created it, and whatever has
   * happened to it since, reading its rows back in any order gives that request unless an optional slot was an
   * explicit Nil uuid that the catalogue lists under another type.
   */
  lemma {:induction false} EveryOrderReadsBack(t0: Table, es: seq<Event>, o: Uuid)
    requires SoundTable(t0) && Runs(Initial(t0), es) && o in Exec(Initial(t0), es).orders
    ensures RequestOf(es, o).Some? && MadeFrom(t0, Items(Exec(Initial(t0), es).orders[o]), RequestOf(es, o).value)
  {
    var init, e := es[..|es| - 1], es[|es| - 1];
    var s := Exec(Initial(t0), init);
    if e.ReserveParts? && e.id == o {
      InvRun(t0, init);
      SameCatalogue(t0, s.table, e.parts);
    } else {
      ItemsFixed(s, e, o);
      EveryOrderReadsBack(t0, init, o);
    }
  }

  lemma SameRules(t0: Table, t: Table, p: OrderParts)
    requires TableOk(t0, t)
    ensures Shipworthy(t0, p) <==> Shipworthy(t, p)
    ensures NilHarmless(t0, p) <==> NilHarmless(t, p)
  {
    assert forall u :: u in t0 ==> SameIdentity(t0[u], t[u]);
  }

  /**
   * Every order of every run is a ship that may be built, whatever has happened to the stock since, exactly when no
   * optional slot was an explicit Nil uuid that escaped the checks; always when the catalogue has no Nil part.
   */
  lemma {:induction false} EveryOrderIsShipworthy(t0: Table, es: seq<Event>, o: Uuid)
    requires SoundTable(t0) && Runs(Initial(t0), es) && o in Exec(Initial(t0), es).orders
    ensures RequestOf(es, o).Some?
    ensures Shipworthy(t0, RequestOf(es, o).value) <==> NilHarmless(t0, RequestOf(es, o).value)
    ensures NIL !in t0 ==> Shipworthy(t0, RequestOf(es, o).value)
  {
    var init, e := es[..|es| - 1], es[|es| - 1];
    var s := Exec(Initial(t0), init);
    if e.ReserveParts? && e.id == o {
      InvRun(t0, init);
      OrderableIsShipworthy(s.table, e.parts);
      SameRules(t0, s.table, e.parts);
    } else {
      ItemsFixed(s, e, o);
      EveryOrderIsShipworthy(t0, init, o);
    }
  }

  // ---- when the inventory refuses a request of the saga ----

  lemma PartFacts(t0: Table, s: State, u: Uuid)
    requires Inv(t0, s) && u in t0
    ensures Balanced(t0, s, u) && Sound(s.table[u]) && SameIdentity(t0[u], s.table[u])
  {
  }

  /** A release or commit of readable parts is accepted exactly when each of them has a reservation. */
  lemma ReservationsDecide(t0: Table, s: State, ids: seq<Uuid>, rows: seq<Uuid>, op: PartOp)
    requires Inv(t0, s) && (op.Release? || op.Commit?)
    requires ids != [] && Distinct(ids) && forall u :: u in ids ==> u in t0 && ConversionError(t0[u]).None?
    requires multiset(rows) == multiset(ids)
    ensures Accepts(s.table, op, rows) <==> forall u :: u in ids ==> u in s.table && s.table[u].reserved >= 1
  {
    forall u | u in ids
      ensures u in s.table && ConversionError(s.table[u]).None?
      ensures Refusal(op, s.table[u]).None? <==> s.table[u].reserved >= 1
    {
      PartFacts(t0, s, u);
    }
    PermutedBatch(s.table, op, ids, rows);
  }

  /** A request that holds an order's lock and is about to call the inventory. */
  predicate AboutToCall(s: State, o: Uuid) {
    o in s.orders && Locked(s.orders[o]) && (s.orders[o].lock.value.Cancelling? || s.orders[o].lock.value.Shipping?)
  }

  function CallDue(s: State, o: Uuid): PartOp
    requires AboutToCall(s, o)
  {
    if s.orders[o].lock.value.Cancelling? then Release else Commit
  }

  /** What is left of part u's reservations: initial ones, claims and leaks together exceed what was given away. */
  ghost predicate StillReserved(t0: Table, s: State, u: Uuid) {
    u in t0 && s.ledger.lost[u] < t0[u].reserved + |Claimants(View(s), u)| + s.ledger.leaked[u]
  }

  lemma StillReservedExact(t0: Table, s: State, u: Uuid)
    requires Inv(t0, s)
    ensures StillReserved(t0, s, u) <==> u in s.table && s.table[u].reserved >= 1
  {
    if u in t0 {
      PartFacts(t0, s, u);
    }
  }

  lemma CallByFigures(t0: Table, s: State, o: Uuid, rows: seq<Uuid>)
    requires Inv(t0, s) && AboutToCall(s, o) && multiset(rows) == multiset(Uuids(s.orders[o].row.items))
    ensures Accepts(s.table, CallDue(s, o), rows) <==>
      forall u :: u in rows ==> u in s.table && s.table[u].reserved >= 1
  {
    var ids := Uuids(s.orders[o].row.items);
    RowFacts(t0, s, o);
    ReservationsDecide(t0, s, ids, rows, CallDue(s, o));
    forall u ensures u in rows <==> u in ids {
      RowsAgree(rows, ids, u);
    }
  }

  lemma {:induction false} CallDecided(t0: Table, s: State, o: Uuid, rows: seq<Uuid>)
    requires Inv(t0, s) && AboutToCall(s, o) && multiset(rows) == multiset(Uuids(s.orders[o].row.items))
    ensures Accepts(s.table, CallDue(s, o), rows) <==> forall u :: u in rows ==> StillReserved(t0, s, u)
    ensures Accepts(s.table, CallDue(s, o), rows) <==>
      forall u :: u in rows ==> u in s.table && s.table[u].reserved >= 1
  {
    CallByFigures(t0, s, o, rows);
    forall u | u in rows ensures StillReserved(t0, s, u) <==> u in s.table && s.table[u].reserved >= 1 {
      StillReservedExact(t0, s, u);
    }
  }

  /**
   * In any run, a Cancel about to release and a handler about to commit are accepted, in whatever order the item rows
   * come back, exactly when every part of the order still has a reservation; and that is so exactly when what faults
   * have given away of the part is less than its initial reservations, claims and leaks together.
   */
  lemma {:induction false} AcceptedExactly(t0: Table, es: seq<Event>, o: Uuid, rows: seq<Uuid>)
    requires SoundTable(t0) && Runs(Initial(t0), es)
    requires var s := Exec(Initial(t0), es);
             AboutToCall(s, o) && multiset(rows) == multiset(Uuids(s.orders[o].row.items))
    ensures var s := Exec(Initial(t0), es);
            && (Accepts(s.table, CallDue(s, o), rows) <==> forall u :: u in rows ==> StillReserved(t0, s, u))
            && (Accepts(s.table, CallDue(s, o), rows) <==>
                  forall u :: u in rows ==> u in s.table && s.table[u].reserved >= 1)
  {
    InvRun(t0, es);
    CallDecided(t0, Exec(Initial(t0), es), o, rows);
  }

  lemma ClaimIsCounted(s: State, o: Uuid, u: Uuid)
    requires o in s.orders && Claims(Seen(s.orders[o]), u)
    ensures |Claimants(View(s), u)| >= 1
  {
    assert View(s)[o] == Seen(s.orders[o]);
    assert |Claimants(View(s), u)| == |Claimants(View(s), u) - {o}| + 1;
  }

  lemma CallerClaims(os: OrderState, u: Uuid)
    requires Locked(os) && RowOk(os.row, os.lock) && u in Uuids(os.row.items)
    requires os.lock.value.Cancelling? || (os.lock.value.Shipping? && !os.row.status.Cancelled?)
    ensures Claims(Seen(os), u)
  {
  }

  /** So an order that still claims its parts is never refused as long as no fault has given away one of them. */
  lemma {:induction false} NeverRefused(t0: Table, es: seq<Event>, o: Uuid, rows: seq<Uuid>)
    requires SoundTable(t0) && Runs(Initial(t0), es)
    requires var s := Exec(Initial(t0), es);
             && AboutToCall(s, o) && multiset(rows) == multiset(Uuids(s.orders[o].row.items))
             && !s.orders[o].row.status.Cancelled? && forall u :: u in rows ==> s.ledger.lost[u] == 0
    ensures Accepts(Exec(Initial(t0), es).table, CallDue(Exec(Initial(t0), es), o), rows)
  {
    InvRun(t0, es);
    var s := Exec(Initial(t0), es);
    RowFacts(t0, s, o);
    forall u | u in rows ensures StillReserved(t0, s, u) {
      RowsAgree(rows, Uuids(s.orders[o].row.items), u);
      CallerClaims(s.orders[o], u);
      ClaimIsCounted(s, o, u);
      assert Sound(t0[u]);
    }
    CallDecided(t0, s, o, rows);
  }

  // ---- status safety ----

  /** The committed status of an order, if its row exists. */
  function StatusOf(s: State, o: Uuid): Option<Status> {
    if o in s.orders && s.orders[o].Stored? then Some(s.orders[o].row.status) else None
  }

  function Extended(h: seq<Status>, now: Option<Status>): seq<Status> {
    if now.None? || (h != [] && h[|h| - 1] == now.value) then h else h + [now.value]
  }

  /** The statuses an order's row has gone through. */
  ghost function History(s: State, es: seq<Event>, o: Uuid): seq<Status>
    requires Runs(s, es)
  {
    Extended(if es == [] then [] else History(s, es[..|es| - 1], o), StatusOf(Exec(s, es), o))
  }

  predicate Lawful(h: seq<Status>) {
    h == [] || h == [PendingPayment] || h == [PendingPayment, Cancelled] || h == [PendingPayment, Paid]
    || h == [PendingPayment, Paid, Assembled]
  }

  predicate LawfulStep(a: Option<Status>, b: Option<Status>) {
    || a == b
    || (a == None && b == Some(PendingPayment))
    || (a == Some(PendingPayment) && (b == Some(Paid) || b == Some(Cancelled)))
    || (a == Some(Paid) && b == Some(Assembled))
  }

  function RowStatus(os: OrderState): Option<Status> {
    if os.Stored? then Some(os.row.status) else None
  }

  lemma OwnStatus(os: OrderState, e: Event)
    requires CanMove(os, e) && !e.InsertFailed? && (os.Stored? ==> RowOk(os.row, os.lock))
    ensures if e.CommitShip? && RowStatus(os) != Some(Paid)
            then RowStatus(os).Some? && !RowStatus(os).value.Assembled? && RowStatus(Move(os, e)) == Some(Assembled)
            else LawfulStep(RowStatus(os), RowStatus(Move(os, e)))
  {
  }

  /** The handler found order o in another status than PAID and assembles it all the same. */
  predicate ShipsUnpaid(s: State, e: Event, o: Uuid) {
    e == CommitShip(o) && StatusOf(s, o) != Some(Paid)
  }

  lemma StatusMove(s: State, e: Event, o: Uuid)
    requires Enabled(s, e)
    requires o in s.orders && s.orders[o].Stored? ==> RowOk(s.orders[o].row, s.orders[o].lock)
    ensures var before, now := StatusOf(s, o), StatusOf(Apply(s, e), o);
            if ShipsUnpaid(s, e, o) then before.Some? && !before.value.Assembled? && now == Some(Assembled)
            else LawfulStep(before, now)
  {
    if Subject(s, e) != Some(o) {
      StatusElsewhere(s, e, o);
    } else {
      OrderAfter(s, e, o);
      if !e.InsertFailed? {
        OwnStatus(s.orders[o], e);
      }
    }
  }

  lemma StatusElsewhere(s: State, e: Event, o: Uuid)
    requires Enabled(s, e) && Subject(s, e) != Some(o)
    ensures StatusOf(Apply(s, e), o) == StatusOf(s, o)
  {
  }

  /** The history is lawful and ends with the present status. */
  predicate Tracks(h: seq<Status>, now: Option<Status>) {
    Lawful(h) && (if now.None? then h == [] else h != [] && h[|h| - 1] == now.value)
  }

  lemma TracksStep(h: seq<Status>, before: Option<Status>, now: Option<Status>)
    requires Tracks(h, before) && LawfulStep(before, now)
    ensures Tracks(Extended(h, now), now)
  {
  }

  lemma OnlyPaidMayFollow(h: seq<Status>, now: Option<Status>)
    requires Tracks(h, now) && now.Some? && !now.value.Assembled?
    ensures Extended(h, Some(Assembled)) == h + [Assembled]
    ensures Lawful(h + [Assembled]) <==> now.value.Paid?
  {
    var longer := h + [Assembled];
    assert longer[|longer| - 1] == Assembled && longer[|longer| - 2] == now.value;
    if h == [PendingPayment, Paid] {
      assert longer == [PendingPayment, Paid, Assembled];
    }
  }

  /** What has gone wrong once is not repaired by going on. */
  lemma UnlawfulStays(h: seq<Status>, now: Option<Status>)
    requires !Lawful(h)
    ensures !Lawful(Extended(h, now))
  {
    if Extended(h, now) != h {
      assert (h + [now.value])[..|h|] == h;
    }
  }

  /** Every CommitShip of order o in the run found its row PAID. */
  ghost predicate ShipsOnlyPaid(s: State, es: seq<Event>, o: Uuid)
    requires Runs(s, es)
  {
    es == [] || (ShipsOnlyPaid(s, es[..|es| - 1], o) && !ShipsUnpaid(Exec(s, es[..|es| - 1]), es[|es| - 1], o))
  }

  lemma HistoryStep(t0: Table, s: State, e: Event, o: Uuid, h: seq<Status>)
    requires Inv(t0, s) && Enabled(s, e) && Tracks(h, StatusOf(s, o))
    ensures var now := StatusOf(Apply(s, e), o);
            if ShipsUnpaid(s, e, o) then !Lawful(Extended(h, now)) else Tracks(Extended(h, now), now)
  {
    if o in s.orders {
      RowFacts(t0, s, o);
    }
    StatusMove(s, e, o);
    if ShipsUnpaid(s, e, o) {
      OnlyPaidMayFollow(h, StatusOf(s, o));
    } else {
      TracksStep(h, StatusOf(s, o), StatusOf(Apply(s, e), o));
    }
  }

  /**
   * Status safety, exactly: in any run, faulty or not, the row of an order goes PENDING_PAYMENT then CANCELLED, or
   * PENDING_PAYMENT then PAID then ASSEMBLED, or part of that way, if and only if every handler that assembled it
   * found it PAID, a test the handler does not make.
   */
  lemma {:induction false} StatusSafetyExact(t0: Table, es: seq<Event>, o: Uuid)
    requires SoundTable(t0) && Runs(Initial(t0), es)
    ensures var h, now := History(Initial(t0), es, o), StatusOf(Exec(Initial(t0), es), o);
            && (Lawful(h) <==> ShipsOnlyPaid(Initial(t0), es, o))
            && (Lawful(h) ==> Tracks(h, now))
  {
    if es != [] {
      var init, e := es[..|es| - 1], es[|es| - 1];
      var s, h := Exec(Initial(t0), init), History(Initial(t0), init, o);
      StatusSafetyExact(t0, init, o);
      if Lawful(h) {
        InvRun(t0, init);
        HistoryStep(t0, s, e, o, h);
      } else {
        UnlawfulStays(h, StatusOf(Apply(s, e), o));
      }
    }
  }

  /** Without a Pay lost after publishing, every handler finds its order PAID. */
  lemma {:induction false} PaidBeforeShipped(t0: Table, es: seq<Event>, o: Uuid)
    requires SoundTable(t0) && Runs(Initial(t0), es)
    requires Exec(Initial(t0), es).ledger.publishAborts[o] == 0
    ensures ShipsOnlyPaid(Initial(t0), es, o)
  {
    if es != [] {
      var init, e := es[..|es| - 1], es[|es| - 1];
      var s := Exec(Initial(t0), init);
      CounterAfter(s, e, o);
      PaidBeforeShipped(t0, init, o);
      if e == CommitShip(o) {
        InvRun(t0, init);
        HandlerFacts(t0, s, o);
      }
    }
  }

  /** So the history of every order for which no Pay was lost after publishing is lawful, in faulty runs too. */
  lemma {:induction false} StatusSafety(t0: Table, es: seq<Event>, o: Uuid)
    requires SoundTable(t0) && Runs(Initial(t0), es)
    requires Exec(Initial(t0), es).ledger.publishAborts[o] == 0
    ensures Tracks(History(Initial(t0), es, o), StatusOf(Exec(Initial(t0), es), o))
  {
    PaidBeforeShipped(t0, es, o);
    StatusSafetyExact(t0, es, o);
  }

  // ---- payment fields in every run ----

  /** An unpaid order that was assembled shows it for good; one that was paid before shows its payment. */
  predicate FieldsTell(os: OrderState, lawful: bool) {
    if lawful then os.Stored? && os.row.status.Assembled? ==> os.row.transaction.Some?
    else os.Stored? && os.row.status.Assembled? && os.row.transaction.None?
  }

  lemma OwnFields(os: OrderState, e: Event, lawful: bool)
    requires CanMove(os, e) && !e.InsertFailed? && (os.Stored? ==> RowOk(os.row, os.lock)) && FieldsTell(os, lawful)
    ensures FieldsTell(Move(os, e), lawful && !(e.CommitShip? && !os.row.status.Paid?))
  {
  }

  lemma OrderElsewhere(s: State, e: Event, o: Uuid)
    requires Enabled(s, e) && Subject(s, e) != Some(o) && o in Apply(s, e).orders
    ensures if o in s.orders then Apply(s, e).orders[o] == s.orders[o] else Apply(s, e).orders[o].Inserting?
  {
  }

  lemma FieldsStep(s: State, e: Event, o: Uuid, lawful: bool)
    requires Enabled(s, e) && (o in s.orders && s.orders[o].Stored? ==> RowOk(s.orders[o].row, s.orders[o].lock))
    requires if o in s.orders then FieldsTell(s.orders[o], lawful) else lawful
    ensures var after := lawful && !ShipsUnpaid(s, e, o);
            if o in Apply(s, e).orders then FieldsTell(Apply(s, e).orders[o], after) else after
  {
    if Subject(s, e) == Some(o) {
      OrderAfter(s, e, o);
      if !e.InsertFailed? {
        OwnFields(s.orders[o], e, lawful);
      }
    } else if o in Apply(s, e).orders {
      OrderElsewhere(s, e, o);
    }
  }

  lemma {:induction false} FieldsRun(t0: Table, es: seq<Event>, o: Uuid)
    requires SoundTable(t0) && Runs(Initial(t0), es)
    ensures var s, lawful := Exec(Initial(t0), es), ShipsOnlyPaid(Initial(t0), es, o);
            if o in s.orders then FieldsTell(s.orders[o], lawful) else lawful
  {
    if es != [] {
      var init, e := es[..|es| - 1], es[|es| - 1];
      FieldsRun(t0, init, o);
      InvRun(t0, init);
      var s := Exec(Initial(t0), init);
      if o in s.orders {
        RowFacts(t0, s, o);
      }
      FieldsStep(s, e, o, ShipsOnlyPaid(Initial(t0), init, o));
    }
  }

  /**
   * Payment fields in every run, faulty or not: transaction and method are set together, belong to a charge of this
   * order, and are set exactly for PAID and ASSEMBLED rows if and only if every handler found the order PAID.
   */
  lemma {:induction false} PaymentFieldsExact(t0: Table, es: seq<Event>, o: Uuid)
    requires SoundTable(t0) && Runs(Initial(t0), es)
    requires o in Exec(Initial(t0), es).orders && Exec(Initial(t0), es).orders[o].Stored?
    ensures var s := Exec(Initial(t0), es);
            var row := s.orders[o].row;
            && (ShipsOnlyPaid(Initial(t0), es, o) <==>
                  (row.transaction.Some? <==> row.status.Paid? || row.status.Assembled?))
            && (row.transaction.Some? <==> row.payment.Some?)
            && (row.transaction.Some? ==>
                  Receipt(o, row.transaction.value, row.payment.value) in ReceiptsOf(s.ledger.receipts, o))
  {
    InvRun(t0, es);
    FieldsRun(t0, es, o);
    var s := Exec(Initial(t0), es);
    RowFacts(t0, s, o);
    assert OrderOk(t0, s.ledger, o, s.orders[o]);
    ShownCharge(s.ledger, o, s.orders[o]);
  }

  lemma ShownCharge(l: Ledger, o: Uuid, os: OrderState)
    requires os.Stored? && RowOk(os.row, os.lock) && ChargesOk(l, o, Seen(os))
    ensures os.row.transaction.Some? && os.row.payment.Some? ==>
      Receipt(o, os.row.transaction.value, os.row.payment.value) in ReceiptsOf(l.receipts, o)
  {
  }

  // ---- clean runs ----

  ghost predicate NoFaults(l: Ledger) {
    && l.payAborts == l.publishAborts == l.cancelAborts == l.shipAborts == multiset{}
    && l.leaked == l.lost == l.burned == multiset{}
  }

  lemma CleanMove(s: State, e: Event)
    requires NoFaults(s.ledger) && Enabled(s, e) && !Faulty(s, e)
    requires e.CommitParts? ==> !s.orders[e.order].row.status.Cancelled?
    ensures NoFaults(Apply(s, e).ledger)
  {
  }

  lemma {:induction false} CleanStep(t0: Table, s: State, e: Event)
    requires Inv(t0, s) && NoFaults(s.ledger) && Enabled(s, e) && !Faulty(s, e)
    ensures NoFaults(Apply(s, e).ledger)
  {
    if e.CommitParts? {
      HandlerFacts(t0, s, e.order);
    }
    CleanMove(s, e);
  }

  lemma {:induction false} CleanRunFacts(t0: Table, es: seq<Event>)
    requires SoundTable(t0) && CleanRun(Initial(t0), es)
    ensures Inv(t0, Exec(Initial(t0), es)) && NoFaults(Exec(Initial(t0), es).ledger)
  {
    InvRun(t0, es);
    if es != [] {
      CleanRunFacts(t0, es[..|es| - 1]);
      CleanStep(t0, Exec(Initial(t0), es[..|es| - 1]), es[|es| - 1]);
    }
  }

  /**
   * Clean conservation: reservations are the initial ones plus one per PENDING_PAYMENT or PAID order with the part,
   * stock is the initial one minus one per ASSEMBLED order with it; an order in flight counts from its remote
   * effect on, and when nothing is in flight these are the statuses of the rows.
   */
  lemma {:induction false} CleanConservation(t0: Table, es: seq<Event>, u: Uuid)
    requires SoundTable(t0) && CleanRun(Initial(t0), es) && u in t0
    ensures var s := Exec(Initial(t0), es);
            && u in s.table
            && s.table[u].reserved == t0[u].reserved + |Claimants(View(s), u)|
            && s.table[u].stock == t0[u].stock - |Ships(View(s), u)|
            && (Quiet(s) ==> forall o :: o in s.orders ==> View(s)[o] == s.orders[o].row)
  {
    CleanRunFacts(t0, es);
    Conservation(t0, es, u);
    if Quiet(Exec(Initial(t0), es)) {
      QuietView(Exec(Initial(t0), es));
    }
  }

  /** In a clean run neither Cancel nor the handler is ever refused by the inventory. */
  lemma {:induction false} CleanNeverRefused(t0: Table, es: seq<Event>, o: Uuid, rows: seq<Uuid>)
    requires SoundTable(t0) && CleanRun(Initial(t0), es)
    requires var s := Exec(Initial(t0), es);
             AboutToCall(s, o) && multiset(rows) == multiset(Uuids(s.orders[o].row.items))
    ensures Accepts(Exec(Initial(t0), es).table, CallDue(Exec(Initial(t0), es), o), rows)
  {
    CleanRunFacts(t0, es);
    var s := Exec(Initial(t0), es);
    RowFacts(t0, s, o);
    if s.orders[o].lock.value.Shipping? {
      HandlerFacts(t0, s, o);
    }
    NeverRefused(t0, es, o, rows);
  }

  lemma PaidItemsCommittable(t0: Table, s: State, o: Uuid)
    requires Inv(t0, s) && SoundTable(t0) && NoFaults(s.ledger)
    requires o in s.orders && s.orders[o].Stored? && s.orders[o].lock.None? && s.orders[o].row.status.Paid?
    ensures Accepts(s.table, Commit, Uuids(s.orders[o].row.items))
  {
    RowFacts(t0, s, o);
    var ids := Uuids(s.orders[o].row.items);
    forall u | u in ids ensures u in s.table && s.table[u].reserved >= 1 {
      PartFacts(t0, s, u);
      ClaimIsCounted(s, o, u);
      assert Sound(t0[u]);
    }
    ReservationsDecide(t0, s, ids, ids, Commit);
  }

  predicate PaidFor(order: Order, o: Uuid, charges: seq<Receipt>) {
    if order.status.Paid? || order.status.Assembled?
    then order.transaction.Some? && order.payment.Some?
         && charges == [Receipt(o, order.transaction.value, order.payment.value)]
    else order.transaction.None? && order.payment.None? && charges == []
  }

  lemma FieldsFromShare(t0: Table, l: Ledger, o: Uuid, os: OrderState)
    requires OrderOk(t0, l, o, os) && l.payAborts[o] == 0
    requires os.Stored? && os.row.status.Assembled? ==> os.row.transaction.Some?
    requires Locked(os) && os.lock.value.Committed? ==> os.row.status.Paid?
    ensures PaidFor(Seen(os), o, ReceiptsOf(l.receipts, o))
  {
  }

  /**
   * Payment fields in clean runs: an order that counts as PAID or ASSEMBLED shows the transaction and the method of
   * its one charge, every other order shows none and was never charged. The ASSEMBLED write-back keeps them.
   */
  lemma {:induction false} PaymentFieldsTrackStatus(t0: Table, es: seq<Event>, o: Uuid)
    requires SoundTable(t0) && CleanRun(Initial(t0), es) && o in Exec(Initial(t0), es).orders
    ensures var s := Exec(Initial(t0), es);
            PaidFor(Seen(s.orders[o]), o, ReceiptsOf(s.ledger.receipts, o))
  {
    CleanRunFacts(t0, es);
    var s := Exec(Initial(t0), es);
    assert OrderOk(t0, s.ledger, o, s.orders[o]) && Provenance(s, o);
    if Locked(s.orders[o]) && s.orders[o].lock.value.Committed? {
      HandlerFacts(t0, s, o);
    }
    FieldsFromShare(t0, s.ledger, o, s.orders[o]);
  }

  // ---- refinement ----

  // The factory as one would describe it: four atomic operations on orders and parts.
  datatype Factory = Factory(orders: map<Uuid, Order>, table: Table)

  datatype Operation =
    | Create(id: Uuid, parts: OrderParts)
    | Pay(order: Uuid, tx: Uuid, paidBy: PaymentMethod)
    | Cancel(order: Uuid)
    | Complete(order: Uuid)
    | Stutter

  predicate Allowed(f: Factory, op: Operation) {
    match op
    case Create(id, p) => id !in f.orders && Orderable(f.table, p) && Accepts(f.table, Reserve, PartUuids(p))
    case Pay(o, _, _) => o in f.orders && f.orders[o].status.PendingPayment?
    case Cancel(o) =>
      o in f.orders && f.orders[o].status.PendingPayment? && Accepts(f.table, Release, Uuids(f.orders[o].items))
    case Complete(o) => o in f.orders && f.orders[o].status.Paid? && Accepts(f.table, Commit, Uuids(f.orders[o].items))
    case Stutter => true
  }

  function Perform(f: Factory, op: Operation): Factory
    requires Allowed(f, op)
  {
    match op
    case Create(id, p) =>
      Factory(f.orders[id := NewOrder(ItemsFor(f.table, PartUuids(p)))], Updated(f.table, Reserve, PartUuids(p)))
    case Pay(o, tx, m) => f.(orders := f.orders[o := Order(f.orders[o].items, Paid, Some(tx), Some(m))])
    case Cancel(o) =>
      Factory(f.orders[o := f.orders[o].(status := Cancelled)], Updated(f.table, Release, Uuids(f.orders[o].items)))
    case Complete(o) =>
      Factory(f.orders[o := f.orders[o].(status := Assembled)], Updated(f.table, Commit, Uuids(f.orders[o].items)))
    case Stutter => f
  }

  ghost predicate Performs(f: Factory, ops: seq<Operation>)
    decreases |ops|, 0
  {
    ops == [] || (Performs(f, ops[..|ops| - 1]) && Allowed(Reached(f, ops[..|ops| - 1]), ops[|ops| - 1]))
  }

  ghost function Reached(f: Factory, ops: seq<Operation>): Factory
    requires Performs(f, ops)
    decreases |ops|, 1
  {
    if ops == [] then f else Perform(Reached(f, ops[..|ops| - 1]), ops[|ops| - 1])
  }

  function Abs(s: State): Factory {
    Factory(View(s), s.table)
  }

  /** A request is its remote effect; deliveries, locks, publications and commits are invisible. */
  function Meaning(s: State, e: Event): Operation {
    match e
    case ReserveParts(id, p) => Create(id, p)
    case Charge(o, tx) =>
      if o in s.orders && Locked(s.orders[o]) && s.orders[o].lock.value.Paying?
      then Pay(o, tx, s.orders[o].lock.value.paidBy) else Stutter
    case ReleaseParts(o, _) => Cancel(o)
    case CommitParts(o, _) => Complete(o)
    case _ => Stutter
  }

  ghost function Meanings(s: State, es: seq<Event>): (ops: seq<Operation>)
    requires Runs(s, es)
    ensures |ops| == |es|
  {
    if es == [] then [] else Meanings(s, es[..|es| - 1]) + [Meaning(Exec(s, es[..|es| - 1]), es[|es| - 1])]
  }

  lemma UpdatedByRows(t: Table, op: PartOp, rows: seq<Uuid>, ids: seq<Uuid>)
    requires multiset(rows) == multiset(ids) && Accepts(t, op, rows)
    ensures Accepts(t, op, ids) && Updated(t, op, rows) == Updated(t, op, ids)
  {
    PermutedBatch(t, op, rows, ids);
  }

  lemma ViewUpdate(s: State, s': State, o: Uuid, os: OrderState)
    requires s'.orders == s.orders[o := os]
    ensures View(s') == View(s)[o := Seen(os)]
  {
  }

  lemma ReleaseRefines(s: State, e: Event)
    requires Enabled(s, e) && e.ReleaseParts? && RowOk(s.orders[e.order].row, s.orders[e.order].lock)
    ensures Allowed(Abs(s), Cancel(e.order)) && Abs(Apply(s, e)) == Perform(Abs(s), Cancel(e.order))
  {
    var os := s.orders[e.order];
    UpdatedByRows(s.table, Release, e.rows, Uuids(os.row.items));
    ViewUpdate(s, Apply(s, e), e.order, Move(os, e));
    assert View(s)[e.order] == os.row;
  }

  lemma CommitRefines(s: State, e: Event)
    requires Enabled(s, e) && e.CommitParts? && s.orders[e.order].row.status.Paid?
    ensures Allowed(Abs(s), Complete(e.order)) && Abs(Apply(s, e)) == Perform(Abs(s), Complete(e.order))
  {
    var os := s.orders[e.order];
    UpdatedByRows(s.table, Commit, e.rows, Uuids(os.row.items));
    ViewUpdate(s, Apply(s, e), e.order, Move(os, e));
    assert View(s)[e.order] == os.row;
  }

  lemma QuietMoveRefines(s: State, e: Event, o: Uuid)
    requires Enabled(s, e) && Subject(s, e) == Some(o) && !e.InsertFailed?
    requires s.orders[o].Stored? ==> RowOk(s.orders[o].row, s.orders[o].lock)
    requires Silent(e) || (e.Abort? && !Faulty(s, e))
    ensures Meaning(s, e) == Stutter && Abs(Apply(s, e)) == Abs(s)
  {
    var os := s.orders[o];
    if Silent(e) {
      SilentMove(s.ledger, o, os, e);
    }
    assert Seen(Move(os, e)) == Seen(os);
    ViewUpdate(s, Apply(s, e), o, Move(os, e));
    assert View(s)[o := Seen(os)] == View(s);
  }

  lemma ChargeRefines(s: State, e: Event)
    requires Enabled(s, e) && e.Charge? && RowOk(s.orders[e.order].row, s.orders[e.order].lock)
    ensures Allowed(Abs(s), Meaning(s, e)) && Abs(Apply(s, e)) == Perform(Abs(s), Meaning(s, e))
  {
    ViewUpdate(s, Apply(s, e), e.order, Move(s.orders[e.order], e));
    assert View(s)[e.order] == s.orders[e.order].row;
  }

  lemma ReserveRefines(s: State, e: Event)
    requires Enabled(s, e) && e.ReserveParts?
    ensures Allowed(Abs(s), Meaning(s, e)) && Abs(Apply(s, e)) == Perform(Abs(s), Meaning(s, e))
  {
    ViewUpdate(s, Apply(s, e), e.id, Inserting(ItemsFor(s.table, PartUuids(e.parts))));
  }

  lemma {:induction false} RefinesStep(t0: Table, s: State, e: Event)
    requires Inv(t0, s) && NoFaults(s.ledger) && Enabled(s, e) && !Faulty(s, e)
    ensures Allowed(Abs(s), Meaning(s, e)) && Abs(Apply(s, e)) == Perform(Abs(s), Meaning(s, e))
  {
    if e.ReserveParts? {
      ReserveRefines(s, e);
    } else if e.Assemble? {
      assert View(Apply(s, e)) == View(s);
    } else {
      var o := Subject(s, e).value;
      RowFacts(t0, s, o);
      if e.Charge? {
        ChargeRefines(s, e);
      } else if e.ReleaseParts? {
        ReleaseRefines(s, e);
      } else if e.CommitParts? {
        HandlerFacts(t0, s, o);
        CommitRefines(s, e);
      } else {
        QuietMoveRefines(s, e, o);
      }
    }
  }

  /**
   * Refinement: every clean run, with all its interleavings, redeliveries and duplicates, is a run of the atomic
   * factory, step by step; only the four remote effects are visible in it.
   */
  lemma {:induction false} Refinement(t0: Table, es: seq<Event>)
    requires SoundTable(t0) && CleanRun(Initial(t0), es)
    ensures var ops := Meanings(Initial(t0), es);
            Performs(Factory(map[], t0), ops) && Reached(Factory(map[], t0), ops) == Abs(Exec(Initial(t0), es))
  {
    if es == [] {
      assert View(Initial(t0)) == map[];
    } else {
      var init := es[..|es| - 1];
      Refinement(t0, init);
      CleanRunFacts(t0, init);
      RefinesStep(t0, Exec(Initial(t0), init), es[|es| - 1]);
      var ops := Meanings(Initial(t0), es);
      assert ops[..|ops| - 1] == Meanings(Initial(t0), init);
    }
  }
}
