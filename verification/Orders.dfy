/** The order aggregate: its items, its total, and what can be read back from the item rows. */
module Orders {
  import opened Prelude
  import opened Parts
  import opened BatchSpec
  import opened Slots

  const MIN_INT64: int := -0x8000_0000_0000_0000
  const MAX_INT64: int := 0x7fff_ffff_ffff_ffff

  datatype OrderParts = OrderParts(hull: Uuid, engine: Uuid, shield: Option<Uuid>, weapon: Option<Uuid>)

  datatype Item = Item(uuid: Uuid, partType: PartType, price: int)

  datatype ItemRecord = ItemRecord(orderUuid: Uuid, partUuid: Uuid, partType: PartType, price: int)

  /** The part list of a request: hull and engine always, shield and weapon when given. */
  function PartUuids(p: OrderParts): (ids: seq<Uuid>)
    ensures |ids| >= 2
  {
    [p.hull, p.engine] + (if p.shield.Some? then [p.shield.value] else [])
    + (if p.weapon.Some? then [p.weapon.value] else [])
  }

  /** The same request as it reaches the validation: an absent part travels as the empty string, which is uuid.Nil. */
  function SlotsOf(p: OrderParts): ShipSlots {
    ShipSlots(p.hull, p.engine, OrNil(p.shield), OrNil(p.weapon))
  }

  function ItemsFor(t: Table, ids: seq<Uuid>): (items: seq<Item>)
    requires forall u :: u in ids ==> u in t
    ensures |items| == |ids|
  {
    seq(|ids|, i requires 0 <= i < |ids| => Item(ids[i], t[ids[i]].partType, t[ids[i]].price))
  }

  function Uuids(items: seq<Item>): seq<Uuid> {
    if items == [] then [] else Uuids(items[..|items| - 1]) + [items[|items| - 1].uuid]
  }

  lemma {:induction false} UuidsByIndex(items: seq<Item>)
    ensures |Uuids(items)| == |items| && forall i :: 0 <= i < |items| ==> Uuids(items)[i] == items[i].uuid
  {
    if items != [] {
      UuidsByIndex(items[..|items| - 1]);
    }
  }

  function Sum(items: seq<Item>): int {
    if items == [] then 0 else Sum(items[..|items| - 1]) + items[|items| - 1].price
  }

  /** Two's complement reduction of an exact result to int64. */
  function Wrap(x: int): (r: int)
    ensures MIN_INT64 <= r <= MAX_INT64
    ensures r == x <==> MIN_INT64 <= x <= MAX_INT64
  {
    (x + 0x8000_0000_0000_0000) % 0x1_0000_0000_0000_0000 - 0x8000_0000_0000_0000
  }

  // ---- what a reordering of rows preserves ----

  function Without<T>(s: seq<T>, k: nat): seq<T>
    requires k < |s|
  {
    s[..k] + s[k + 1..]
  }

  lemma WithoutMultiset<T>(s: seq<T>, k: nat)
    requires k < |s|
    ensures multiset(Without(s, k)) == multiset(s) - multiset{s[k]}
  {
    assert s == s[..k] + [s[k]] + s[k + 1..];
  }

  lemma WithoutLast<T>(s: seq<T>, k: nat)
    requires k < |s| - 1
    ensures Without(s, k) == Without(s[..|s| - 1], k) + [s[|s| - 1]]
  {
  }

  /** Taking one row out of the middle takes its price out of the sum ... */
  lemma {:induction false} SumWithout(items: seq<Item>, k: nat)
    requires k < |items|
    ensures Sum(items) == Sum(Without(items, k)) + items[k].price
  {
    var n := |items| - 1;
    if k == n {
      assert Without(items, k) == items[..n];
    } else {
      SumWithout(items[..n], k);
      WithoutLast(items, k);
      SumAppend(Without(items[..n], k), items[n]);
    }
  }

  lemma SumAppend(items: seq<Item>, x: Item)
    ensures Sum(items + [x]) == Sum(items) + x.price
    ensures Uuids(items + [x]) == Uuids(items) + [x.uuid]
  {
    assert (items + [x])[..|items|] == items;
  }

  lemma UuidsAppend(items: seq<Item>, x: Item)
    ensures multiset(Uuids(items + [x])) == multiset(Uuids(items)) + multiset{x.uuid}
  {
    SumAppend(items, x);
  }

  /** ... and its uuid out of the uuids. */
  lemma {:induction false} UuidsWithout(items: seq<Item>, k: nat)
    requires k < |items|
    ensures multiset(Uuids(items)) == multiset(Uuids(Without(items, k))) + multiset{items[k].uuid}
  {
    var n := |items| - 1;
    assert items == items[..n] + [items[n]];
    UuidsAppend(items[..n], items[n]);
    if k == n {
      assert Without(items, k) == items[..n];
    } else {
      UuidsWithout(items[..n], k);
      WithoutLast(items, k);
      UuidsAppend(Without(items[..n], k), items[n]);
    }
  }

  /** The last item is some row; without the two, the rest is again a reordering. */
  lemma MatchLast<T>(items: seq<T>, rows: seq<T>) returns (k: nat)
    requires items != [] && multiset(items) == multiset(rows)
    ensures k < |rows| && rows[k] == items[|items| - 1]
    ensures multiset(items[..|items| - 1]) == multiset(Without(rows, k))
  {
    var n := |items| - 1;
    assert items[n] in multiset(rows);
    k :| 0 <= k < |rows| && rows[k] == items[n];
    WithoutMultiset(items, n);
    WithoutMultiset(rows, k);
    assert Without(items, n) == items[..n];
  }

  lemma {:induction false} ReorderedRows(items: seq<Item>, rows: seq<Item>)
    requires multiset(items) == multiset(rows)
    ensures Sum(items) == Sum(rows)
    ensures multiset(Uuids(items)) == multiset(Uuids(rows))
    decreases |items|
  {
    if items == [] {
      assert |multiset(rows)| == 0;
    } else {
      var k := MatchLast(items, rows);
      SumWithout(rows, k);
      UuidsWithout(rows, k);
      ReorderedRows(items[..|items| - 1], Without(rows, k));
    }
  }

  /** TotalPrice accumulates in int64; its result is the exact sum reduced once at the end. */
  method TotalPrice(items: seq<Item>) returns (total: int)
    ensures total == Wrap(Sum(items))
  {
    total := 0;
    for i := 0 to |items|
      invariant total == Wrap(Sum(items[..i]))
    {
      assert items[..i + 1][..i] == items[..i];
      WrapStep(Sum(items[..i]), items[i].price);
      total := Wrap(total + items[i].price);
    }
    assert items[..|items|] == items;
  }

  lemma WrapStep(x: int, y: int)
    ensures Wrap(Wrap(x) + y) == Wrap(x + y)
  {
    var m, h := 0x1_0000_0000_0000_0000, 0x8000_0000_0000_0000;
    var q := (x + h) / m;
    assert Wrap(x) == x - q * m;
    assert (x + y + h - q * m) % m == (x + y + h) % m;
  }

  /** ItemsUUIDs fills a slice of the same length by index. */
  method ItemsUuids(items: seq<Item>) returns (ids: seq<Uuid>)
    ensures ids == Uuids(items)
  {
    var uuids := new Uuid[|items|];
    for i := 0 to |items|
      invariant forall j :: 0 <= j < i ==> uuids[j] == items[j].uuid
    {
      uuids[i] := items[i].uuid;
    }
    ids := uuids[..];
    UuidsByIndex(items);
  }

  /** The uuid of the last item of a type. */
  function LastOf(items: seq<Item>, partType: PartType): Option<Uuid> {
    if items == [] then None
    else if items[|items| - 1].partType == partType then Some(items[|items| - 1].uuid)
    else LastOf(items[..|items| - 1], partType)
  }

  function OrNil(u: Option<Uuid>): Uuid {
    if u.Some? then u.value else NIL
  }

  function ByType(items: seq<Item>): OrderParts {
    OrderParts(OrNil(LastOf(items, Hull)), OrNil(LastOf(items, Engine)), LastOf(items, Shield), LastOf(items, Weapon))
  }

  /** Position k holds the last item of its type. */
  predicate LastOfItsType(items: seq<Item>, k: nat) {
    k < |items| && forall j :: k < j < |items| ==> items[j].partType != items[k].partType
  }

  lemma {:induction false} LastIsFound(items: seq<Item>, k: nat)
    requires LastOfItsType(items, k)
    ensures LastOf(items, items[k].partType) == Some(items[k].uuid)
  {
    if k < |items| - 1 {
      LastIsFound(items[..|items| - 1], k);
    }
  }

  /** getOrderItemByType: one pass that assigns the slot of each item's type, so that the last one stays. */
  method GetOrderItemByType(items: seq<Item>) returns (parts: OrderParts)
    ensures parts == ByType(items)
    ensures forall k: nat :: LastOfItsType(items, k) ==>
      match items[k].partType
      case Hull => parts.hull == items[k].uuid
      case Engine => parts.engine == items[k].uuid
      case Shield => parts.shield == Some(items[k].uuid)
      case Weapon => parts.weapon == Some(items[k].uuid)
      case UnknownType => true
    ensures (forall x :: x in items ==> x.partType != Hull) ==> parts.hull == NIL
    ensures (forall x :: x in items ==> x.partType != Engine) ==> parts.engine == NIL
    ensures (forall x :: x in items ==> x.partType != Shield) ==> parts.shield == None
    ensures (forall x :: x in items ==> x.partType != Weapon) ==> parts.weapon == None
  {
    parts := OrderParts(NIL, NIL, None, None);
    for i := 0 to |items|
      invariant parts == ByType(items[..i])
    {
      assert items[..i + 1][..i] == items[..i];
      match items[i].partType
      case Hull => parts := parts.(hull := items[i].uuid);
      case Engine => parts := parts.(engine := items[i].uuid);
      case Shield => parts := parts.(shield := Some(items[i].uuid));
      case Weapon => parts := parts.(weapon := Some(items[i].uuid));
      case UnknownType =>
    }
    assert items[..|items|] == items;
    forall k: nat | LastOfItsType(items, k) ensures LastOf(items, items[k].partType) == Some(items[k].uuid) {
      LastIsFound(items, k);
    }
    LastOfExact(items, Hull);
    LastOfExact(items, Engine);
    LastOfExact(items, Shield);
    LastOfExact(items, Weapon);
  }

  function ToRecord(order: Uuid, item: Item): ItemRecord {
    ItemRecord(order, item.uuid, item.partType, item.price)
  }

  function ToItem(r: ItemRecord): Item {
    Item(r.partUuid, r.partType, r.price)
  }

  /** The rows an order's items become. */
  function Records(order: Uuid, items: seq<Item>): (records: seq<ItemRecord>)
    ensures |records| == |items|
    ensures forall i :: 0 <= i < |items| ==>
      && records[i].orderUuid == order && records[i].partUuid == items[i].uuid
      && records[i].partType == items[i].partType && records[i].price == items[i].price
  {
    if items == [] then []
    else Records(order, items[..|items| - 1]) + [ToRecord(order, items[|items| - 1])]
  }

  /** The items a list of rows becomes. */
  function Models(records: seq<ItemRecord>): seq<Item> {
    if records == [] then [] else Models(records[..|records| - 1]) + [ToItem(records[|records| - 1])]
  }

  /** OrderItemModelsToRecords: the rows inserted for an order. */
  method ToRecords(order: Uuid, items: seq<Item>) returns (records: seq<ItemRecord>)
    ensures records == Records(order, items)
  {
    records := [];
    for i := 0 to |items|
      invariant records == Records(order, items[..i])
    {
      assert items[..i + 1][..i] == items[..i];
      records := records + [ToRecord(order, items[i])];
    }
    assert items[..|items|] == items;
  }

  /** OrderItemRecordsToModels. */
  method ToItems(records: seq<ItemRecord>) returns (items: seq<Item>)
    ensures items == Models(records)
  {
    items := [];
    for i := 0 to |records|
      invariant items == Models(records[..i])
    {
      assert records[..i + 1][..i] == records[..i];
      items := items + [ToItem(records[i])];
    }
    assert records[..|records|] == records;
  }

  lemma ModelsAppend(records: seq<ItemRecord>, r: ItemRecord)
    ensures multiset(Models(records + [r])) == multiset(Models(records)) + multiset{ToItem(r)}
  {
    assert (records + [r])[..|records|] == records;
  }

  lemma {:induction false} ModelsWithout(records: seq<ItemRecord>, k: nat)
    requires k < |records|
    ensures multiset(Models(records)) == multiset(Models(Without(records, k))) + multiset{ToItem(records[k])}
  {
    var n := |records| - 1;
    assert records == records[..n] + [records[n]];
    ModelsAppend(records[..n], records[n]);
    if k == n {
      assert Without(records, k) == records[..n];
    } else {
      ModelsWithout(records[..n], k);
      WithoutLast(records, k);
      ModelsAppend(Without(records[..n], k), records[n]);
    }
  }

  lemma {:induction false} ModelsReordered(stored: seq<ItemRecord>, records: seq<ItemRecord>)
    requires multiset(stored) == multiset(records)
    ensures multiset(Models(stored)) == multiset(Models(records))
    decreases |stored|
  {
    if stored == [] {
      assert |multiset(records)| == 0;
    } else {
      var k := MatchLast(stored, records);
      ModelsWithout(records, k);
      ModelsReordered(stored[..|stored| - 1], Without(records, k));
    }
  }

  lemma {:induction false} ModelsOfRecords(order: Uuid, items: seq<Item>)
    ensures Models(Records(order, items)) == items
  {
    if items != [] {
      var init := items[..|items| - 1];
      ModelsOfRecords(order, init);
      assert Records(order, items)[..|Records(order, items)| - 1] == Records(order, init);
    }
  }

  /** Items stored as rows and read back in any row order are the same items, in some order. */
  lemma RowsRoundTrip(order: Uuid, items: seq<Item>, records: seq<ItemRecord>)
    requires multiset(records) == multiset(Records(order, items))
    ensures multiset(Models(records)) == multiset(items)
  {
    ModelsReordered(Records(order, items), records);
    ModelsOfRecords(order, items);
  }

  // ---- create, then get ----

  /** The request was listed, validated and found complete, as Create demands before it reserves. */
  predicate Orderable(t: Table, p: OrderParts) {
    ListError(t, PartUuids(p)).None? && Validation(t, SlotsOf(p)) == Compatible
  }

  lemma {:induction false} LastOfExact(items: seq<Item>, partType: PartType)
    ensures LastOf(items, partType).None? <==> forall x :: x in items ==> x.partType != partType
    ensures LastOf(items, partType).Some? ==>
      exists x :: x in items && x.partType == partType && x.uuid == LastOf(items, partType).value
  {
    if items != [] {
      var init, last := items[..|items| - 1], items[|items| - 1];
      LastOfExact(init, partType);
      assert items == init + [last];
      assert last in items;
    }
  }

  predicate OnePerType(items: seq<Item>) {
    forall x, y :: x in items && y in items && x.partType == y.partType ==> x == y
  }

  /** With one item per type the answer does not depend on the order of the rows. */
  lemma LastOfReordered(items: seq<Item>, rows: seq<Item>, partType: PartType)
    requires OnePerType(items) && Elements(items) == Elements(rows)
    ensures LastOf(items, partType) == LastOf(rows, partType)
  {
    LastOfExact(items, partType);
    LastOfExact(rows, partType);
    assert forall x :: x in items <==> x in Elements(items);
    assert forall x :: x in rows <==> x in Elements(rows);
    if LastOf(items, partType).Some? && LastOf(rows, partType).Some? {
      var x :| x in items && x.partType == partType && x.uuid == LastOf(items, partType).value;
      var y :| y in rows && y.partType == partType && y.uuid == LastOf(rows, partType).value;
      assert y in items;
    }
  }

  /** An explicit Nil uuid in an optional slot escapes the validation, which takes it for an empty slot. */
  predicate NilFits(t: Table, p: OrderParts) {
    && (p.shield == Some(NIL) ==> NIL in t && t[NIL].partType == Shield)
    && (p.weapon == Some(NIL) ==> NIL in t && t[NIL].partType == Weapon)
  }

  ghost predicate ReadsBack(items: seq<Item>, p: OrderParts) {
    forall rows: seq<Item> :: multiset(rows) == multiset(items) ==> ByType(rows) == p
  }

  /** What the validation leaves known about the listed parts. */
  lemma OrderableTypes(t: Table, p: OrderParts)
    requires Orderable(t, p)
    ensures Distinct(PartUuids(p)) && forall u :: u in PartUuids(p) ==> u in t
    ensures p.hull != NIL && t[p.hull].partType == Hull && p.engine != NIL && t[p.engine].partType == Engine
    ensures p.shield.Some? && p.shield.value != NIL ==> t[p.shield.value].partType == Shield
    ensures p.weapon.Some? && p.weapon.value != NIL ==> t[p.weapon.value].partType == Weapon
  {
    var q := Requests(SlotsOf(p));
    assert q[0].uuid == p.hull && q[1].uuid == p.engine;
    assert q[2].uuid == SlotsOf(p).shield && q[3].uuid == SlotsOf(p).weapon;
  }

  /** The four possible shapes of an item list. */
  lemma ItemsByShape(t: Table, p: OrderParts)
    requires forall u :: u in PartUuids(p) ==> u in t
    ensures var items := ItemsFor(t, PartUuids(p));
            forall x :: x in items <==>
              || x == Item(p.hull, t[p.hull].partType, t[p.hull].price)
              || x == Item(p.engine, t[p.engine].partType, t[p.engine].price)
              || (p.shield.Some? && x == Item(p.shield.value, t[p.shield.value].partType, t[p.shield.value].price))
              || (p.weapon.Some? && x == Item(p.weapon.value, t[p.weapon.value].partType, t[p.weapon.value].price))
  {
    var ids, items := PartUuids(p), ItemsFor(t, PartUuids(p));
    assert ids[0] == p.hull && ids[1] == p.engine;
    assert p.shield.Some? ==> ids[2] == p.shield.value;
    assert p.weapon.Some? ==> ids[|ids| - 1] == p.weapon.value;
    assert items[0] in items && items[1] in items && items[|items| - 1] in items;
    assert p.shield.Some? ==> items[2] in items;
    assert forall x :: x in items ==> exists i :: 0 <= i < |ids| && x == items[i];
  }

  function ItemFor(t: Table, u: Uuid): Item
    requires u in t
  {
    Item(u, t[u].partType, t[u].price)
  }

  /** A type held by exactly one listed part is read back as that part. */
  lemma OnlyOfType(items: seq<Item>, x: Item)
    requires x in items && forall y :: y in items && y.partType == x.partType ==> y == x
    ensures LastOf(items, x.partType) == Some(x.uuid)
  {
    LastOfExact(items, x.partType);
  }

  lemma NoneOfType(items: seq<Item>, partType: PartType)
    requires forall y :: y in items ==> y.partType != partType
    ensures LastOf(items, partType) == None
  {
    LastOfExact(items, partType);
  }

  lemma DistinctSlots(p: OrderParts)
    requires Distinct(PartUuids(p))
    ensures p.hull != p.engine
    ensures p.shield.Some? ==> p.shield.value != p.hull && p.shield.value != p.engine
    ensures p.weapon.Some? ==> p.weapon.value != p.hull && p.weapon.value != p.engine
    ensures p.shield.Some? && p.weapon.Some? ==> p.shield.value != p.weapon.value
  {
    var ids := PartUuids(p);
    assert ids[0] == p.hull && ids[1] == p.engine;
    assert p.shield.Some? ==> ids[2] == p.shield.value;
    assert p.weapon.Some? ==> ids[|ids| - 1] == p.weapon.value;
  }

  lemma FittingItemsRead(t: Table, p: OrderParts)
    requires Orderable(t, p) && NilFits(t, p)
    ensures forall u :: u in PartUuids(p) ==> u in t
    ensures OnePerType(ItemsFor(t, PartUuids(p))) && ByType(ItemsFor(t, PartUuids(p))) == p
  {
    OrderableTypes(t, p);
    DistinctSlots(p);
    ItemsByShape(t, p);
    var items := ItemsFor(t, PartUuids(p));
    assert p.shield.Some? ==> p.shield.value in t && t[p.shield.value].partType == Shield;
    assert p.weapon.Some? ==> p.weapon.value in t && t[p.weapon.value].partType == Weapon;
    OnlyOfType(items, ItemFor(t, p.hull));
    OnlyOfType(items, ItemFor(t, p.engine));
    if p.shield.Some? { OnlyOfType(items, ItemFor(t, p.shield.value)); } else { NoneOfType(items, Shield); }
    if p.weapon.Some? { OnlyOfType(items, ItemFor(t, p.weapon.value)); } else { NoneOfType(items, Weapon); }
  }

  lemma UnfittingItemsMisread(t: Table, p: OrderParts)
    requires Orderable(t, p) && !NilFits(t, p)
    ensures forall u :: u in PartUuids(p) ==> u in t
    ensures ByType(ItemsFor(t, PartUuids(p))) != p
  {
    OrderableTypes(t, p);
    DistinctSlots(p);
    ItemsByShape(t, p);
    var items := ItemsFor(t, PartUuids(p));
    if p.shield == Some(NIL) {
      assert NIL in PartUuids(p);
      NoneOfType(items, Shield);
    } else {
      assert p.weapon == Some(NIL) && NIL in PartUuids(p);
      NoneOfType(items, Weapon);
    }
  }

  /**
   * Create, then Get: for a request that passed every check, reading the items back in any row order gives the
   * requested parts exactly when no optional slot names a Nil uuid that the catalogue lists under another type.
   */
  lemma CreateGetRoundTrip(t: Table, p: OrderParts)
    requires Orderable(t, p)
    ensures forall u :: u in PartUuids(p) ==> u in t
    ensures ReadsBack(ItemsFor(t, PartUuids(p)), p) <==> NilFits(t, p)
    ensures NIL !in t ==> NilFits(t, p)
  {
    OrderableTypes(t, p);
    var items := ItemsFor(t, PartUuids(p));
    if NilFits(t, p) {
      FittingItemsRead(t, p);
      forall rows: seq<Item> | multiset(rows) == multiset(items) ensures ByType(rows) == p {
        SamePermutation(rows, items);
        LastOfReordered(items, rows, Hull);
        LastOfReordered(items, rows, Engine);
        LastOfReordered(items, rows, Shield);
        LastOfReordered(items, rows, Weapon);
      }
    } else {
      UnfittingItemsMisread(t, p);
      assert multiset(items) == multiset(items);
    }
    assert p.shield.Some? ==> p.shield.value in PartUuids(p);
    assert p.weapon.Some? ==> p.weapon.value in PartUuids(p);
  }

  predicate OfType(t: Table, u: Uuid, partType: PartType) {
    u in t && t[u].partType == partType
  }

  predicate PlasmaAndLaser(t: Table, p: OrderParts) {
    && p.shield.Some? && p.shield.value in t && t[p.shield.value].properties == ShieldProperties(Plasma)
    && p.weapon.Some? && p.weapon.value in t && t[p.weapon.value].properties == WeaponProperties(Laser)
  }

  /** The parts of a request fit together, the one listed under the Nil uuid included. */
  predicate Shipworthy(t: Table, p: OrderParts) {
    && OfType(t, p.hull, Hull) && OfType(t, p.engine, Engine)
    && (p.shield.Some? ==> OfType(t, p.shield.value, Shield))
    && (p.weapon.Some? ==> OfType(t, p.weapon.value, Weapon))
    && t[p.hull].properties.HullProperties? && t[p.engine].properties.EngineProperties?
    && t[p.hull].properties.strength >= t[p.engine].properties.requiredStrength
    && !PlasmaAndLaser(t, p)
  }

  /** An explicit Nil uuid escapes the rules as well as the type check. */
  predicate NilHarmless(t: Table, p: OrderParts) {
    NilFits(t, p) && (p.shield == Some(NIL) || p.weapon == Some(NIL) ==> !PlasmaAndLaser(t, p))
  }

  /** A request that passed every check is shipworthy exactly when no explicit Nil uuid has escaped the rules. */
  lemma OrderableIsShipworthy(t: Table, p: OrderParts)
    requires Orderable(t, p)
    ensures Shipworthy(t, p) <==> NilHarmless(t, p)
    ensures NIL !in t ==> Shipworthy(t, p)
  {
    OrderableTypes(t, p);
    assert p.shield.Some? ==> p.shield.value in PartUuids(p);
    assert p.weapon.Some? ==> p.weapon.value in PartUuids(p);
  }

  /**
   * The failing case exists: the catalogue lists an engine under the Nil uuid, and the request names it as its
   * shield. It is orderable, and reads back without a shield.
   */
  lemma NilSlotIsMisread()
    ensures var engine := Row(1, Engine, 10, 5, 0, EngineProperties(ClassA, 40));
            var t: Table := map[NIL := engine, 1 := Row(2, Hull, 10, 5, 0, HullProperties(100)), 2 := engine];
            var p := OrderParts(1, 2, Some(NIL), None);
            && Orderable(t, p) && (forall u :: u in PartUuids(p) ==> u in t) && !ReadsBack(ItemsFor(t, PartUuids(p)), p)
  {
    var engine := Row(1, Engine, 10, 5, 0, EngineProperties(ClassA, 40));
    var t: Table := map[NIL := engine, 1 := Row(2, Hull, 10, 5, 0, HullProperties(100)), 2 := engine];
    var p := OrderParts(1, 2, Some(NIL), None);
    FirstConversionErrorExact(t, PartUuids(p));
    FourRequests(SlotsOf(p));
    FirstConversionErrorExact(t, Given(Requests(SlotsOf(p))));
    CreateGetRoundTrip(t, p);
  }

  /**
   * The total read back never depends on the row order, and it is the exact sum exactly when that fits int64;
   * four prices of at most a quarter of the maximum always do.
   */
  lemma TotalRoundTrip(items: seq<Item>, rows: seq<Item>)
    requires multiset(items) == multiset(rows)
    ensures Wrap(Sum(items)) == Wrap(Sum(rows))
    ensures Wrap(Sum(rows)) == Sum(items) <==> MIN_INT64 <= Sum(items) <= MAX_INT64
    ensures |items| <= 4 && (forall x :: x in items ==> 0 <= x.price <= MAX_INT64 / 4) ==> Wrap(Sum(rows)) == Sum(items)
  {
    ReorderedRows(items, rows);
    if forall x :: x in items ==> 0 <= x.price <= MAX_INT64 / 4 {
      SumBound(items, MAX_INT64 / 4);
    }
  }

  lemma {:induction false} SumBound(items: seq<Item>, bound: int)
    requires forall x :: x in items ==> 0 <= x.price <= bound
    ensures 0 <= Sum(items) <= |items| * bound
  {
    if items != [] {
      SumBound(items[..|items| - 1], bound);
      assert items[|items| - 1] in items;
    }
  }
}
