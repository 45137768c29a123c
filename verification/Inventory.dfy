/** What one batch call promises, stated without reference to how the service works. */
module BatchSpec {
  import opened Prelude
  import opened Parts

  /** Every requested part is listed once, exists, is readable and allows the operation. */
  predicate Accepts(t: Table, op: PartOp, targets: seq<Uuid>) {
    && targets != []
    && Distinct(targets)
    && forall u :: u in targets ==> u in t && ConversionError(t[u]).None? && Refusal(op, t[u]).None?
  }

  function Updated(t: Table, op: PartOp, targets: seq<Uuid>): Table {
    map u | u in t :: if u in targets then After(op, t[u]) else t[u]
  }

  /** All or nothing. */
  function Batch(t: Table, op: PartOp, targets: seq<Uuid>): Table {
    if Accepts(t, op, targets) then Updated(t, op, targets) else t
  }

  function FirstConversionError(t: Table, targets: seq<Uuid>): Option<Error>
    requires forall u :: u in targets ==> u in t
  {
    if targets == [] then None
    else if ConversionError(t[targets[0]]).Some? then ConversionError(t[targets[0]])
    else FirstConversionError(t, targets[1..])
  }

  function FirstRefusal(t: Table, op: PartOp, targets: seq<Uuid>): Option<Error>
    requires forall u :: u in targets ==> u in t
  {
    if targets == [] then None
    else if Refusal(op, t[targets[0]]).Some? then Refusal(op, t[targets[0]])
    else FirstRefusal(t, op, targets[1..])
  }

  /** The error of reading the requested parts. */
  function ListError(t: Table, targets: seq<Uuid>): Option<Error> {
    if !Distinct(targets) || exists u :: u in targets && u !in t then Some(PartNotFound)
    else FirstConversionError(t, targets)
  }

  /** The error a batch reports; None is success. */
  function Outcome(t: Table, op: PartOp, targets: seq<Uuid>): Option<Error> {
    if ListError(t, targets).Some? then ListError(t, targets)
    else if FirstRefusal(t, op, targets).Some? then FirstRefusal(t, op, targets)
    else if targets == [] then Some(NoPartWereUpdated)
    else None
  }

  lemma {:induction false} FirstConversionErrorExact(t: Table, targets: seq<Uuid>)
    requires forall u :: u in targets ==> u in t
    ensures FirstConversionError(t, targets).None? <==> forall u :: u in targets ==> ConversionError(t[u]).None?
  {
    if targets != [] {
      FirstConversionErrorExact(t, targets[1..]);
      assert targets == [targets[0]] + targets[1..];
    }
  }

  lemma {:induction false} FirstRefusalExact(t: Table, op: PartOp, targets: seq<Uuid>)
    requires forall u :: u in targets ==> u in t
    ensures FirstRefusal(t, op, targets).None? <==> forall u :: u in targets ==> Refusal(op, t[u]).None?
  {
    if targets != [] {
      FirstRefusalExact(t, op, targets[1..]);
      assert targets == [targets[0]] + targets[1..];
    }
  }

  /** A call reports no error exactly when the declarative condition holds. */
  lemma OutcomeExact(t: Table, op: PartOp, targets: seq<Uuid>)
    ensures Outcome(t, op, targets).None? <==> Accepts(t, op, targets)
  {
    if Distinct(targets) && forall u :: u in targets ==> u in t {
      FirstConversionErrorExact(t, targets);
      FirstRefusalExact(t, op, targets);
    }
  }

  /** What a batch needs of its parts, operation by operation. */
  lemma AcceptanceLaws(t: Table, ids: seq<Uuid>)
    ensures Accepts(t, Reserve, ids) <==>
      && ids != [] && Distinct(ids)
      && forall u :: u in ids ==> u in t && ConversionError(t[u]).None? && t[u].reserved < t[u].stock
    ensures Accepts(t, Release, ids) <==>
      && ids != [] && Distinct(ids)
      && forall u :: u in ids ==> u in t && ConversionError(t[u]).None? && 0 < t[u].reserved
    ensures Accepts(t, Commit, ids) <==>
      && ids != [] && Distinct(ids)
      && forall u :: u in ids ==> u in t && ConversionError(t[u]).None? && 0 < t[u].reserved && 0 < t[u].stock
  {
  }

  // ---- which error is reported ----

  predicate Listed(t: Table, targets: seq<Uuid>) {
    Distinct(targets) && forall u :: u in targets ==> u in t
  }

  predicate AllReadable(t: Table, targets: seq<Uuid>) {
    Listed(t, targets) && forall u :: u in targets ==> ConversionError(t[u]).None?
  }

  /** The first unreadable part on the list has error e. */
  predicate FirstBad(t: Table, targets: seq<Uuid>, e: Error) {
    exists i :: 0 <= i < |targets| && targets[i] in t && ConversionError(t[targets[i]]) == Some(e)
                && forall j :: 0 <= j < i ==> targets[j] in t && ConversionError(t[targets[j]]).None?
  }

  lemma {:induction false} FirstErrorIndex(t: Table, targets: seq<Uuid>) returns (i: nat)
    requires (forall u :: u in targets ==> u in t) && FirstConversionError(t, targets).Some?
    ensures i < |targets| && ConversionError(t[targets[i]]) == FirstConversionError(t, targets)
    ensures forall j :: 0 <= j < i ==> ConversionError(t[targets[j]]).None?
  {
    if ConversionError(t[targets[0]]).Some? {
      i := 0;
    } else {
      var k := FirstErrorIndex(t, targets[1..]);
      i := k + 1;
    }
  }

  lemma FirstBadExact(t: Table, targets: seq<Uuid>, e: Error)
    requires forall u :: u in targets ==> u in t
    ensures FirstConversionError(t, targets) == Some(e) <==> FirstBad(t, targets, e)
  {
    FirstConversionErrorExact(t, targets);
    if FirstConversionError(t, targets).Some? {
      var i := FirstErrorIndex(t, targets);
      if FirstBad(t, targets, e) {
        var k :| 0 <= k < |targets| && targets[k] in t && ConversionError(t[targets[k]]) == Some(e)
                 && forall j :: 0 <= j < k ==> targets[j] in t && ConversionError(t[targets[j]]).None?;
        assert i == k;
      }
    }
  }

  /** Listing parts: a repeated or missing uuid counts before an unreadable row, and of those the first. */
  lemma ListErrors(t: Table, targets: seq<Uuid>)
    ensures ListError(t, targets) == Some(PartNotFound) <==> !Listed(t, targets)
    ensures ListError(t, targets) == Some(UnmarshalFailed) <==>
      Listed(t, targets) && FirstBad(t, targets, UnmarshalFailed)
    ensures ListError(t, targets) == Some(InvalidProperties) <==>
      Listed(t, targets) && FirstBad(t, targets, InvalidProperties)
    ensures ListError(t, targets).None? <==> AllReadable(t, targets)
    ensures ListError(t, targets).Some? ==>
      ListError(t, targets).value in {PartNotFound, UnmarshalFailed, InvalidProperties}
  {
    if Listed(t, targets) {
      FirstBadExact(t, targets, UnmarshalFailed);
      FirstBadExact(t, targets, InvalidProperties);
      FirstBadExact(t, targets, PartNotFound);
      FirstConversionErrorExact(t, targets);
      if FirstConversionError(t, targets).Some? {
        var i := FirstErrorIndex(t, targets);
        ReadableExact(t[targets[i]]);
      }
    }
  }

  function RefusalOf(op: PartOp): Error {
    match op
    case Reserve => OutOfStock
    case Release => NothingToRelease
    case Commit => NothingToCommit
  }

  lemma {:induction false} OneRefusal(t: Table, op: PartOp, targets: seq<Uuid>)
    requires forall u :: u in targets ==> u in t
    ensures FirstRefusal(t, op, targets).Some? ==> FirstRefusal(t, op, targets) == Some(RefusalOf(op))
  {
    if targets != [] {
      OneRefusal(t, op, targets[1..]);
    }
  }

  /** Every error a batch reports, each with exactly when: in the order of the code. */
  lemma OutcomeErrors(t: Table, op: PartOp, targets: seq<Uuid>)
    ensures Outcome(t, op, targets) == Some(PartNotFound) <==> !Listed(t, targets)
    ensures Outcome(t, op, targets) == Some(UnmarshalFailed) <==>
      Listed(t, targets) && FirstBad(t, targets, UnmarshalFailed)
    ensures Outcome(t, op, targets) == Some(InvalidProperties) <==>
      Listed(t, targets) && FirstBad(t, targets, InvalidProperties)
    ensures Outcome(t, op, targets) == Some(OutOfStock) <==>
      op == Reserve && AllReadable(t, targets) && exists u :: u in targets && t[u].stock <= t[u].reserved
    ensures Outcome(t, op, targets) == Some(NothingToRelease) <==>
      op == Release && AllReadable(t, targets) && exists u :: u in targets && t[u].reserved <= 0
    ensures Outcome(t, op, targets) == Some(NothingToCommit) <==>
      op == Commit && AllReadable(t, targets) && exists u :: u in targets && (t[u].reserved <= 0 || t[u].stock <= 0)
    ensures Outcome(t, op, targets) == Some(NoPartWereUpdated) <==> targets == []
  {
    ListErrors(t, targets);
    if AllReadable(t, targets) {
      FirstRefusalExact(t, op, targets);
      OneRefusal(t, op, targets);
    }
  }

  /** A call depends on, and therefore needs to lock, only the rows it names. */
  lemma {:induction false} ErrorsAgree(a: Table, b: Table, op: PartOp, targets: seq<Uuid>)
    requires forall u :: u in targets ==> u in a && u in b && a[u] == b[u]
    ensures FirstConversionError(a, targets) == FirstConversionError(b, targets)
    ensures FirstRefusal(a, op, targets) == FirstRefusal(b, op, targets)
  {
    if targets != [] {
      ErrorsAgree(a, b, op, targets[1..]);
    }
  }

  lemma OutcomeLocal(a: Table, b: Table, op: PartOp, targets: seq<Uuid>)
    requires forall u :: u in targets ==> (u in a <==> u in b)
    requires forall u :: u in targets && u in a ==> a[u] == b[u]
    ensures Outcome(a, op, targets) == Outcome(b, op, targets)
  {
    if forall u :: u in targets ==> u in a {
      ErrorsAgree(a, b, op, targets);
    }
  }

  /** The order in which parts are requested changes neither acceptance nor the resulting table. */
  lemma PermutedBatch(t: Table, op: PartOp, s: seq<Uuid>, r: seq<Uuid>)
    requires multiset(s) == multiset(r)
    ensures Accepts(t, op, s) <==> Accepts(t, op, r)
    ensures Outcome(t, op, s).None? <==> Outcome(t, op, r).None?
    ensures Batch(t, op, s) == Batch(t, op, r)
  {
    SamePermutation(s, r);
    assert forall u :: u in s <==> u in Elements(s);
    assert forall u :: u in r <==> u in Elements(r);
    OutcomeExact(t, op, s);
    OutcomeExact(t, op, r);
  }

  // ---- any number of calls, one after the other ----

  datatype Call = Call(op: PartOp, targets: seq<Uuid>)

  function RunCalls(t: Table, calls: seq<Call>): Table {
    if calls == [] then t
    else
      var last := calls[|calls| - 1];
      Batch(RunCalls(t, calls[..|calls| - 1]), last.op, last.targets)
  }

  /** How many of the calls performed `op` on part `u` successfully. */
  function Performed(t: Table, calls: seq<Call>, op: PartOp, u: Uuid): nat {
    if calls == [] then 0
    else
      var before, last := RunCalls(t, calls[..|calls| - 1]), calls[|calls| - 1];
      Performed(t, calls[..|calls| - 1], op, u) +
      if last.op == op && u in last.targets && Accepts(before, last.op, last.targets) then 1 else 0
  }

  ghost predicate SoundTable(t: Table) {
    forall u :: u in t ==> Sound(t[u])
  }

  /** One batch keeps every row sound and changes nothing but the two stock figures. */
  lemma BatchKeepsSound(t: Table, op: PartOp, targets: seq<Uuid>)
    requires SoundTable(t)
    ensures SoundTable(Batch(t, op, targets))
    ensures Batch(t, op, targets).Keys == t.Keys
    ensures forall u :: u in t ==> SameIdentity(t[u], Batch(t, op, targets)[u])
  {
    assert Batch(t, op, targets).Keys == t.Keys;
  }

  /**
   * No overselling, whatever is called and however often it is refused: every row stays sound, and the
   * figures of each part account exactly for the successful operations on it.
   */
  lemma {:induction false} NoOverselling(t: Table, calls: seq<Call>)
    requires SoundTable(t)
    ensures SoundTable(RunCalls(t, calls)) && RunCalls(t, calls).Keys == t.Keys
    ensures forall u :: u in t ==>
      var now := RunCalls(t, calls)[u];
      && SameIdentity(t[u], now)
      && now.stock == t[u].stock - Performed(t, calls, Commit, u)
      && now.reserved == t[u].reserved + Performed(t, calls, Reserve, u)
                         - Performed(t, calls, Release, u) - Performed(t, calls, Commit, u)
      && now.stock - now.reserved == t[u].stock - t[u].reserved - Performed(t, calls, Reserve, u)
                                     + Performed(t, calls, Release, u)
  {
    if calls != [] {
      var init, last := calls[..|calls| - 1], calls[|calls| - 1];
      NoOverselling(t, init);
      BatchKeepsSound(RunCalls(t, init), last.op, last.targets);
    }
  }
}

/** The inventory service: select and lock the rows, put them in request order, change them, write them back. */
module InventoryService {
  import opened Prelude
  import opened Parts
  import opened BatchSpec

  datatype Record = Record(uuid: Uuid, row: Row)

  /** The records keyed by uuid; a later record replaces an earlier one. */
  function ByUuid(records: seq<Record>): map<Uuid, Row> {
    if records == [] then map[]
    else
      var last := records[|records| - 1];
      ByUuid(records[..|records| - 1])[last.uuid := last.row]
  }

  /** The first position that cannot be served: missing, or unreadable. */
  function LookupError(m: map<Uuid, Row>, ids: seq<Uuid>): Option<Error> {
    if ids == [] then None
    else if ids[0] !in m then Some(PartNotFound)
    else if ConversionError(m[ids[0]]).Some? then ConversionError(m[ids[0]])
    else LookupError(m, ids[1..])
  }

  /** What mapAndOrder answers for a non-empty request: a length test, then a lookup per position. */
  function MapError(m: map<Uuid, Row>, ids: seq<Uuid>): Option<Error> {
    if |m| != |ids| then Some(PartNotFound) else LookupError(m, ids)
  }

  lemma {:induction false} LookupErrorExact(m: map<Uuid, Row>, ids: seq<Uuid>)
    requires forall u :: u in ids ==> u in m
    ensures LookupError(m, ids) == FirstConversionError(m, ids)
  {
    if ids != [] {
      LookupErrorExact(m, ids[1..]);
    }
  }

  /** A map whose keys lie among `ids` is as long as `ids` only for a duplicate-free, fully present list. */
  lemma LengthTestExact(m: map<Uuid, Row>, ids: seq<Uuid>)
    requires m.Keys <= Elements(ids)
    ensures |m| == |ids| <==> Distinct(ids) && forall u :: u in ids ==> u in m
  {
    DistinctByCount(ids);
    assert |m| == |m.Keys|;
    SubsetCount(m.Keys, Elements(ids));
    if Distinct(ids) && forall u :: u in ids ==> u in m {
      assert m.Keys == Elements(ids);
    }
  }

  lemma SubsetCount(a: set<Uuid>, b: set<Uuid>)
    requires a <= b
    ensures |a| <= |b|
    ensures |a| == |b| ==> a == b
  {
    assert b == a + (b - a);
    assert |b| == |a| + |b - a|;
  }

  /** mapAndOrder agrees with looking every uuid up in the table. */
  lemma MapAgreesWithLookup(t: Table, m: map<Uuid, Row>, ids: seq<Uuid>)
    requires m.Keys == Elements(ids) * t.Keys
    requires forall u :: u in m ==> m[u] == t[u]
    ensures MapError(m, ids) == ListError(t, ids)
  {
    LengthTestExact(m, ids);
    assert forall u :: u in ids ==> (u in m <==> u in t);
    if |m| == |ids| {
      LookupErrorExact(m, ids);
      ErrorsAgree(m, t, Reserve, ids);
    }
  }

  lemma {:induction false} ByUuidOfSelection(t: Table, records: seq<Record>)
    requires forall k :: 0 <= k < |records| ==> records[k].uuid in t && records[k].row == t[records[k].uuid]
    ensures ByUuid(records).Keys == set r | r in records :: r.uuid
    ensures forall u :: u in ByUuid(records) ==> u in t && ByUuid(records)[u] == t[u]
  {
    if records != [] {
      var init, last := records[..|records| - 1], records[|records| - 1];
      ByUuidOfSelection(t, init);
      assert records == init + [last];
      assert (set r | r in records :: r.uuid) == (set r | r in init :: r.uuid) + {last.uuid};
    }
  }

  function FirstUnreadable(records: seq<Record>): Option<Error> {
    if records == [] then None
    else if ConversionError(records[0].row).Some? then ConversionError(records[0].row)
    else FirstUnreadable(records[1..])
  }

  lemma {:induction false} UnreadableByOrder(t: Table, records: seq<Record>, order: seq<Uuid>)
    requires |records| == |order|
    requires forall k :: 0 <= k < |order| ==> order[k] in t && records[k] == Record(order[k], t[order[k]])
    ensures FirstUnreadable(records) == FirstConversionError(t, order)
  {
    if order != [] {
      UnreadableByOrder(t, records[1..], order[1..]);
    }
  }

  /** The sort key of the query: uuid for an explicit list, name otherwise. */
  function SortKey(t: Table, byName: bool, u: Uuid): nat
    requires u in t
  {
    if byName then t[u].name else u
  }

  ghost predicate Sorted(t: Table, byName: bool, order: seq<Uuid>) {
    && (forall u :: u in order ==> u in t)
    && forall i, j :: 0 <= i < j < |order| ==> SortKey(t, byName, order[i]) <= SortKey(t, byName, order[j])
  }

  // A request for parts; the part type counts only when no uuid is listed.
  datatype Filter = Filter(uuids: seq<Uuid>, partType: Option<PartType>)

  /** The rows the WHERE clause leaves. */
  function Chosen(t: Table, f: Filter): set<Uuid> {
    if f.uuids != [] then Elements(f.uuids) * t.Keys
    else set u | u in t && (f.partType.None? || t[u].partType == f.partType.value)
  }

  /** The rows a filter selects, in an order the query may return (and lock) them in. */
  ghost predicate Selects(t: Table, f: Filter, order: seq<Uuid>) {
    Distinct(order) && Elements(order) == Chosen(t, f) && Sorted(t, f.uuids == [], order)
  }

  lemma ChosenExact(t: Table, f: Filter, order: seq<Uuid>)
    requires Selects(t, f, order)
    ensures forall u :: u in order <==>
      u in t && if f.uuids != [] then u in f.uuids else f.partType.None? || t[u].partType == f.partType.value
  {
    assert forall u :: u in order <==> u in Elements(order);
  }

  lemma InOrder(t: Table, f: Filter, order: seq<Uuid>)
    requires Selects(t, f, order)
    ensures forall i, j :: 0 <= i < j < |order| ==>
      && order[i] in t && order[j] in t && order[i] != order[j]
      && if f.uuids != [] then order[i] < order[j] else t[order[i]].name <= t[order[j]].name
  {
    forall i, j | 0 <= i < j < |order|
      ensures order[i] in t && order[j] in t
      ensures if f.uuids != [] then order[i] < order[j] else t[order[i]].name <= t[order[j]].name
    {
      assert order[i] in order && order[j] in order;
      assert SortKey(t, f.uuids == [], order[i]) <= SortKey(t, f.uuids == [], order[j]);
    }
  }

  /** The uuids of a list of records. */
  function RecordUuids(records: seq<Record>): (order: seq<Uuid>)
    ensures |order| == |records|
  {
    seq(|records|, i requires 0 <= i < |records| => records[i].uuid)
  }

  /** The filter of a batch call: its list, or everything. */
  function Only(ids: seq<Uuid>): Filter {
    Filter(ids, None)
  }

  ghost predicate Least(t: Table, byName: bool, rest: set<Uuid>, u: Uuid) {
    && rest <= t.Keys
    && u in rest
    && forall v :: v in rest ==> SortKey(t, byName, u) <= SortKey(t, byName, v)
  }

  lemma {:induction false} LeastExists(t: Table, byName: bool, rest: set<Uuid>) returns (least: Uuid)
    requires rest != {} && rest <= t.Keys
    ensures Least(t, byName, rest, least)
  {
    var x :| x in rest;
    least := x;
    if rest != {x} {
      var u := LeastExists(t, byName, rest - {x});
      least := if SortKey(t, byName, x) <= SortKey(t, byName, u) then x else u;
      assert forall v :: v in rest ==> v == x || v in rest - {x};
    }
  }

  /** Every row of `order` sorts no later than every row still to come. */
  ghost predicate Precedes(t: Table, byName: bool, order: seq<Uuid>, rest: set<Uuid>) {
    && rest <= t.Keys
    && (forall u :: u in order ==> u in t && u !in rest)
    && forall u, v :: u in order && v in rest ==> SortKey(t, byName, u) <= SortKey(t, byName, v)
  }

  lemma TakeLeast(t: Table, byName: bool, order: seq<Uuid>, rest: set<Uuid>, u: Uuid)
    requires Distinct(order) && Sorted(t, byName, order)
    requires Precedes(t, byName, order, rest) && Least(t, byName, rest, u)
    ensures Distinct(order + [u]) && Sorted(t, byName, order + [u]) && Precedes(t, byName, order + [u], rest - {u})
    ensures Elements(order + [u]) == Elements(order) + {u}
  {
  }

  lemma SelectionByUuid(t: Table, ids: seq<Uuid>, records: seq<Record>, order: seq<Uuid>)
    requires ids != [] && Elements(order) == Elements(ids) * t.Keys && |records| == |order|
    requires forall k :: 0 <= k < |order| ==> order[k] in t && records[k] == Record(order[k], t[order[k]])
    ensures ByUuid(records).Keys == Elements(ids) * t.Keys
    ensures forall u :: u in ByUuid(records) ==> ByUuid(records)[u] == t[u]
  {
    ByUuidOfSelection(t, records);
    forall u ensures u in (set r | r in records :: r.uuid) <==> u in Elements(order) {
      if u in order {
        var k :| 0 <= k < |order| && order[k] == u;
        assert records[k] in records && records[k].uuid == u;
      }
    }
  }

  // One row of the batch: the new figures of a part.
  datatype Figures = Figures(uuid: Uuid, reserved: int, stock: int)

  /** unnest: three parallel arrays as rows. */
  function Unnest(uuids: seq<Uuid>, reserved: seq<int>, stock: seq<int>): (batch: seq<Figures>)
    requires |uuids| == |reserved| == |stock|
    ensures |batch| == |uuids|
  {
    seq(|uuids|, i requires 0 <= i < |uuids| => Figures(uuids[i], reserved[i], stock[i]))
  }

  function Overwrite(row: Row, f: Figures): Row {
    row.(stock := f.stock, reserved := f.reserved)
  }

  /**
   * Every row the batch names carries the figures of one of its entries; which one, should a uuid be listed twice,
   * the join leaves open. No other row changes.
   */
  ghost predicate Overwritten(t: Table, batch: seq<Figures>, now: Table) {
    && now.Keys == t.Keys
    && forall u :: u in t ==> OneOf(t[u], u, batch, now[u])
  }

  ghost predicate OneOf(row: Row, u: Uuid, batch: seq<Figures>, now: Row) {
    if forall i :: 0 <= i < |batch| ==> batch[i].uuid != u then now == row
    else exists i :: 0 <= i < |batch| && batch[i].uuid == u && now == Overwrite(row, batch[i])
  }

  lemma OverwriteOne(t: Table, batch: seq<Figures>, i: nat, before: Table, now: Table)
    requires i < |batch| && Overwritten(t, batch[..i], before)
    requires now == if batch[i].uuid in before
                    then before[batch[i].uuid := Overwrite(before[batch[i].uuid], batch[i])] else before
    ensures Overwritten(t, batch[..i + 1], now)
  {
    forall u | u in t ensures OneOf(t[u], u, batch[..i + 1], now[u]) {
      assert OneOf(t[u], u, batch[..i], before[u]);
      if u == batch[i].uuid {
        assert batch[..i + 1][i].uuid == u && now[u] == Overwrite(t[u], batch[i]);
      } else if j :| 0 <= j < i && batch[..i][j].uuid == u && before[u] == Overwrite(t[u], batch[..i][j]) {
        assert batch[..i + 1][j].uuid == u;
      } else {
        assert forall j :: 0 <= j < i ==> batch[..i][j] == batch[j];
      }
    }
  }

  /** With every part listed once, the write is the pointwise update. */
  lemma OverwrittenIsUpdated(t: Table, op: PartOp, targets: seq<Uuid>, batch: seq<Figures>, now: Table)
    requires Distinct(targets) && |batch| == |targets| && Overwritten(t, batch, now)
    requires forall i :: 0 <= i < |targets| ==> targets[i] in t && batch[i].uuid == targets[i]
    requires forall i :: 0 <= i < |targets| ==> Overwrite(t[targets[i]], batch[i]) == After(op, t[targets[i]])
    ensures now == Updated(t, op, targets)
  {
    forall u | u in t ensures now[u] == if u in targets then After(op, t[u]) else t[u] {
      assert OneOf(t[u], u, batch, now[u]);
      if u in targets {
        var k :| 0 <= k < |targets| && targets[k] == u;
        assert batch[k].uuid == u;
      }
    }
  }

  class Repository {
    var table: Table

    constructor (table: Table)
      ensures this.table == table
    {
      this.table := table;
    }

    /** SELECT ... WHERE uuid IN (...) ORDER BY uuid; without a list every row, or those of a type, ORDER BY name. */
    method Select(f: Filter) returns (records: seq<Record>)
      ensures Selects(table, f, RecordUuids(records))
      ensures forall u :: u in RecordUuids(records) <==>
        && u in table
        && if f.uuids != [] then u in f.uuids else f.partType.None? || table[u].partType == f.partType.value
      ensures forall i, j :: 0 <= i < j < |records| ==>
        && records[i].uuid != records[j].uuid
        && if f.uuids != [] then records[i].uuid < records[j].uuid else records[i].row.name <= records[j].row.name
      ensures forall k :: 0 <= k < |records| ==> records[k].uuid in table && records[k].row == table[records[k].uuid]
    {
      var byName := f.uuids == [];
      var wanted := Chosen(table, f);
      var rest := wanted;
      records := [];
      ghost var order := [];
      while rest != {}
        invariant rest <= wanted <= table.Keys
        invariant Elements(order) == wanted - rest
        invariant Distinct(order) && Sorted(table, byName, order) && Precedes(table, byName, order, rest)
        invariant |records| == |order|
        invariant forall k :: 0 <= k < |order| ==> records[k] == Record(order[k], table[order[k]])
      {
        var u := LeastOf(rest, byName);
        TakeLeast(table, byName, order, rest, u);
        records := records + [Record(u, table[u])];
        order := order + [u];
        rest := rest - {u};
      }
      assert RecordUuids(records) == order;
      ChosenExact(table, f, order);
      InOrder(table, f, order);
    }

    method LeastOf(rest: set<Uuid>, byName: bool) returns (u: Uuid)
      requires rest != {} && rest <= table.Keys
      ensures Least(table, byName, rest, u)
    {
      ghost var least := LeastExists(table, byName, rest);
      assert least in rest && forall v :: v in rest ==> SortKey(table, byName, least) <= SortKey(table, byName, v);
      u :| u in rest && forall v :: v in rest ==> SortKey(table, byName, u) <= SortKey(table, byName, v);
    }

    /** mapAndOrder for a non-empty list: one fresh entity per requested uuid, in request order. */
    method MapAndOrder(records: seq<Record>, ids: seq<Uuid>) returns (parts: seq<Part>, err: Option<Error>)
      requires ids != []
      ensures err == MapError(ByUuid(records), ids)
      ensures err.None? ==> |parts| == |ids| && Distinct(parts)
      ensures err.None? ==> forall i :: 0 <= i < |parts| ==>
        && fresh(parts[i]) && parts[i].uuid == ids[i]
        && ids[i] in ByUuid(records) && parts[i].Value() == ByUuid(records)[ids[i]]
    {
      parts := [];
      var recordByUuid: map<Uuid, Row> := map[];
      for k := 0 to |records|
        invariant recordByUuid == ByUuid(records[..k])
      {
        assert records[..k + 1][..k] == records[..k];
        recordByUuid := recordByUuid[records[k].uuid := records[k].row];
      }
      assert records[..|records|] == records;
      if |recordByUuid| != |ids| {
        return parts, Some(PartNotFound);
      }
      for i := 0 to |ids|
        invariant |parts| == i && Distinct(parts)
        invariant forall j :: 0 <= j < i ==> fresh(parts[j]) && parts[j].uuid == ids[j]
        invariant forall j :: 0 <= j < i ==> ids[j] in recordByUuid && ConversionError(recordByUuid[ids[j]]).None?
        invariant forall j :: 0 <= j < i ==> parts[j].Value() == recordByUuid[ids[j]]
        invariant LookupError(recordByUuid, ids) == LookupError(recordByUuid, ids[i..])
      {
        if ids[i] !in recordByUuid {
          return parts, Some(PartNotFound);
        }
        var row := recordByUuid[ids[i]];
        if ConversionError(row).Some? {
          return parts, ConversionError(row);
        }
        assert ids[i..][1..] == ids[i + 1..];
        var part := new Part(ids[i], row);
        parts := parts + [part];
      }
      err := None;
    }

    /** The other branch of mapAndOrder: no list was given, so every record is taken as it comes. */
    method MapAll(records: seq<Record>) returns (parts: seq<Part>, err: Option<Error>)
      ensures err == FirstUnreadable(records)
      ensures err.None? ==> |parts| == |records| && Distinct(parts)
      ensures err.None? ==> forall i :: 0 <= i < |parts| ==>
        fresh(parts[i]) && parts[i].uuid == records[i].uuid && parts[i].Value() == records[i].row
    {
      parts := [];
      for i := 0 to |records|
        invariant |parts| == i && Distinct(parts)
        invariant FirstUnreadable(records) == FirstUnreadable(records[i..])
        invariant forall j :: 0 <= j < i ==> fresh(parts[j]) && parts[j].uuid == records[j].uuid
        invariant forall j :: 0 <= j < i ==> parts[j].Value() == records[j].row
      {
        if ConversionError(records[i].row).Some? {
          return parts, ConversionError(records[i].row);
        }
        assert records[i..][1..] == records[i + 1..];
        var part := new Part(records[i].uuid, records[i].row);
        parts := parts + [part];
      }
      err := None;
    }

    /** UpdateReservedBatch: both figures of every part, and an error when no row matched. */
    method UpdateReservedBatch(parts: seq<Part>) returns (err: Option<Error>, ghost batch: seq<Figures>)
      modifies this
      ensures |batch| == |parts|
      ensures forall i :: 0 <= i < |parts| ==>
        batch[i] == Figures(parts[i].uuid, parts[i].reserved, parts[i].stockQuantity)
      ensures Overwritten(old(table), batch, table)
      ensures err == if exists i :: 0 <= i < |batch| && batch[i].uuid in table then None else Some(NoPartWereUpdated)
    {
      var uuids := new Uuid[|parts|];
      var reservedVals := new int[|parts|];
      var stockQuantityVals := new int[|parts|];
      for i := 0 to |parts|
        modifies uuids, reservedVals, stockQuantityVals
        invariant forall j :: 0 <= j < i ==> uuids[j] == parts[j].uuid
        invariant forall j :: 0 <= j < i ==> reservedVals[j] == parts[j].reserved
        invariant forall j :: 0 <= j < i ==> stockQuantityVals[j] == parts[j].stockQuantity
      {
        uuids[i] := parts[i].uuid;
        reservedVals[i] := parts[i].reserved;
        stockQuantityVals[i] := parts[i].stockQuantity;
      }
      var rows := Unnest(uuids[..], reservedVals[..], stockQuantityVals[..]);
      batch := rows;
      var rowsAffected := UpdateRows(rows);
      if rowsAffected == 0 {
        return Some(NoPartWereUpdated), batch;
      }
      err := None;
    }

    /** UPDATE parts ... FROM batch WHERE uuid matches; the number of rows it touched. */
    method UpdateRows(batch: seq<Figures>) returns (rowsAffected: nat)
      modifies this
      ensures Overwritten(old(table), batch, table)
      ensures rowsAffected == 0 <==> forall j :: 0 <= j < |batch| ==> batch[j].uuid !in table
    {
      ghost var t := table;
      var touched: set<Uuid> := {};
      for i := 0 to |batch|
        invariant Overwritten(t, batch[..i], table)
        invariant touched == {} <==> forall j :: 0 <= j < i ==> batch[j].uuid !in t
      {
        ghost var before := table;
        var f := batch[i];
        if f.uuid in table {
          table := table[f.uuid := Overwrite(table[f.uuid], f)];
          touched := touched + {f.uuid};
        }
        OverwriteOne(t, batch, i, before, table);
      }
      assert batch[..|batch|] == batch;
      rowsAffected := |touched|;
    }

    /** Reserve, Release and Commit of the application service: one transaction over the selected rows. */
    method ChangeParts(op: PartOp, ids: seq<Uuid>) returns (err: Option<Error>, ghost targets: seq<Uuid>)
      modifies this
      ensures if ids == [] then Selects(old(table), Only([]), targets) else targets == ids
      ensures err == Outcome(old(table), op, targets)
      ensures err.None? <==> Accepts(old(table), op, targets)
      ensures table == Batch(old(table), op, targets)
    {
      var parts: seq<Part>;
      parts, err, targets := List(Only(ids));
      OutcomeExact(table, op, targets);
      if err.Some? {
        return;
      }
      err := PerformAll(op, parts, targets);
      if err.Some? {
        return;
      }
      err := WriteBack(op, parts, targets);
    }

    /** The changed entities are written back. */
    method WriteBack(op: PartOp, parts: seq<Part>, ghost targets: seq<Uuid>) returns (err: Option<Error>)
      requires |parts| == |targets| && Distinct(targets)
      requires forall i :: 0 <= i < |parts| ==>
        targets[i] in table && parts[i].uuid == targets[i] && parts[i].Value() == After(op, table[targets[i]])
      modifies this
      ensures err == if targets == [] then Some(NoPartWereUpdated) else None
      ensures table == Updated(old(table), op, targets)
    {
      ghost var batch;
      err, batch := UpdateReservedBatch(parts);
      if targets != [] {
        assert batch[0].uuid in table;
      }
      OverwrittenIsUpdated(old(table), op, targets, batch, table);
    }

    /** List and ListForUpdate: the selected rows as entities, in request order for a list, else in name order. */
    method List(f: Filter) returns (parts: seq<Part>, err: Option<Error>, ghost targets: seq<Uuid>)
      ensures if f.uuids == [] then Selects(table, f, targets) else targets == f.uuids
      ensures f.uuids == [] ==>
        && (forall u :: u in targets <==> u in table && (f.partType.None? || table[u].partType == f.partType.value))
        && (forall i, j :: 0 <= i < j < |targets| ==>
              targets[i] != targets[j] && table[targets[i]].name <= table[targets[j]].name)
      ensures err == ListError(table, targets)
      ensures err.None? ==> |parts| == |targets| && Distinct(parts)
      ensures err.None? ==> forall i :: 0 <= i < |parts| ==>
        fresh(parts[i]) && targets[i] in table && parts[i].uuid == targets[i] && parts[i].Value() == table[targets[i]]
    {
      var records := Select(f);
      ghost var order := RecordUuids(records);
      var ids := f.uuids;
      targets := if ids == [] then order else ids;
      if ids == [] {
        ChosenExact(table, f, order);
        InOrder(table, f, order);
        UnreadableByOrder(table, records, order);
        parts, err := MapAll(records);
      } else {
        SelectionByUuid(table, ids, records, order);
        MapAgreesWithLookup(table, ByUuid(records), ids);
        parts, err := MapAndOrder(records, ids);
      }
    }

    /** The loop of the service: every entity in turn, stopping at the first refusal. */
    method PerformAll(op: PartOp, parts: seq<Part>, ghost targets: seq<Uuid>) returns (err: Option<Error>)
      requires Distinct(parts) && |parts| == |targets|
      requires forall i :: 0 <= i < |parts| ==> parts[i].uuid == targets[i] && targets[i] in table
      requires forall i :: 0 <= i < |parts| ==> parts[i].Value() == table[targets[i]]
      modifies parts
      ensures err == FirstRefusal(table, op, targets)
      ensures err.None? ==> forall i :: 0 <= i < |parts| ==> parts[i].Value() == After(op, table[targets[i]])
    {
      for i := 0 to |parts|
        invariant FirstRefusal(table, op, targets) == FirstRefusal(table, op, targets[i..])
        invariant forall j :: 0 <= j < i ==> parts[j].Value() == After(op, table[targets[j]])
        invariant forall j :: i <= j < |parts| ==> parts[j].Value() == table[targets[j]]
      {
        assert targets[i..][1..] == targets[i + 1..];
        err := parts[i].Perform(op);
        if err.Some? {
          return;
        }
      }
      err := None;
    }
  }
}
