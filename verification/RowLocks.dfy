/**
 * Concurrent transactions under row locks. A transaction may first lock an order row (SELECT ... FOR UPDATE in
 * the order database), then locks the part rows of one inventory call, reads each row when its lock is granted,
 * decides from what it read, writes, and releases. Any number of transactions interleave in any order and
 * any of them may be aborted before it has written.
 */
module RowLocks {
  import opened Prelude
  import opened Parts
  import opened BatchSpec
  import opened InventoryService

  datatype Resource = OrderRow(id: Uuid) | PartRow(id: Uuid)

  datatype Phase =
    | Start                              // about to lock the order row, if there is one
    | Locking(got: nat)                  // holds the order row and the first `got` part rows
    | Decided(result: Option<Error>)     // holds every row; the answer is known, nothing is written yet
    | Closing(result: Option<Error>)     // the inventory transaction is over; only the order row is still held
    | Done(result: Option<Error>)
    | Aborted

  // `rows` are the part rows in the order the query locks them.
  datatype Txn = Txn(order: Option<Uuid>, call: Option<Call>, rows: seq<Uuid>, phase: Phase, seen: Table)

  // One finished inventory call, in commit order.
  datatype Entry = Entry(txn: nat, call: Call, result: Option<Error>)

  datatype State = State(table: Table, txns: seq<Txn>, log: seq<Entry>)

  datatype Event = Step(txn: nat) | Abort(txn: nat)

  /** A call without a list means the whole catalogue, in the order this query has locked it. */
  function Effective(x: Txn): Call
    requires x.call.Some?
  {
    if x.call.value.targets == [] then Call(x.call.value.op, x.rows) else x.call.value
  }

  /**
   * The lock order of buildListQuery: ascending uuid for a list; name order for the whole catalogue, where every
   * query settles for itself in which order it takes parts of the same name.
   */
  ghost predicate Planned(t: Table, x: Txn) {
    if x.call.None? then x.rows == [] else Selects(t, Only(x.call.value.targets), x.rows)
  }

  ghost predicate Initial(t: Table, s: State) {
    && s.table == t && s.log == []
    && forall i :: 0 <= i < |s.txns| ==>
         Planned(t, s.txns[i]) && s.txns[i].phase == Start && s.txns[i].seen == map[]
  }

  function HeldRows(x: Txn): seq<Uuid> {
    match x.phase
    case Locking(got) => if got <= |x.rows| then x.rows[..got] else x.rows
    case Decided(_) => x.rows
    case _ => []
  }

  predicate Holds(x: Txn, r: Resource) {
    match r
    case PartRow(u) => u in HeldRows(x)
    case OrderRow(o) => x.order == Some(o) && (x.phase.Locking? || x.phase.Decided? || x.phase.Closing?)
  }

  /** The lock a transaction needs before it can go on. */
  function Wants(x: Txn): Option<Resource> {
    match x.phase
    case Start => if x.order.Some? then Some(OrderRow(x.order.value)) else None
    case Locking(got) => if got < |x.rows| then Some(PartRow(x.rows[got])) else None
    case _ => None
  }

  predicate Over(x: Txn) {
    x.phase.Done? || x.phase.Aborted?
  }

  predicate WaitsFor(s: State, i: nat, j: nat) {
    && i < |s.txns| && j < |s.txns| && i != j
    && Wants(s.txns[i]).Some? && Holds(s.txns[j], Wants(s.txns[i]).value)
  }

  predicate CanStep(s: State, i: nat) {
    i < |s.txns| && !Over(s.txns[i]) && forall j | 0 <= j < |s.txns| :: !WaitsFor(s, i, j)
  }

  predicate Enabled(s: State, e: Event) {
    match e
    case Step(i) => CanStep(s, i)
    case Abort(i) => i < |s.txns| && (s.txns[i].phase.Start? || s.txns[i].phase.Locking? || s.txns[i].phase.Decided?)
  }

  function Advance(t: Table, x: Txn): Txn {
    match x.phase
    case Start => x.(phase := Locking(0))
    case Locking(got) =>
      if got < |x.rows| then
        var u := x.rows[got];
        x.(phase := Locking(got + 1), seen := if u in t then x.seen[u := t[u]] else x.seen)
      else if x.call.None? then x.(phase := Decided(None))
      else
        var c := Effective(x);
        x.(phase := Decided(Outcome(x.seen, c.op, c.targets)))
    case Decided(result) => x.(phase := Closing(result))
    case Closing(result) => x.(phase := Done(result))
    case _ => x
  }

  function Written(x: Txn): Table {
    if x.phase == Decided(None) && x.call.Some?
    then map u | u in x.seen :: After(x.call.value.op, x.seen[u])
    else map[]
  }

  function Apply(s: State, e: Event): State
    requires Enabled(s, e)
  {
    var x := s.txns[e.txn];
    match e
    case Abort(i) => s.(txns := s.txns[i := x.(phase := Aborted)])
    case Step(i) =>
      State(s.table + Written(x),
            s.txns[i := Advance(s.table, x)],
            if x.phase.Decided? && x.call.Some?
            then s.log + [Entry(i, Effective(x), x.phase.result)] else s.log)
  }

  ghost predicate Runs(s: State, es: seq<Event>)
    decreases |es|, 0
  {
    es == [] || (Runs(s, es[..|es| - 1]) && Enabled(Exec(s, es[..|es| - 1]), es[|es| - 1]))
  }

  ghost function Exec(s: State, es: seq<Event>): State
    requires Runs(s, es)
    decreases |es|, 1
  {
    if es == [] then s else Apply(Exec(s, es[..|es| - 1]), es[|es| - 1])
  }

  // ---- invariants ----

  /** Per transaction: its plan, and that what it has read is still what the table holds. */
  ghost predicate TxnOk(t0: Table, t: Table, x: Txn) {
    && Planned(t0, x)
    && Distinct(x.rows) && Elements(x.rows) <= t0.Keys
    && (x.phase.Locking? ==> x.phase.got <= |x.rows|)
    && (x.phase.Start? || x.phase.Locking? || x.phase.Decided? ==>
          && x.seen.Keys == Elements(HeldRows(x))
          && forall u :: u in x.seen ==> u in t && x.seen[u] == t[u])
    && (x.phase.Decided? ==>
          x.phase.result == (match x.call
                             case None => None
                             case Some(c) => Outcome(t, c.op, Effective(x).targets)))
  }

  ghost predicate Exclusive(s: State) {
    forall i, j, r :: 0 <= i < |s.txns| && 0 <= j < |s.txns| && Holds(s.txns[i], r) && Holds(s.txns[j], r) ==> i == j
  }

  function Replay(t: Table, log: seq<Entry>): Table {
    if log == [] then t
    else
      var last := log[|log| - 1];
      Batch(Replay(t, log[..|log| - 1]), last.call.op, last.call.targets)
  }

  /** Every logged answer is the answer of the same call run alone on the table left by its predecessors. */
  ghost predicate Explained(t: Table, log: seq<Entry>) {
    forall k :: 0 <= k < |log| ==>
      log[k].result == Outcome(Replay(t, log[..k]), log[k].call.op, log[k].call.targets)
  }

  predicate Answered(x: Txn) {
    x.call.Some? && (x.phase.Closing? || x.phase.Done?)
  }

  ghost predicate Logged(log: seq<Entry>, i: nat) {
    exists k :: 0 <= k < |log| && log[k].txn == i
  }

  /** The log lists exactly the calls that have been answered, once each, with their answers. */
  ghost predicate LogMatches(s: State) {
    && (forall k :: 0 <= k < |s.log| ==>
          var e := s.log[k];
          && e.txn < |s.txns| && Answered(s.txns[e.txn])
          && e.call == Effective(s.txns[e.txn]) && e.result == s.txns[e.txn].phase.result)
    && (forall j, k :: 0 <= j < k < |s.log| ==> s.log[j].txn != s.log[k].txn)
    && (forall i :: 0 <= i < |s.txns| && Answered(s.txns[i]) ==> Logged(s.log, i))
  }

  ghost predicate Inv(t0: Table, s: State) {
    && s.table.Keys == t0.Keys
    && (forall i :: 0 <= i < |s.txns| ==> TxnOk(t0, s.table, s.txns[i]))
    && Exclusive(s)
    && s.table == Replay(t0, s.log)
    && Explained(t0, s.log)
    && LogMatches(s)
  }

  // ---- every step keeps the invariant ----

  /** Whichever way a call is written, its locked rows are exactly the rows its answer depends on. */
  lemma RowsCoverTargets(t0: Table, x: Txn)
    requires Planned(t0, x) && x.call.Some?
    ensures Elements(x.rows) == Elements(Effective(x).targets) * t0.Keys
  {
  }

  lemma AnswerFromReads(t0: Table, t: Table, x: Txn)
    requires t.Keys == t0.Keys && Planned(t0, x) && x.call.Some?
    requires x.seen.Keys == Elements(x.rows)
    requires forall u :: u in x.seen ==> u in t && x.seen[u] == t[u]
    ensures var c := Effective(x);
            Outcome(x.seen, c.op, c.targets) == Outcome(t, c.op, c.targets)
  {
    RowsCoverTargets(t0, x);
    var c := Effective(x);
    forall u | u in c.targets ensures u in x.seen <==> u in t {
      assert u in Elements(c.targets);
    }
    OutcomeLocal(x.seen, t, c.op, c.targets);
  }

  /** Writing what was computed from the locked rows is the atomic batch on the current table. */
  lemma WriteIsBatch(t0: Table, t: Table, x: Txn)
    requires t.Keys == t0.Keys && TxnOk(t0, t, x)
    requires x.phase.Decided? && x.call.Some?
    ensures var c := Effective(x);
            t + Written(x) == Batch(t, c.op, c.targets)
  {
    RowsCoverTargets(t0, x);
    var c := Effective(x);
    OutcomeExact(t, c.op, c.targets);
    if x.phase.result.None? {
      WrittenRows(t, x, c);
    }
  }

  lemma WrittenRows(t: Table, x: Txn, c: Call)
    requires x.phase == Decided(None) && x.call.Some? && c.op == x.call.value.op
    requires x.seen.Keys == Elements(c.targets) * t.Keys && forall u :: u in x.seen ==> x.seen[u] == t[u]
    ensures t + Written(x) == Updated(t, c.op, c.targets)
  {
    forall u | u in t ensures u in x.seen <==> u in c.targets {
      assert u in c.targets <==> u in Elements(c.targets);
    }
  }

  /** A transaction notices nothing of a write to rows it does not hold. */
  lemma OthersUndisturbed(t0: Table, t: Table, now: Table, y: Txn)
    requires TxnOk(t0, t, y)
    requires now.Keys == t.Keys == t0.Keys
    requires forall u :: u in HeldRows(y) ==> u in t && now[u] == t[u]
    ensures TxnOk(t0, now, y)
  {
    if y.phase.Decided? && y.call.Some? {
      RowsCoverTargets(t0, y);
      var c := Effective(y);
      forall u | u in c.targets && u in t ensures now[u] == t[u] {
        assert u in Elements(c.targets);
        assert u in Elements(y.rows);
      }
      OutcomeLocal(t, now, c.op, c.targets);
    }
  }

  lemma LockRowOk(t0: Table, t: Table, x: Txn)
    requires t.Keys == t0.Keys && TxnOk(t0, t, x)
    requires x.phase.Locking? && x.phase.got < |x.rows|
    ensures TxnOk(t0, t, Advance(t, x))
  {
    var y, got := Advance(t, x), x.phase.got;
    assert x.rows[got] in Elements(x.rows);
    assert x.rows[..got + 1] == x.rows[..got] + [x.rows[got]];
    assert Elements(HeldRows(y)) == Elements(HeldRows(x)) + {x.rows[got]};
  }

  lemma DecideOk(t0: Table, t: Table, x: Txn)
    requires t.Keys == t0.Keys && TxnOk(t0, t, x)
    requires x.phase.Locking? && x.phase.got == |x.rows|
    ensures TxnOk(t0, t, Advance(t, x))
  {
    assert x.rows[..x.phase.got] == x.rows;
    if x.call.Some? {
      AnswerFromReads(t0, t, x);
    }
  }

  lemma AdvanceOk(t0: Table, t: Table, now: Table, x: Txn)
    requires t.Keys == t0.Keys && TxnOk(t0, t, x)
    requires x.phase.Decided? || now == t
    ensures TxnOk(t0, now, Advance(t, x))
  {
    match x.phase
    case Locking(got) =>
      if got < |x.rows| {
        LockRowOk(t0, t, x);
      } else {
        DecideOk(t0, t, x);
      }
    case _ =>
  }

  lemma ExclusiveKept(s: State, e: Event)
    requires Exclusive(s) && Enabled(s, e)
    requires s.txns[e.txn].phase.Locking? ==> s.txns[e.txn].phase.got <= |s.txns[e.txn].rows|
    ensures Exclusive(Apply(s, e))
  {
    var s' := Apply(s, e);
    var x, y := s.txns[e.txn], s'.txns[e.txn];
    forall r | Holds(y, r) && !Holds(x, r)
      ensures forall j :: 0 <= j < |s.txns| && j != e.txn ==> !Holds(s.txns[j], r)
    {
      if x.phase.Locking? && x.phase.got < |x.rows| {
        assert x.rows[..x.phase.got + 1] == x.rows[..x.phase.got] + [x.rows[x.phase.got]];
      }
      assert Wants(x) == Some(r);
      forall j | 0 <= j < |s.txns| && j != e.txn ensures !Holds(s.txns[j], r) {
        assert !WaitsFor(s, e.txn, j);
      }
    }
  }

  /** The rows a transaction writes are rows it holds, so no other one holds them. */
  lemma WritesOwnRows(t: Table, x: Txn, y: Txn)
    requires x.seen.Keys == Elements(HeldRows(x)) || !x.phase.Decided?
    requires forall u :: u in HeldRows(y) ==> u !in HeldRows(x) && u in t
    ensures forall u :: u in HeldRows(y) ==> (t + Written(x))[u] == t[u]
  {
    forall u | u in Written(x) ensures u in HeldRows(x) {
      assert u in x.seen;
    }
  }

  lemma {:induction false} OtherKept(t0: Table, s: State, i: nat, j: nat)
    requires s.table.Keys == t0.Keys && Exclusive(s) && i < |s.txns| && j < |s.txns| && j != i
    requires TxnOk(t0, s.table, s.txns[i]) && TxnOk(t0, s.table, s.txns[j])
    requires (s.table + Written(s.txns[i])).Keys == t0.Keys
    ensures TxnOk(t0, s.table + Written(s.txns[i]), s.txns[j])
  {
    var x, y := s.txns[i], s.txns[j];
    forall u | u in HeldRows(y) ensures u !in HeldRows(x) && u in s.table {
      assert Holds(y, PartRow(u)) && !Holds(x, PartRow(u));
      assert u in Elements(y.rows);
    }
    WritesOwnRows(s.table, x, y);
    OthersUndisturbed(t0, s.table, s.table + Written(x), y);
  }

  lemma {:induction false} TxnsKept(t0: Table, s: State, i: nat)
    requires s.table.Keys == t0.Keys && Exclusive(s) && CanStep(s, i)
    requires forall j :: 0 <= j < |s.txns| ==> TxnOk(t0, s.table, s.txns[j])
    ensures var s' := Apply(s, Step(i));
            && s'.table.Keys == t0.Keys
            && forall j :: 0 <= j < |s'.txns| ==> TxnOk(t0, s'.table, s'.txns[j])
  {
    var x := s.txns[i];
    assert TxnOk(t0, s.table, x);
    var now := s.table + Written(x);
    assert now.Keys == t0.Keys;
    if !x.phase.Decided? {
      assert now == s.table;
    }
    AdvanceOk(t0, s.table, now, x);
    forall j | 0 <= j < |s.txns| && j != i ensures TxnOk(t0, now, s.txns[j]) {
      OtherKept(t0, s, i, j);
    }
  }

  lemma ExplainedAppend(t0: Table, log: seq<Entry>, e: Entry)
    requires Explained(t0, log) && e.result == Outcome(Replay(t0, log), e.call.op, e.call.targets)
    ensures Replay(t0, log + [e]) == Batch(Replay(t0, log), e.call.op, e.call.targets)
    ensures Explained(t0, log + [e])
  {
    var longer := log + [e];
    assert longer[..|log|] == log;
    forall k | 0 <= k < |longer|
      ensures longer[k].result == Outcome(Replay(t0, longer[..k]), longer[k].call.op, longer[k].call.targets)
    {
      if k < |log| {
        assert longer[..k] == log[..k];
      }
    }
  }

  lemma ReplayKept(t0: Table, s: State, i: nat)
    requires s.table.Keys == t0.Keys && CanStep(s, i)
    requires TxnOk(t0, s.table, s.txns[i])
    requires s.table == Replay(t0, s.log) && Explained(t0, s.log)
    ensures var s' := Apply(s, Step(i));
            s'.table == Replay(t0, s'.log) && Explained(t0, s'.log)
  {
    var x := s.txns[i];
    if x.phase.Decided? && x.call.Some? {
      WriteIsBatch(t0, s.table, x);
      ExplainedAppend(t0, s.log, Entry(i, Effective(x), x.phase.result));
    } else {
      assert Written(x) == map[];
    }
  }

  /** A transaction that gets its answer now is logged now. */
  lemma LogAppended(s: State, s': State, i: nat)
    requires LogMatches(s) && i < |s.txns| && s.txns[i].call.Some? && !Answered(s.txns[i])
    requires |s'.txns| == |s.txns| && s'.txns == s.txns[i := s'.txns[i]] && Answered(s'.txns[i])
    requires s'.log == s.log + [Entry(i, Effective(s'.txns[i]), s'.txns[i].phase.result)]
    ensures LogMatches(s')
  {
    forall j | 0 <= j < |s'.txns| && Answered(s'.txns[j]) ensures Logged(s'.log, j) {
      if j == i {
        assert s'.log[|s.log|].txn == i;
      } else {
        assert Logged(s.log, j);
        var k :| 0 <= k < |s.log| && s.log[k].txn == j;
        assert s'.log[k].txn == j;
      }
    }
  }

  /** Any other step leaves the log and every answer as they are. */
  lemma LogUntouched(s: State, s': State, i: nat)
    requires LogMatches(s) && i < |s.txns| && s'.log == s.log
    requires |s'.txns| == |s.txns| && s'.txns == s.txns[i := s'.txns[i]]
    requires Answered(s'.txns[i]) <==> Answered(s.txns[i])
    requires Answered(s.txns[i]) ==>
      Effective(s'.txns[i]) == Effective(s.txns[i]) && s'.txns[i].phase.result == s.txns[i].phase.result
    ensures LogMatches(s')
  {
    forall j | 0 <= j < |s'.txns| && Answered(s'.txns[j]) ensures Logged(s'.log, j) {
      assert Answered(s.txns[j]);
    }
  }

  lemma LogKept(s: State, e: Event)
    requires LogMatches(s) && Enabled(s, e)
    ensures LogMatches(Apply(s, e))
  {
    var x := s.txns[e.txn];
    if e.Step? && x.phase.Decided? && x.call.Some? {
      LogAppended(s, Apply(s, e), e.txn);
    } else {
      LogUntouched(s, Apply(s, e), e.txn);
    }
  }

  lemma AbortedOk(t0: Table, t: Table, x: Txn)
    requires TxnOk(t0, t, x)
    ensures TxnOk(t0, t, x.(phase := Aborted))
  {
  }

  lemma {:induction false} InvStep(t0: Table, s: State, e: Event)
    requires Inv(t0, s) && Enabled(s, e)
    ensures Inv(t0, Apply(s, e))
  {
    assert TxnOk(t0, s.table, s.txns[e.txn]);
    ExclusiveKept(s, e);
    LogKept(s, e);
    if e.Step? {
      TxnsKept(t0, s, e.txn);
      ReplayKept(t0, s, e.txn);
    } else {
      AbortedOk(t0, s.table, s.txns[e.txn]);
    }
  }

  lemma InitialInv(t: Table, s: State)
    requires Initial(t, s)
    ensures Inv(t, s)
  {
    forall i | 0 <= i < |s.txns| ensures TxnOk(t, s.table, s.txns[i]) {
      var x := s.txns[i];
      if x.call.Some? {
        RowsCoverTargets(t, x);
      }
    }
  }

  lemma {:induction false} InvRun(t: Table, s: State, es: seq<Event>)
    requires Initial(t, s) && Runs(s, es)
    ensures Inv(t, Exec(s, es))
  {
    if es == [] {
      InitialInv(t, s);
    } else {
      InvRun(t, s, es[..|es| - 1]);
      InvStep(t, Exec(s, es[..|es| - 1]), es[|es| - 1]);
    }
  }

  /**
   * Serializability: however the transactions interleave, the table and every answer given are those of
   * running the answered calls one at a time in commit order. Aborted transactions leave no trace.
   */
  lemma {:induction false} Serializable(t: Table, s: State, es: seq<Event>)
    requires Initial(t, s) && Runs(s, es)
    ensures var end := Exec(s, es);
            end.table == Replay(t, end.log) && Explained(t, end.log) && LogMatches(end)
  {
    InvRun(t, s, es);
  }

  function Calls(log: seq<Entry>): seq<Call> {
    if log == [] then [] else Calls(log[..|log| - 1]) + [log[|log| - 1].call]
  }

  lemma {:induction false} ReplayIsRunCalls(t: Table, log: seq<Entry>)
    ensures Replay(t, log) == RunCalls(t, Calls(log))
  {
    if log != [] {
      var init, last := log[..|log| - 1], log[|log| - 1];
      ReplayIsRunCalls(t, init);
      RunCallsAppend(t, Calls(init), last.call);
      assert Calls(log) == Calls(init) + [last.call];
    }
  }

  lemma RunCallsAppend(t: Table, calls: seq<Call>, c: Call)
    ensures RunCalls(t, calls + [c]) == Batch(RunCalls(t, calls), c.op, c.targets)
  {
    assert (calls + [c])[..|calls|] == calls;
  }

  /** So nothing is oversold under concurrency either, and every part accounts for the calls that were accepted. */
  lemma {:induction false} ConcurrentNoOverselling(t: Table, s: State, es: seq<Event>, u: Uuid)
    requires SoundTable(t) && Initial(t, s) && Runs(s, es) && u in t
    ensures var end, calls := Exec(s, es), Calls(Exec(s, es).log);
            && u in end.table && Sound(end.table[u]) && SameIdentity(t[u], end.table[u])
            && end.table[u].stock == t[u].stock - Performed(t, calls, Commit, u)
            && end.table[u].reserved == t[u].reserved + Performed(t, calls, Reserve, u)
                                        - Performed(t, calls, Release, u) - Performed(t, calls, Commit, u)
  {
    Serializable(t, s, es);
    var log := Exec(s, es).log;
    ReplayIsRunCalls(t, log);
    NoOverselling(t, Calls(log));
  }

  // ---- deadlock freedom and termination ----

  predicate Finished(s: State) {
    forall i | 0 <= i < |s.txns| :: Over(s.txns[i])
  }

  predicate Stuck(s: State) {
    !Finished(s) && forall i | 0 <= i < |s.txns| :: !CanStep(s, i)
  }

  /** Order rows rank below part rows; rows of one kind rank by uuid. */
  predicate Below(a: Resource, b: Resource) {
    (a.OrderRow? && b.PartRow?) || (a.OrderRow? == b.OrderRow? && a.id < b.id)
  }

  /** Whoever holds a lock and still wants one wants a higher one. */
  lemma HolderWantsHigher(x: Txn, r: Resource)
    requires Ascending(x.rows) && Holds(x, r) && Wants(x).Some?
    ensures Below(r, Wants(x).value)
  {
  }

  lemma WaitRises(s: State, i: nat, j: nat)
    requires WaitsFor(s, i, j) && Ascending(s.txns[j].rows) && Wants(s.txns[j]).Some?
    ensures Below(Wants(s.txns[i]).value, Wants(s.txns[j]).value)
  {
    HolderWantsHigher(s.txns[j], Wants(s.txns[i]).value);
  }

  ghost predicate WaitPath(s: State, path: seq<nat>) {
    forall k :: 0 <= k < |path| - 1 ==> WaitsFor(s, path[k], path[k + 1])
  }

  /** The wait-for graph is acyclic: along any path of waits the wanted lock only rises. */
  lemma {:induction false} NoWaitCycle(s: State, path: seq<nat>)
    requires forall i :: 0 <= i < |s.txns| ==> Ascending(s.txns[i].rows)
    requires |path| >= 2 && WaitPath(s, path)
    ensures WaitsFor(s, path[0], path[1]) && WaitsFor(s, path[|path| - 2], path[|path| - 1])
    ensures path[0] != path[|path| - 1]
    ensures Wants(s.txns[path[|path| - 1]]).Some? ==>
      Below(Wants(s.txns[path[0]]).value, Wants(s.txns[path[|path| - 1]]).value)
  {
    var n := |path| - 1;
    assert WaitsFor(s, path[n - 1], path[n]);
    if n >= 2 {
      var shorter := path[..n];
      assert WaitPath(s, shorter) by {
        forall k | 0 <= k < |shorter| - 1 ensures WaitsFor(s, shorter[k], shorter[k + 1]) {
          assert WaitsFor(s, path[k], path[k + 1]);
        }
      }
      NoWaitCycle(s, shorter);
      assert WaitsFor(s, path[0], path[1]);
    }
    if Wants(s.txns[path[n]]).Some? {
      WaitRises(s, path[n - 1], path[n]);
    }
  }

  /** Of the waiting transactions, one that wants a highest lock. */
  lemma TopWaiter(s: State) returns (top: nat)
    requires !Finished(s)
    requires forall i :: 0 <= i < |s.txns| && !Over(s.txns[i]) ==> Wants(s.txns[i]).Some?
    ensures top < |s.txns| && !Over(s.txns[top])
    ensures forall i :: 0 <= i < |s.txns| && !Over(s.txns[i]) ==>
      !Below(Wants(s.txns[top]).value, Wants(s.txns[i]).value)
  {
    top :| 0 <= top < |s.txns| && !Over(s.txns[top]);
    for k := 0 to |s.txns|
      invariant 0 <= top < |s.txns| && !Over(s.txns[top])
      invariant forall i :: 0 <= i < k && !Over(s.txns[i]) ==> !Below(Wants(s.txns[top]).value, Wants(s.txns[i]).value)
    {
      if !Over(s.txns[k]) && Below(Wants(s.txns[top]).value, Wants(s.txns[k]).value) {
        top := k;
      }
    }
  }

  /** With ascending lock orders some unfinished transaction can always go on. */
  lemma {:induction false} NeverStuck(s: State)
    requires forall i :: 0 <= i < |s.txns| ==> Ascending(s.txns[i].rows)
    ensures !Stuck(s)
  {
    if !Finished(s) {
      if i :| 0 <= i < |s.txns| && !Over(s.txns[i]) && Wants(s.txns[i]).None? {
        assert CanStep(s, i);
      } else {
        var top := TopWaiter(s);
        forall j | 0 <= j < |s.txns| ensures !WaitsFor(s, top, j) {
          if WaitsFor(s, top, j) {
            assert !Over(s.txns[j]);
            WaitRises(s, top, j);
          }
        }
        assert CanStep(s, top);
      }
    }
  }

  function Remaining(x: Txn): nat {
    match x.phase
    case Start => |x.rows| + 4
    case Locking(got) => (if got <= |x.rows| then |x.rows| - got else 0) + 3
    case Decided(_) => 2
    case Closing(_) => 1
    case _ => 0
  }

  /** The steps all transactions together have left. */
  function Measure(txns: seq<Txn>): nat {
    if txns == [] then 0 else Measure(txns[..|txns| - 1]) + Remaining(txns[|txns| - 1])
  }

  lemma {:induction false} MeasureUpdate(txns: seq<Txn>, i: nat, y: Txn)
    requires i < |txns|
    ensures Measure(txns[i := y]) + Remaining(txns[i]) == Measure(txns) + Remaining(y)
  {
    var n := |txns| - 1;
    if i == n {
      assert txns[i := y][..n] == txns[..n];
    } else {
      MeasureUpdate(txns[..n], i, y);
      assert txns[i := y][..n] == txns[..n][i := y];
    }
  }

  lemma EventSpendsMeasure(s: State, e: Event)
    requires Enabled(s, e)
    ensures Measure(Apply(s, e).txns) < Measure(s.txns)
  {
    MeasureUpdate(s.txns, e.txn, Apply(s, e).txns[e.txn]);
  }

  /** No run is longer than the measure of its first state. */
  lemma {:induction false} RunsAreFinite(s: State, es: seq<Event>)
    requires Runs(s, es)
    ensures |es| + Measure(Exec(s, es).txns) <= Measure(s.txns)
  {
    if es != [] {
      RunsAreFinite(s, es[..|es| - 1]);
      EventSpendsMeasure(Exec(s, es[..|es| - 1]), es[|es| - 1]);
    }
  }

  /** No workload and no interleaving on catalogue t ever gets stuck. */
  ghost predicate DeadlockFree(t: Table) {
    forall s, es :: Initial(t, s) && Runs(s, es) ==> !Stuck(Exec(s, es))
  }

  /**
   * Transactions that name their parts never deadlock, whatever the catalogue; and a run that cannot be
   * continued has finished every transaction.
   */
  lemma {:induction false} NamedPartsNeverDeadlock(t: Table, s: State, es: seq<Event>)
    requires Initial(t, s) && Runs(s, es)
    requires forall i :: 0 <= i < |s.txns| && s.txns[i].call.Some? ==> s.txns[i].call.value.targets != []
    ensures !Stuck(Exec(s, es))
    ensures |es| <= Measure(s.txns)
    ensures (forall i :: !CanStep(Exec(s, es), i)) ==> Finished(Exec(s, es))
    ensures forall path: seq<nat> :: |path| >= 2 && WaitPath(Exec(s, es), path) ==> path[0] != path[|path| - 1]
  {
    RunsAreFinite(s, es);
    RowsFixed(s, es);
    forall i | 0 <= i < |s.txns| ensures Ascending(s.txns[i].rows) {
      PlanAscends(t, s.txns[i]);
    }
    NeverStuck(Exec(s, es));
    forall path: seq<nat> | |path| >= 2 && WaitPath(Exec(s, es), path) ensures path[0] != path[|path| - 1] {
      NoWaitCycle(Exec(s, es), path);
    }
  }

  /** A list is locked in ascending order; so is the whole catalogue when names rise with uuids. */
  lemma PlanAscends(t: Table, x: Txn)
    requires Planned(t, x)
    requires x.call.Some? && x.call.value.targets == [] ==> NamesRise(t)
    ensures Ascending(x.rows)
  {
    forall i, j | 0 <= i < j < |x.rows| ensures x.rows[i] < x.rows[j] {
      var byName := x.call.value.targets == [];
      assert SortKey(t, byName, x.rows[i]) <= SortKey(t, byName, x.rows[j]);
    }
  }

  lemma {:induction false} RowsFixed(s: State, es: seq<Event>)
    requires Runs(s, es)
    ensures |Exec(s, es).txns| == |s.txns|
    ensures forall i :: 0 <= i < |s.txns| ==> Exec(s, es).txns[i].rows == s.txns[i].rows
  {
    if es != [] {
      RowsFixed(s, es[..|es| - 1]);
    }
  }

  // ---- the whole-catalogue call orders by name: exactly when that is safe ----

  /** A higher uuid always has a higher name. */
  ghost predicate NamesRise(t: Table) {
    forall u, v :: u in t && v in t && u < v ==> t[u].name < t[v].name
  }

  lemma {:induction false} DescentExists(s: seq<nat>) returns (k: nat)
    requires !Ascending(s)
    ensures k + 1 < |s| && s[k] >= s[k + 1]
  {
    var n := |s| - 1;
    if !Ascending(s[..n]) {
      k := DescentExists(s[..n]);
    } else {
      k := n - 1;
    }
  }

  lemma PrependLeast(t: Table, least: Uuid, tail: seq<Uuid>)
    requires least in t && least !in tail && Distinct(tail) && Sorted(t, true, tail)
    requires forall v :: v in tail ==> SortKey(t, true, least) <= SortKey(t, true, v)
    ensures Distinct([least] + tail) && Sorted(t, true, [least] + tail)
    ensures Elements([least] + tail) == {least} + Elements(tail)
  {
  }

  /** Any set of parts can be put in name order. */
  lemma {:induction false} NameOrderExists(t: Table, rest: set<Uuid>) returns (rows: seq<Uuid>)
    requires rest <= t.Keys
    ensures Distinct(rows) && Sorted(t, true, rows) && Elements(rows) == rest
  {
    rows := [];
    if rest != {} {
      var least := LeastExists(t, true, rest);
      var tail := NameOrderExists(t, rest - {least});
      assert forall v :: v in tail <==> v in Elements(tail);
      PrependLeast(t, least, tail);
      rows := [least] + tail;
      assert {least} + (rest - {least}) == rest;
    }
  }

  /** The same catalogue with names apart: part u behind every other part of its name. */
  function Behind(t: Table, u: Uuid): Table {
    map x | x in t :: t[x].(name := 2 * t[x].name + if x == u then 1 else 0)
  }

  lemma SortedApart(t: Table, u: Uuid, rows: seq<Uuid>)
    requires Sorted(Behind(t, u), true, rows)
    ensures Sorted(t, true, rows)
  {
    assert forall x :: x in rows ==> x in Behind(t, u);
    forall i, j | 0 <= i < j < |rows|
      ensures rows[i] in t && rows[j] in t && SortKey(t, true, rows[i]) <= SortKey(t, true, rows[j])
    {
      assert rows[i] in rows && rows[j] in rows;
      assert rows[i] in Behind(t, u) && rows[j] in Behind(t, u);
      assert SortKey(Behind(t, u), true, rows[i]) <= SortKey(Behind(t, u), true, rows[j]);
    }
  }

  lemma NamesInOrder(t: Table, rows: seq<Uuid>, i: nat, j: nat)
    requires Sorted(t, true, rows) && i < |rows| && j < |rows|
    ensures rows[i] in t && rows[j] in t && (i <= j ==> t[rows[i]].name <= t[rows[j]].name)
  {
    if i < j {
      assert SortKey(t, true, rows[i]) <= SortKey(t, true, rows[j]);
    }
  }

  /** Where names do not rise with uuids, some whole-catalogue query locks against the uuid order. */
  lemma DescendingPlan(t: Table) returns (rows: seq<Uuid>)
    requires !NamesRise(t)
    ensures Selects(t, Only([]), rows) && !Ascending(rows)
  {
    var u, v :| u in t && v in t && u < v && t[u].name >= t[v].name;
    var apart := Behind(t, u);
    assert apart.Keys == t.Keys;
    rows := NameOrderExists(apart, t.Keys);
    assert Chosen(t, Only([])) == t.Keys;
    SortedApart(t, u, rows);
    assert u in Elements(rows) && v in Elements(rows);
    var i :| 0 <= i < |rows| && rows[i] == u;
    var j :| 0 <= j < |rows| && rows[j] == v;
    NamesInOrder(apart, rows, i, j);
  }

  function Fresh(call: Call, rows: seq<Uuid>): Txn {
    Txn(None, Some(call), rows, Start, map[])
  }

  /** One call for the whole catalogue next to one for parts a and b. */
  function Rivals(t: Table, rows: seq<Uuid>, a: Uuid, b: Uuid): State {
    State(t, [Fresh(Call(Reserve, []), rows), Fresh(Call(Reserve, [a, b]), [a, b])], [])
  }

  lemma AppendEvent(s: State, es: seq<Event>, e: Event)
    requires Runs(s, es) && Enabled(Exec(s, es), e)
    ensures Runs(s, es + [e])
    ensures Exec(s, es + [e]) == Apply(Exec(s, es), e)
  {
    assert (es + [e])[..|es|] == es;
  }

  ghost predicate Climbing(rows: seq<Uuid>, s: State, other: Txn, phase: Phase) {
    && |s.txns| == 2 && s.txns[1] == other && other.phase.Start?
    && s.txns[0].phase == phase && s.txns[0].rows == rows
  }

  lemma ClimbOne(rows: seq<Uuid>, s: State, other: Txn, phase: Phase)
    requires Climbing(rows, s, other, phase)
    requires phase.Start? || (phase.Locking? && phase.got < |rows|)
    requires s.txns[0].order.None?
    ensures Enabled(s, Step(0)) && Apply(s, Step(0)).txns[0].order.None?
    ensures Climbing(rows, Apply(s, Step(0)), other, Locking(if phase.Start? then 0 else phase.got + 1))
  {
    assert forall r :: !Holds(other, r);
  }

  /** The whole-catalogue call takes its first n locks before the other one starts. */
  lemma {:induction false} Climb(rows: seq<Uuid>, s: State, other: Txn, n: nat) returns (es: seq<Event>)
    requires n <= |rows| && Climbing(rows, s, other, Start) && s.txns[0].order.None?
    ensures Runs(s, es) && Climbing(rows, Exec(s, es), other, Locking(n)) && Exec(s, es).txns[0].order.None?
  {
    if n == 0 {
      es := [];
      ClimbOne(rows, s, other, Start);
    } else {
      es := Climb(rows, s, other, n - 1);
      ClimbOne(rows, Exec(s, es), other, Locking(n - 1));
    }
    AppendEvent(s, es, Step(0));
    es := es + [Step(0)];
  }

  /** The other call takes the lower of two neighbours, then both wait for each other. */
  lemma LockAndWait(rows: seq<Uuid>, s: State, k: nat, other: Txn)
    requires k + 1 < |rows| && Distinct(rows)
    requires other == Fresh(Call(Reserve, [rows[k + 1], rows[k]]), [rows[k + 1], rows[k]])
    requires Climbing(rows, s, other, Locking(k + 1))
    ensures Enabled(s, Step(1))
    ensures var s1 := Apply(s, Step(1));
            Enabled(s1, Step(1)) && Stuck(Apply(s1, Step(1)))
  {
    var s1 := Apply(s, Step(1));
    assert rows[k + 1] !in rows[..k + 1];
    assert CanStep(s1, 1);
    var end := Apply(s1, Step(1));
    assert end.txns[1].rows[..1] == [rows[k + 1]];
    assert WaitsFor(end, 0, 1);
    assert WaitsFor(end, 1, 0) by {
      assert rows[..k + 1][k] == rows[k];
    }
  }

  lemma PairPlanned(t: Table, a: Uuid, b: Uuid)
    requires a in t && b in t && a < b
    ensures Selects(t, Only([a, b]), [a, b])
  {
    assert Elements([a, b]) == {a, b};
  }

  lemma RivalsDeadlock(t: Table, rows: seq<Uuid>, k: nat) returns (s: State, es: seq<Event>)
    requires Selects(t, Only([]), rows) && k + 1 < |rows| && rows[k] > rows[k + 1]
    ensures Initial(t, s) && Runs(s, es) && Stuck(Exec(s, es))
  {
    var a, b := rows[k + 1], rows[k];
    s := Rivals(t, rows, a, b);
    PairPlanned(t, a, b);
    es := Climb(rows, s, s.txns[1], k + 1);
    LockAndWait(rows, Exec(s, es), k, s.txns[1]);
    AppendEvent(s, es, Step(1));
    AppendEvent(s, es + [Step(1)], Step(1));
    es := es + [Step(1)] + [Step(1)];
  }

  /**
   * A whole-catalogue call locks by name, each query breaking ties as it likes. The catalogue is then free of
   * deadlocks for every workload and every interleaving exactly when a higher uuid always has a higher name.
   */
  lemma DeadlockFreeIffNamesRise(t: Table)
    ensures DeadlockFree(t) <==> NamesRise(t)
  {
    if NamesRise(t) {
      forall s, es | Initial(t, s) && Runs(s, es) ensures !Stuck(Exec(s, es)) {
        RowsFixed(s, es);
        forall i | 0 <= i < |s.txns| ensures Ascending(s.txns[i].rows) {
          PlanAscends(t, s.txns[i]);
        }
        NeverStuck(Exec(s, es));
      }
    } else {
      var rows := DescendingPlan(t);
      var k := DescentExists(rows);
      assert rows[k] != rows[k + 1];
      var s, es := RivalsDeadlock(t, rows, k);
      assert Stuck(Exec(s, es));
    }
  }

  /** In particular two parts of the same name are enough for a deadlock, whatever their uuids. */
  lemma SharedNameCanDeadlock(t: Table, u: Uuid, v: Uuid)
    requires u in t && v in t && u != v && t[u].name == t[v].name
    ensures !DeadlockFree(t)
  {
    DeadlockFreeIffNamesRise(t);
    assert u < v || v < u;
  }
}
