/** Graceful shutdown: close functions run once, in reverse order of registration. */
module Closer {
  import opened Prelude

  // A registered function with what calling it returns.
  datatype CloseFn = CloseFn(name: string, failure: Option<string>)

  datatype State = State(closed: bool, funcs: seq<CloseFn>, executed: seq<CloseFn>)

  datatype Op = Add(fn: CloseFn) | CloseAll

  function Reverse(s: seq<CloseFn>): (r: seq<CloseFn>)
    ensures |r| == |s| && forall k :: 0 <= k < |r| ==> r[k] == s[|s| - 1 - k]
  {
    if s == [] then [] else [s[|s| - 1]] + Reverse(s[..|s| - 1])
  }

  function FirstFailure(s: seq<CloseFn>): (r: Option<string>)
    ensures r.None? <==> forall k :: 0 <= k < |s| ==> s[k].failure.None?
    ensures r.Some? ==> exists k :: 0 <= k < |s| && s[k].failure == r && forall j :: 0 <= j < k ==> s[j].failure.None?
  {
    if s == [] then None else if s[0].failure.Some? then s[0].failure else FirstFailure(s[1..])
  }

  function Apply(s: State, op: Op): State {
    match op
    case Add(fn) => s.(funcs := s.funcs + [fn])
    case CloseAll => if s.closed then s else State(true, [], s.executed + Reverse(s.funcs))
  }

  /** What the call returns; Add returns nothing. */
  function Answer(s: State, op: Op): Option<string> {
    if op.CloseAll? && !s.closed then FirstFailure(Reverse(s.funcs)) else None
  }

  function Run(ops: seq<Op>): State {
    if ops == [] then State(false, [], []) else Apply(Run(ops[..|ops| - 1]), ops[|ops| - 1])
  }

  /** The functions added before the first CloseAll. */
  function Registered(ops: seq<Op>): seq<CloseFn> {
    if ops == [] || ops[0].CloseAll? then [] else [ops[0].fn] + Registered(ops[1..])
  }

  lemma {:induction false} RegisteredAppend(ops: seq<Op>, op: Op)
    ensures Registered(ops + [op]) ==
            if CloseAll in ops || op.CloseAll? then Registered(ops) else Registered(ops) + [op.fn]
  {
    if ops == [] {
      assert ops + [op] == [op];
      assert [op][1..] == [];
    } else if ops[0].CloseAll? {
      assert (ops + [op])[0] == ops[0];
    } else {
      RegisteredAppend(ops[1..], op);
      assert (ops + [op])[1..] == ops[1..] + [op];
      assert CloseAll in ops <==> CloseAll in ops[1..];
    }
  }

  /**
   * For any sequence of calls: before the first CloseAll nothing has run, from then on exactly the functions
   * registered before it have run, once each and in reverse order, whether or not they failed.
   */
  lemma {:induction false} ShutdownOrder(ops: seq<Op>)
    ensures Run(ops).closed <==> CloseAll in ops
    ensures Run(ops).executed == if CloseAll in ops then Reverse(Registered(ops)) else []
    ensures CloseAll in ops ==>
      var n := |Registered(ops)|;
      |Run(ops).executed| == n && forall k :: 0 <= k < n ==> Run(ops).executed[k] == Registered(ops)[n - 1 - k]
    ensures CloseAll !in ops ==> Run(ops).funcs == Registered(ops)
  {
    if ops != [] {
      var init, last := ops[..|ops| - 1], ops[|ops| - 1];
      ShutdownOrder(init);
      RegisteredAppend(init, last);
      assert ops == init + [last];
      assert CloseAll in ops <==> CloseAll in init || last.CloseAll?;
      assert Run(init).executed == [] ==> Run(init).executed + Reverse(Run(init).funcs) == Reverse(Run(init).funcs);
    }
  }

  /** The first CloseAll returns the first failure in execution order; every later one returns nothing. */
  lemma CloseAllAnswers(ops: seq<Op>)
    ensures Answer(Run(ops), CloseAll) == if CloseAll in ops then None else FirstFailure(Reverse(Registered(ops)))
  {
    ShutdownOrder(ops);
  }

  /** The last of the first i functions runs next, the others follow in reverse. */
  lemma LastRunsNext(fs: seq<CloseFn>, i: nat, done: seq<CloseFn>)
    requires 0 < i <= |fs|
    ensures done + Reverse(fs[..i]) == (done + [fs[i - 1]]) + Reverse(fs[..i - 1])
    ensures FirstFailure(Reverse(fs[..i])) ==
            if fs[i - 1].failure.Some? then fs[i - 1].failure else FirstFailure(Reverse(fs[..i - 1]))
  {
    assert fs[..i][..i - 1] == fs[..i - 1];
    var rest := Reverse(fs[..i - 1]);
    assert Reverse(fs[..i]) == [fs[i - 1]] + rest;
    assert ([fs[i - 1]] + rest)[1..] == rest;
  }

  class Closer {
    var once: bool
    var funcs: seq<CloseFn>
    ghost var executed: seq<CloseFn>

    ghost function Snapshot(): State
      reads this
    {
      State(once, funcs, executed)
    }

    constructor ()
      ensures Snapshot() == Run([])
    {
      once, funcs := false, [];
      executed := [];
    }

    method Add(name: string, failure: Option<string>)
      modifies this
      ensures Snapshot() == Apply(old(Snapshot()), Op.Add(CloseFn(name, failure)))
      ensures funcs == old(funcs) + [CloseFn(name, failure)] && once == old(once) && executed == old(executed)
    {
      funcs := funcs + [CloseFn(name, failure)];
    }

    method CloseAll() returns (result: Option<string>)
      modifies this
      ensures Snapshot() == Apply(old(Snapshot()), Op.CloseAll)
      ensures result == Answer(old(Snapshot()), Op.CloseAll)
      ensures old(once) ==> result == None && Snapshot() == old(Snapshot())
      ensures !old(once) ==>
        && once && funcs == [] && executed == old(executed) + Reverse(old(funcs))
        && result == FirstFailure(Reverse(old(funcs)))
    {
      result := None;
      if once {
        return;
      }
      once := true;
      var fs := funcs;
      funcs := [];
      assert fs[..|fs|] == fs;
      var i := |fs|;
      while i > 0
        invariant 0 <= i <= |fs|
        invariant once && funcs == []
        invariant executed + Reverse(fs[..i]) == old(executed) + Reverse(fs)
        invariant FirstFailure(Reverse(fs)) == if result.Some? then result else FirstFailure(Reverse(fs[..i]))
      {
        LastRunsNext(fs, i, executed);
        i := i - 1;
        var f := fs[i];
        executed := executed + [f];
        if f.failure.Some? && result.None? {
          result := f.failure;
        }
      }
      assert fs[..0] == [];
    }
  }
}
