/** What a handler leaves behind when its transaction is lost after the parts are committed. */
module SagaFaults {
  import opened Prelude
  import opened Parts
  import opened BatchSpec
  import opened Orders
  import opened Saga
  import opened SagaInvariants
  import opened SagaTheorems

  /** Committing once leaves enough for a second commit exactly where two reservations were. */
  lemma SecondCommit(t: Table, ids: seq<Uuid>)
    requires SoundTable(t) && Accepts(t, Commit, ids)
    ensures Accepts(Updated(t, Commit, ids), Commit, ids) <==> forall u :: u in ids ==> t[u].reserved >= 2
  {
    var now := Updated(t, Commit, ids);
    forall u | u in ids
      ensures now[u] == After(Commit, t[u]) && ConversionError(now[u]).None?
      ensures Refusal(Commit, now[u]).None? <==> t[u].reserved >= 2
    {
      assert Sound(t[u]);
    }
  }

  /**
   * A handler lost after its commit, in any run: the order is as it was before and its message is still in the log,
   * but should the message be handed over again, the call is accepted, in any row order, exactly when every part had
   * a second reservation beside the order's own.
   */
  lemma {:induction false} LostHandlerStrandsOrder(t0: Table, es: seq<Event>, s: State, o: Uuid, rows: seq<Uuid>)
    requires SoundTable(t0) && Runs(Initial(t0), es) && s == Exec(Initial(t0), es)
    requires Enabled(s, CommitParts(o, rows))
    ensures var s1 := Apply(s, CommitParts(o, rows));
            && Enabled(s1, Abort(o))
            && var end := Apply(s1, Abort(o));
               && o in s.orders && s.orders[o].Stored?
               && end.orders == s.orders[o := Stored(s.orders[o].row, None)]
               && o in end.shipped && end.shipped == s.shipped
               && forall again: seq<Uuid> :: multiset(again) == multiset(rows) ==>
                    (Accepts(end.table, Commit, again) <==> forall u :: u in rows ==> s.table[u].reserved >= 2)
  {
    InvRun(t0, es);
    assert Provenance(s, o);
    LostHandler(s, o, rows);
    SecondCommit(s.table, rows);
    forall again: seq<Uuid> | multiset(again) == multiset(rows)
      ensures Accepts(Updated(s.table, Commit, rows), Commit, again) <==>
        forall u :: u in rows ==> s.table[u].reserved >= 2
    {
      PermutedBatch(Updated(s.table, Commit, rows), Commit, again, rows);
    }
  }

  lemma CommitEffect(s: State, o: Uuid, rows: seq<Uuid>)
    requires Enabled(s, CommitParts(o, rows))
    ensures var s1 := Apply(s, CommitParts(o, rows));
            && o in s.orders && Locked(s.orders[o]) && s.orders[o].lock.value.Shipping?
            && s1.orders == s.orders[o := Stored(s.orders[o].row, Some(Committed))]
            && s1.shipped == s.shipped && s1.table == Updated(s.table, Commit, rows)
  {
  }

  lemma AbortEffect(s: State, o: Uuid)
    requires o in s.orders && Locked(s.orders[o])
    ensures Enabled(s, Abort(o))
    ensures var end := Apply(s, Abort(o));
            && end.orders == s.orders[o := Stored(s.orders[o].row, None)]
            && end.shipped == s.shipped && end.table == s.table
  {
  }

  lemma LostHandler(s: State, o: Uuid, rows: seq<Uuid>)
    requires Enabled(s, CommitParts(o, rows))
    ensures var s1 := Apply(s, CommitParts(o, rows));
            && o in s.orders && s.orders[o].Stored? && Enabled(s1, Abort(o))
            && Apply(s1, Abort(o)).orders == s.orders[o := Stored(s.orders[o].row, None)]
            && Apply(s1, Abort(o)).shipped == s.shipped
            && Apply(s1, Abort(o)).table == Updated(s.table, Commit, rows)
  {
    CommitEffect(s, o, rows);
    var s1 := Apply(s, CommitParts(o, rows));
    AbortEffect(s1, o);
    assert s1.orders[o := Stored(s.orders[o].row, None)] == s.orders[o := Stored(s.orders[o].row, None)];
  }
}
