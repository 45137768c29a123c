/**
 * One partition and its consumer: messages are handed over in order from the marked offset on, a message is marked
 * after success, skipped after an error, and every new session starts again at the mark. MarkMessage keeps a
 * high-water mark of offset + 1. The log itself only grows, so a message is its offset: whatever has been handed over
 * once is there to be handed over again.
 */
module ClaimLoop {
  // Cancelled stands for context.Canceled and context.DeadlineExceeded.
  datatype Reply = Succeeded | Failed | Cancelled

  datatype Delivery = Delivery(session: nat, offset: nat, reply: Reply)

  datatype Partition = Partition(
    marked: nat,
    session: nat,
    position: nat,           // the next offset of this session
    open: bool,              // ConsumeClaim has not returned
    trace: seq<Delivery>)    // every call of the handler so far

  datatype Event = Receive(reply: Reply) | Close | Rebalance

  function Initial(offset: nat): Partition {
    Partition(offset, 0, offset, true, [])
  }

  predicate Enabled(p: Partition, e: Event) {
    match e
    case Receive(_) => p.open
    case Close => p.open
    case _ => true
  }

  function Max(a: nat, b: nat): nat {
    if a < b then b else a
  }

  function Apply(p: Partition, e: Event): Partition
    requires Enabled(p, e)
  {
    match e
    case Close => p.(open := false)
    case Rebalance => p.(session := p.session + 1, position := p.marked, open := true)
    case Receive(reply) =>
      p.(position := p.position + 1,
         trace := p.trace + [Delivery(p.session, p.position, reply)],
         marked := if reply.Succeeded? then Max(p.marked, p.position + 1) else p.marked,
         open := !reply.Cancelled?)
  }

  ghost predicate Runs(p: Partition, es: seq<Event>)
    decreases |es|, 0
  {
    es == [] || (Runs(p, es[..|es| - 1]) && Enabled(Exec(p, es[..|es| - 1]), es[|es| - 1]))
  }

  ghost function Exec(p: Partition, es: seq<Event>): Partition
    requires Runs(p, es)
    decreases |es|, 1
  {
    if es == [] then p else Apply(Exec(p, es[..|es| - 1]), es[|es| - 1])
  }

  lemma AppendEvent(p: Partition, es: seq<Event>, e: Event)
    requires Runs(p, es) && Enabled(Exec(p, es), e)
    ensures Runs(p, es + [e]) && Exec(p, es + [e]) == Apply(Exec(p, es), e)
  {
    assert (es + [e])[..|es|] == es;
  }

  ghost predicate Delivered(p: Partition, m: nat) {
    exists k :: 0 <= k < |p.trace| && p.trace[k].offset == m
  }

  /** Some message at or after m has been handled successfully. */
  ghost predicate Overtaken(p: Partition, m: nat) {
    exists k :: 0 <= k < |p.trace| && p.trace[k].reply.Succeeded? && p.trace[k].offset >= m
  }

  /** The mark is one past the last success, and everything below the position has been handed over. */
  ghost predicate Inv(first: nat, p: Partition) {
    && first <= p.marked <= p.position
    && (forall k :: 0 <= k < |p.trace| ==> p.trace[k].offset >= first && p.trace[k].session <= p.session)
    && (forall k :: 0 <= k < |p.trace| && p.trace[k].reply.Succeeded? ==> p.trace[k].offset < p.marked)
    && (p.marked > first ==> Overtaken(p, p.marked - 1))
    && (forall m :: first <= m < p.position ==> Delivered(p, m))
  }

  lemma DeliveredGrows(p: Partition, reply: Reply, m: nat)
    requires Enabled(p, Receive(reply))
    ensures Delivered(p, m) ==> Delivered(Apply(p, Receive(reply)), m)
    ensures Overtaken(p, m) ==> Overtaken(Apply(p, Receive(reply)), m)
    ensures Delivered(Apply(p, Receive(reply)), p.position)
    ensures reply.Succeeded? && m <= p.position ==> Overtaken(Apply(p, Receive(reply)), m)
  {
    var q := Apply(p, Receive(reply));
    assert q.trace[|p.trace|] == Delivery(p.session, p.position, reply);
    if Delivered(p, m) {
      var k :| 0 <= k < |p.trace| && p.trace[k].offset == m;
      assert q.trace[k] == p.trace[k];
    }
    if Overtaken(p, m) {
      var k :| 0 <= k < |p.trace| && p.trace[k].reply.Succeeded? && p.trace[k].offset >= m;
      assert q.trace[k] == p.trace[k];
    }
  }

  lemma InvStep(first: nat, p: Partition, e: Event)
    requires Inv(first, p) && Enabled(p, e)
    ensures Inv(first, Apply(p, e))
  {
    var q := Apply(p, e);
    match e
    case Receive(reply) =>
      if q.marked > first {
        DeliveredGrows(p, reply, q.marked - 1);
      }
      forall m | first <= m < q.position ensures Delivered(q, m) {
        DeliveredGrows(p, reply, m);
      }
    case _ =>
      assert q.trace == p.trace;
      assert q.marked > first ==> Overtaken(p, p.marked - 1);
      forall m | first <= m < q.position ensures Delivered(q, m) {
        assert Delivered(p, m);
      }
  }

  lemma {:induction false} InvRun(first: nat, es: seq<Event>)
    requires Runs(Initial(first), es)
    ensures Inv(first, Exec(Initial(first), es))
  {
    if es != [] {
      InvRun(first, es[..|es| - 1]);
      InvStep(first, Exec(Initial(first), es[..|es| - 1]), es[|es| - 1]);
    }
  }

  /**
   * At least once: over any number of sessions, every message below the mark has been handed to the handler; and
   * the mark stands one past the highest offset handled successfully.
   */
  lemma {:induction false} AtLeastOnce(first: nat, es: seq<Event>)
    requires Runs(Initial(first), es)
    ensures var p := Exec(Initial(first), es);
            && (forall m :: first <= m < p.marked ==> Delivered(p, m))
            && (forall m :: first <= m ==> (m < p.marked <==> Overtaken(p, m)))
  {
    InvRun(first, es);
    var p := Exec(Initial(first), es);
    forall m | first <= m ensures m < p.marked <==> Overtaken(p, m) {
      if m < p.marked {
        var k :| 0 <= k < |p.trace| && p.trace[k].reply.Succeeded? && p.trace[k].offset >= p.marked - 1;
      }
    }
  }

  /** Message m has been handed over and not broken off: it succeeded, or it failed and was skipped. */
  ghost predicate Dealt(p: Partition, m: nat) {
    exists k :: 0 <= k < |p.trace| && p.trace[k].offset == m && !p.trace[k].reply.Cancelled?
  }

  /** Everything below the mark, and in an open session everything below the position, has been dealt with. */
  ghost predicate Settled(first: nat, p: Partition) {
    && (forall m :: first <= m < p.marked ==> Dealt(p, m))
    && (p.open ==> forall m :: first <= m < p.position ==> Dealt(p, m))
  }

  lemma DealtGrows(p: Partition, reply: Reply, m: nat)
    requires Enabled(p, Receive(reply))
    ensures Dealt(p, m) ==> Dealt(Apply(p, Receive(reply)), m)
    ensures !reply.Cancelled? ==> Dealt(Apply(p, Receive(reply)), p.position)
  {
    var q := Apply(p, Receive(reply));
    assert q.trace[|p.trace|] == Delivery(p.session, p.position, reply);
    if Dealt(p, m) {
      var k :| 0 <= k < |p.trace| && p.trace[k].offset == m && !p.trace[k].reply.Cancelled?;
      assert q.trace[k] == p.trace[k];
    }
  }

  lemma SettledStep(first: nat, p: Partition, e: Event)
    requires Inv(first, p) && Settled(first, p) && Enabled(p, e)
    ensures Settled(first, Apply(p, e))
  {
    var q := Apply(p, e);
    if e.Receive? {
      forall m | first <= m < q.marked || (q.open && first <= m < q.position) ensures Dealt(q, m) {
        DealtGrows(p, e.reply, m);
      }
    } else {
      assert forall m :: Dealt(p, m) ==> Dealt(q, m);
    }
  }

  // ---- which failed messages come back ----

  /** Message m has been handed over between p and q, in a session after the one of p. */
  ghost predicate LaterDelivery(p: Partition, q: Partition, m: nat) {
    exists k :: |p.trace| <= k < |q.trace| && q.trace[k].offset == m && q.trace[k].session > p.session
  }

  /** Some continuation hands message m over in a session after the present one. */
  ghost predicate ComesBack(p: Partition, m: nat) {
    exists es :: Runs(p, es) && LaterDelivery(p, Exec(p, es), m)
  }

  /** Whatever happens next, later sessions never go below the present mark. */
  lemma {:induction false} LaterSessionsStartAtMark(p: Partition, es: seq<Event>)
    requires Runs(p, es)
    ensures var q := Exec(p, es);
            && q.marked >= p.marked && q.session >= p.session && |q.trace| >= |p.trace|
            && (q.session > p.session ==> q.position >= p.marked)
            && forall k :: |p.trace| <= k < |q.trace| && q.trace[k].session > p.session ==>
                 q.trace[k].offset >= p.marked
  {
    if es != [] {
      LaterSessionsStartAtMark(p, es[..|es| - 1]);
    }
  }

  lemma LaterDeliveryGrows(p: Partition, q: Partition, e: Event, m: nat)
    requires Enabled(q, e) && |p.trace| <= |q.trace|
    ensures LaterDelivery(p, q, m) ==> LaterDelivery(p, Apply(q, e), m)
    ensures e.Receive? && q.position == m && q.session > p.session ==> LaterDelivery(p, Apply(q, e), m)
  {
    var r := Apply(q, e);
    if LaterDelivery(p, q, m) {
      var k :| |p.trace| <= k < |q.trace| && q.trace[k].offset == m && q.trace[k].session > p.session;
      assert r.trace[k] == q.trace[k];
    }
    if e.Receive? {
      assert r.trace[|q.trace|] == Delivery(q.session, q.position, e.reply);
    }
  }

  /** After a rebalance below m, the consumer is still at or before m, mark included, or has handed it over again. */
  lemma {:induction false} NotPassedUnseen(p: Partition, es: seq<Event>, m: nat)
    requires p.marked <= m && Runs(Apply(p, Rebalance), es)
    ensures var q := Exec(Apply(p, Rebalance), es);
            && q.session > p.session && |p.trace| <= |q.trace|
            && (LaterDelivery(p, q, m) || (q.position <= m && q.marked <= m))
  {
    if es != [] {
      var init, e := es[..|es| - 1], es[|es| - 1];
      NotPassedUnseen(p, init, m);
      LaterDeliveryGrows(p, Exec(Apply(p, Rebalance), init), e, m);
    }
  }

  /** And after a rebalance above m, nothing at or below m is handed over again. */
  lemma {:induction false} NeverBelowMark(p: Partition, es: seq<Event>)
    requires Runs(Apply(p, Rebalance), es)
    ensures var q := Exec(Apply(p, Rebalance), es);
            && q.marked >= p.marked && q.position >= p.marked && |q.trace| >= |p.trace|
            && forall k :: |p.trace| <= k < |q.trace| ==> q.trace[k].offset >= p.marked
  {
    if es != [] {
      NeverBelowMark(p, es[..|es| - 1]);
    }
  }

  lemma RedeliveredFrom(p: Partition, more: seq<Event>, m: nat)
    requires Runs(Apply(p, Rebalance), more) && Exec(Apply(p, Rebalance), more).position > m
    ensures LaterDelivery(p, Exec(Apply(p, Rebalance), more), m) <==> p.marked <= m
  {
    NeverBelowMark(p, more);
    if p.marked <= m {
      NotPassedUnseen(p, more, m);
    }
  }

  /**
   * Redelivery, for every run: after a rebalance, a message is handed over again by the time the consumer has worked
   * past it exactly when, at the rebalance, no message at or after it had been handled successfully.
   */
  lemma {:induction false} RedeliveryExact(first: nat, es: seq<Event>, p: Partition, more: seq<Event>, m: nat)
    requires Runs(Initial(first), es) && p == Exec(Initial(first), es) && first <= m
    requires Runs(Apply(p, Rebalance), more) && Exec(Apply(p, Rebalance), more).position > m
    ensures LaterDelivery(p, Exec(Apply(p, Rebalance), more), m) <==> !Overtaken(p, m)
  {
    AtLeastOnce(first, es);
    RedeliveredFrom(p, more, m);
  }

  /** After a rebalance the consumer can work its way from the mark to offset m. */
  lemma {:induction false} Replay(p: Partition, m: nat) returns (es: seq<Event>)
    requires p.marked <= m
    ensures Runs(p, es)
    ensures var q := Exec(p, es);
            q.session == p.session + 1 && q.position == m && q.open && |q.trace| >= |p.trace|
    decreases m - p.marked
  {
    if m == p.marked {
      AppendEvent(p, [], Rebalance);
      es := [] + [Rebalance];
    } else {
      es := Replay(p, m - 1);
      AppendEvent(p, es, Receive(Failed));
      es := es + [Receive(Failed)];
    }
  }

  /** Seen from the middle of a session: a message can still come back exactly when nothing has overtaken it. */
  lemma {:induction false} RedeliveryPossible(first: nat, es: seq<Event>, m: nat)
    requires Runs(Initial(first), es) && first <= m
    ensures var p := Exec(Initial(first), es);
            ComesBack(p, m) <==> !Overtaken(p, m)
  {
    AtLeastOnce(first, es);
    var p := Exec(Initial(first), es);
    if ComesBack(p, m) {
      var more :| Runs(p, more) && LaterDelivery(p, Exec(p, more), m);
      LaterSessionsStartAtMark(p, more);
    }
    if !Overtaken(p, m) {
      var more := Replay(p, m);
      var q := Exec(p, more);
      AppendEvent(p, more, Receive(Failed));
      LaterDeliveryGrows(p, q, Receive(Failed), m);
      assert LaterDelivery(p, Exec(p, more + [Receive(Failed)]), m);
    }
  }

  /** So an error is not enough for a redelivery: one success after it, in the same session, loses the message. */
  lemma FailureThenSuccessLosesMessage()
    ensures var es := [Receive(Failed), Receive(Succeeded)];
            && Runs(Initial(0), es)
            && Delivered(Exec(Initial(0), es), 0) && !ComesBack(Exec(Initial(0), es), 0)
  {
    var p := Initial(0);
    AppendEvent(p, [], Receive(Failed));
    AppendEvent(p, [] + [Receive(Failed)], Receive(Succeeded));
    var es := [Receive(Failed), Receive(Succeeded)];
    assert [] + [Receive(Failed)] + [Receive(Succeeded)] == es;
    var q := Exec(p, es);
    assert q.trace[0].offset == 0;
    assert q.trace[1].reply.Succeeded? && q.trace[1].offset >= 0;
    RedeliveryPossible(0, es, 0);
  }

  lemma {:induction false} Concatenate(p: Partition, es: seq<Event>, q: Partition, more: seq<Event>)
    requires Runs(p, es) && Exec(p, es) == q && Runs(q, more)
    ensures Runs(p, es + more) && Exec(p, es + more) == Exec(q, more)
    decreases |more|
  {
    if more == [] {
      assert es + more == es;
    } else {
      Concatenate(p, es, q, more[..|more| - 1]);
      assert (es + more)[..|es + more| - 1] == es + more[..|more| - 1];
    }
  }

  // ---- the loops ----

  // What the select of ConsumeClaim sees next; a message comes with what its handler will answer.
  datatype Signal = Message(reply: Reply) | ChannelClosed | SessionDone

  // How group.Consume comes back at the end of a session.
  datatype SessionEnd = Rebalanced | GroupClosed | FatalError | ContextDone

  datatype Session = Session(signals: seq<Signal>, end: SessionEnd)

  /** The replies of the messages a claim hands over: up to the first other signal, or the first cancellation. */
  function Taken(signals: seq<Signal>): seq<Reply> {
    if signals == [] || !signals[0].Message? then []
    else if signals[0].reply.Cancelled? then [signals[0].reply]
    else [signals[0].reply] + Taken(signals[1..])
  }

  /** One claim: every message taken, in order, then the end of the session unless a cancellation was it. */
  function Claim(replies: seq<Reply>): seq<Event> {
    if replies == [] then [Close]
    else if replies[0].Cancelled? then [Receive(replies[0])]
    else [Receive(replies[0])] + Claim(replies[1..])
  }

  /** The deliveries of one claim: consecutive offsets, each message with its own reply. */
  function Handed(session: nat, position: nat, replies: seq<Reply>): seq<Delivery> {
    seq(|replies|, i requires 0 <= i < |replies| => Delivery(session, position + i, replies[i]))
  }

  /** Where a claim leads, signal by signal. */
  function AfterClaim(p: Partition, signals: seq<Signal>): Partition
    requires p.open
    decreases |signals|
  {
    if signals == [] || !signals[0].Message? then Apply(p, Close)
    else
      var q := Apply(p, Receive(signals[0].reply));
      if q.open then AfterClaim(q, signals[1..]) else q
  }

  /** Where a list of sessions leads; one that does not end with a rebalance is the last. */
  function AfterSessions(p: Partition, sessions: seq<Session>): Partition
    decreases |sessions|
  {
    if sessions == [] then p
    else
      var q := AfterClaim(Apply(p, Rebalance), sessions[0].signals);
      if sessions[0].end.Rebalanced? then AfterSessions(q, sessions[1..]) else q
  }

  /** The sessions Consume goes through. */
  function Attended(sessions: seq<Session>): seq<Session> {
    if sessions == [] then []
    else [sessions[0]] + if sessions[0].end.Rebalanced? then Attended(sessions[1..]) else []
  }

  /** A claim takes messages from the front, and stops only at another signal, at a cancellation or at the end. */
  lemma {:induction false} TakenExact(signals: seq<Signal>)
    ensures var n := |Taken(signals)|;
            && n <= |signals| && (forall i :: 0 <= i < n ==> signals[i] == Message(Taken(signals)[i]))
            && (forall i :: 0 <= i < n - 1 ==> !Taken(signals)[i].Cancelled?)
            && (n == |signals| || !signals[n].Message? || (n > 0 && Taken(signals)[n - 1].Cancelled?))
  {
    if signals != [] && signals[0].Message? && !signals[0].reply.Cancelled? {
      TakenExact(signals[1..]);
      assert Taken(signals) == [signals[0].reply] + Taken(signals[1..]);
    }
  }

  /** Consume goes through sessions from the front, up to the first one that does not end with a rebalance. */
  lemma {:induction false} AttendedExact(sessions: seq<Session>)
    ensures var n := |Attended(sessions)|;
            && n <= |sessions| && Attended(sessions) == sessions[..n]
            && (forall i :: 0 <= i < n - 1 ==> sessions[i].end.Rebalanced?)
            && (n == |sessions| || (n > 0 && !sessions[n - 1].end.Rebalanced?))
  {
    if sessions != [] && sessions[0].end.Rebalanced? {
      AttendedExact(sessions[1..]);
      var n := |Attended(sessions[1..])|;
      assert sessions[..n + 1] == [sessions[0]] + sessions[1..][..n];
    }
  }

  function AllClaims(sessions: seq<Session>): seq<Event> {
    if sessions == [] then []
    else [Rebalance] + Claim(Taken(sessions[0].signals)) + AllClaims(sessions[1..])
  }

  /** The run `es` leads from p to q. */
  ghost predicate Leads(p: Partition, es: seq<Event>, q: Partition) {
    Runs(p, es) && Exec(p, es) == q
  }

  lemma OneEvent(p: Partition, e: Event)
    requires Enabled(p, e)
    ensures Leads(p, [e], Apply(p, e))
  {
    AppendEvent(p, [], e);
    assert [] + [e] == [e];
  }

  lemma Chain(p: Partition, es: seq<Event>, q: Partition, more: seq<Event>, r: Partition)
    requires Leads(p, es, q) && Leads(q, more, r)
    ensures Leads(p, es + more, r)
  {
    Concatenate(p, es, q, more);
  }

  /** A claim hands over exactly the messages it takes, in order, from its position on. */
  lemma {:induction false} ClaimIsRun(p: Partition, signals: seq<Signal>)
    requires p.open
    ensures Leads(p, Claim(Taken(signals)), AfterClaim(p, signals))
    decreases |signals|
  {
    if signals == [] || !signals[0].Message? {
      OneEvent(p, Close);
    } else {
      var e := Receive(signals[0].reply);
      OneEvent(p, e);
      if !signals[0].reply.Cancelled? {
        ClaimIsRun(Apply(p, e), signals[1..]);
        Chain(p, [e], Apply(p, e), Claim(Taken(signals[1..])), AfterClaim(p, signals));
        assert Taken(signals)[1..] == Taken(signals[1..]);
      }
    }
  }

  lemma HandedFirst(session: nat, position: nat, reply: Reply, rest: seq<Reply>)
    ensures Handed(session, position, [reply] + rest)
            == [Delivery(session, position, reply)] + Handed(session, position + 1, rest)
  {
  }

  lemma {:induction false} ClaimHandsOver(p: Partition, signals: seq<Signal>)
    requires p.open
    ensures AfterClaim(p, signals).trace == p.trace + Handed(p.session, p.position, Taken(signals))
    ensures !AfterClaim(p, signals).open && AfterClaim(p, signals).session == p.session
    decreases |signals|
  {
    if signals != [] && signals[0].Message? {
      var reply, q := signals[0].reply, Apply(p, Receive(signals[0].reply));
      if q.open {
        ClaimHandsOver(q, signals[1..]);
        HandedFirst(p.session, p.position, reply, Taken(signals[1..]));
      } else {
        HandedFirst(p.session, p.position, reply, []);
        assert [reply] + [] == [reply];
      }
    }
  }

  /** Consume is the claims of the sessions it attends, one after the other, each from the mark. */
  lemma {:induction false} SessionsAreRun(p: Partition, sessions: seq<Session>)
    ensures Leads(p, AllClaims(Attended(sessions)), AfterSessions(p, sessions))
    ensures AfterSessions(p, sessions).session == p.session + |Attended(sessions)|
    decreases |sessions|
  {
    if sessions != [] {
      var r := Apply(p, Rebalance);
      var claim, q := Claim(Taken(sessions[0].signals)), AfterClaim(r, sessions[0].signals);
      OneEvent(p, Rebalance);
      ClaimIsRun(r, sessions[0].signals);
      ClaimHandsOver(r, sessions[0].signals);
      Chain(p, [Rebalance], r, claim, q);
      var rest := if sessions[0].end.Rebalanced? then sessions[1..] else [];
      SessionsAreRun(q, rest);
      Chain(p, [Rebalance] + claim, q, AllClaims(Attended(rest)), AfterSessions(q, rest));
      assert Attended(sessions)[1..] == Attended(rest);
    }
  }

  class Consumer {
    var marked: nat
    var session: nat
    var position: nat
    var open: bool
    ghost var trace: seq<Delivery>

    ghost function Snapshot(): Partition
      reads this
    {
      Partition(marked, session, position, open, trace)
    }

    constructor (offset: nat)
      ensures Snapshot() == Initial(offset)
    {
      marked, session, position, open := offset, 0, offset, true;
      trace := [];
    }

    /** One message: hand it over, then mark it, skip it, or stop. */
    method Handle(reply: Reply) returns (stop: bool)
      requires open
      modifies this
      ensures Snapshot() == Apply(old(Snapshot()), Receive(reply))
      ensures stop <==> reply.Cancelled?
    {
      var offset := position;
      trace := trace + [Delivery(session, position, reply)];
      position := position + 1;
      if reply.Cancelled? {
        open := false;
        return true;
      }
      if reply.Failed? {
        return false;
      }
      marked := Max(marked, offset + 1);
      return false;
    }

    /** The receive loop. */
    method ReceiveAll(signals: seq<Signal>) returns (cancelled: bool)
      requires open
      modifies this
      ensures Snapshot() == AfterClaim(old(Snapshot()), signals)
      ensures cancelled <==> Cancelled in Taken(signals)
    {
      ghost var p := Snapshot();
      for i := 0 to |signals|
        invariant open && AfterClaim(p, signals) == AfterClaim(Snapshot(), signals[i..])
        invariant Cancelled in Taken(signals) <==> Cancelled in Taken(signals[i..])
      {
        assert signals[i..][1..] == signals[i + 1..];
        if !signals[i].Message? {
          break;
        }
        var stop := Handle(signals[i].reply);
        if stop {
          return true;
        }
      }
      open := false;
      cancelled := false;
    }

    /**
     * ConsumeClaim: one session, until the channel closes, the context is done or the handler is cancelled. Every
     * message before that is handed over, in order, at consecutive offsets, and answered with its own reply.
     */
    method ConsumeClaim(signals: seq<Signal>) returns (cancelled: bool)
      requires open
      modifies this
      ensures Snapshot() == AfterClaim(old(Snapshot()), signals)
      ensures Leads(old(Snapshot()), Claim(Taken(signals)), Snapshot()) && session == old(session)
      ensures trace == old(trace) + Handed(old(session), old(position), Taken(signals))
      ensures cancelled <==> Cancelled in Taken(signals)
      ensures var n := |trace| - |old(trace)|;
              && 0 <= n <= |signals| && (n == |signals| || !signals[n].Message? || cancelled)
              && forall i :: 0 <= i < n ==>
                   signals[i] == Message(trace[|old(trace)| + i].reply)
                   && trace[|old(trace)| + i].offset == old(position) + i
    {
      ClaimIsRun(Snapshot(), signals);
      ClaimHandsOver(Snapshot(), signals);
      TakenExact(signals);
      cancelled := ReceiveAll(signals);
    }

    /** One session of the group: from the mark, until its claim returns. */
    method RunSession(signals: seq<Signal>)
      modifies this
      ensures Snapshot() == AfterClaim(Apply(old(Snapshot()), Rebalance), signals) && session == old(session) + 1
    {
      session, position, open := session + 1, marked, true;
      var cancelled := ConsumeClaim(signals);
    }

    /** The session loop: a new session after every rebalance. */
    method RunSessions(sessions: seq<Session>) returns (end: SessionEnd)
      modifies this
      ensures Snapshot() == AfterSessions(old(Snapshot()), sessions)
      ensures var n := session - old(session);
              && 0 <= n <= |sessions| && (forall i :: 0 <= i < n - 1 ==> sessions[i].end.Rebalanced?)
              && (n == |sessions| || (n > 0 && !end.Rebalanced?))
              && end == if n == 0 then Rebalanced else sessions[n - 1].end
    {
      ghost var p := Snapshot();
      for i := 0 to |sessions|
        invariant AfterSessions(p, sessions) == AfterSessions(Snapshot(), sessions[i..])
        invariant session == p.session + i && forall j :: 0 <= j < i ==> sessions[j].end.Rebalanced?
      {
        assert sessions[i..][1..] == sessions[i + 1..];
        RunSession(sessions[i].signals);
        if !sessions[i].end.Rebalanced? {
          return sessions[i].end;
        }
      }
      end := Rebalanced;
    }

    /**
     * Consume: sessions until the group is closed, fails or the context is done; the end is that of the first session
     * that does not end with a rebalance.
     */
    method Consume(sessions: seq<Session>) returns (end: SessionEnd)
      modifies this
      ensures Snapshot() == AfterSessions(old(Snapshot()), sessions)
      ensures Leads(old(Snapshot()), AllClaims(Attended(sessions)), Snapshot())
      ensures var n := session - old(session);
              && 0 <= n <= |sessions| && (forall i :: 0 <= i < n - 1 ==> sessions[i].end.Rebalanced?)
              && (n == |sessions| || (n > 0 && !end.Rebalanced?))
              && end == if n == 0 then Rebalanced else sessions[n - 1].end
    {
      SessionsAreRun(Snapshot(), sessions);
      end := RunSessions(sessions);
    }
  }
}
