/** When one send can end in a lost event, exactly, and a relay wiring in which it does. */
module DeliveryLoss {
  import opened Text
  import opened Subscriber
  import opened Outbox
  import opened Delivery
  import opened DeliveryRuns
  import DeliveryProofs
  import Publisher

  // ------------------------------------------------------------ what the broker does while the relay waits

  predicate BrokerStep(step: Step) {
    step.Route? || step.Broker?
  }

  /** Neither routing nor the broker's answers touch a row, a binding or a relay's records. */
  ghost predicate Undisturbed(s: Sys, t: Sys, p: nat) {
    && t.wiring == s.wiring && t.rows == s.rows && t.subs.Keys == s.subs.Keys
    && p in s.procs && p in t.procs && t.procs[p].todo == s.procs[p].todo && t.procs[p].workerId == s.procs[p].workerId
  }

  /** An attempt that was not routed before is routed to the queues that are bound now. */
  ghost predicate RoutedNow(s: Sys, t: Sys, tag: Tag) {
    tag in t.routes ==> (tag in s.routes && t.routes[tag] == s.routes[tag]) || t.routes[tag] == s.subs.Keys
  }

  lemma {:induction false} BrokerRun(s: Sys, steps: seq<Step>, p: nat, tag: Tag)
    requires Legal(s, steps) && All(steps, BrokerStep) && p in s.procs
    ensures Undisturbed(s, Run(s, steps), p) && RoutedNow(s, Run(s, steps), tag)
    decreases steps
  {
    if steps != [] {
      assert BrokerStep(steps[0]);
      assert forall i :: 0 <= i < |steps[1..]| ==> steps[1..][i] == steps[i + 1];
      BrokerRun(Next(s, steps[0]), steps[1..], p, tag);
    }
  }

  lemma {:induction false} BrokerRunKeeps(s: Sys, steps: seq<Step>)
    requires Inv(s) && Legal(s, steps) && All(steps, BrokerStep)
    ensures Inv(Run(s, steps))
    decreases steps
  {
    if steps != [] {
      assert BrokerStep(steps[0]);
      assert forall i :: 0 <= i < |steps[1..]| ==> steps[1..][i] == steps[i + 1];
      DeliveryProofs.StepKeeps(s, steps[0]);
      BrokerRunKeeps(Next(s, steps[0]), steps[1..]);
    }
  }

  // ------------------------------------------------------------ the exact condition

  /** The row is marked published by this attempt, and no queue took it. */
  ghost predicate LostRow(s: Sys, tag: Tag) {
    && tag.row in s.rows && s.rows[tag.row].publishedAs == Some(tag.attempt)
    && tag in s.routes && s.routes[tag] == {}
  }

  /** Sending now, some answers of the broker, and the relay's own mark can lose the event. */
  ghost predicate CanLose(s: Sys, p: nat)
    requires Enabled(s, Send(p))
  {
    exists t, max :: ReachesBy(Next(s, Send(p)), t, BrokerStep) && Enabled(t, Mark(p, max)) && LostRow(Next(t, Mark(p, max)), s.procs[p].todo[0])
  }

  /** The publisher that the relay would use still awaits the confirm of an earlier publication of this event. */
  ghost predicate Awaited(s: Sys, p: nat)
    requires Enabled(s, Send(p))
  {
    Publisher.Unconfirmed(s.procs[p].chan, s.procs[p].publisher, Publication(s, p).messageId)
  }

  lemma UnsentIsNotPublished(s: Sys, p: nat)
    requires Inv(s) && Enabled(s, Send(p))
    ensures var tag := s.procs[p].todo[0]; tag !in s.routes && s.rows[tag.row].publishedAs != Some(tag.attempt)
  {
    var q := s.procs[p];
    assert ProcOk(s, p) && Tags(q)[|q.links|] == q.todo[0];
    assert RowOk(s, q.todo[0].row);
  }

  /** A send that the publisher does not already await ends well, whatever the broker answers. */
  lemma CarefulSendDelivers(s: Sys, p: nat, steps: seq<Step>, max: nat)
    requires Inv(s) && Enabled(s, Send(p)) && !Awaited(s, p)
    requires Legal(Next(s, Send(p)), steps) && All(steps, BrokerStep) && Enabled(Run(Next(s, Send(p)), steps), Mark(p, max))
    ensures !LostRow(Next(Run(Next(s, Send(p)), steps), Mark(p, max)), s.procs[p].todo[0])
  {
    var s1 := Next(s, Send(p));
    DeliveryProofs.StepKeeps(s, Send(p));
    BrokerRunKeeps(s1, steps);
    DeliveryProofs.StepKeeps(Run(s1, steps), Mark(p, max));
    assert RowOk(Next(Run(s1, steps), Mark(p, max)), s.procs[p].todo[0].row);
  }

  /** A mark publishes a row only under the lease. */
  lemma MarkNeedsLease(t: Sys, p: nat, max: nat, tag: Tag)
    requires Enabled(t, Mark(p, max)) && t.procs[p].todo[0] == tag && tag.row in t.rows && t.rows[tag.row].publishedAs != Some(tag.attempt)
    requires LostRow(Next(t, Mark(p, max)), tag)
    ensures Holds(t.rows, tag.row, t.procs[p].workerId) && tag in t.routes && t.routes[tag] == {}
  {
  }

  /** Losing takes all three: a held lease, no bound queue, and a publisher that awaits this event. */
  lemma LossNeeds(s: Sys, p: nat)
    requires Inv(s) && Enabled(s, Send(p)) && CanLose(s, p)
    ensures Holds(s.rows, s.procs[p].todo[0].row, s.procs[p].workerId) && s.subs.Keys == {} && Awaited(s, p)
  {
    var tag, s1 := s.procs[p].todo[0], Next(s, Send(p));
    var t, max :| ReachesBy(s1, t, BrokerStep) && Enabled(t, Mark(p, max)) && LostRow(Next(t, Mark(p, max)), tag);
    var steps :| Legal(s1, steps) && All(steps, BrokerStep) && Run(s1, steps) == t;
    UnsentIsNotPublished(s, p);
    BrokerRun(s1, steps, p, tag);
    MarkNeedsLease(t, p, max, tag);
    if !Awaited(s, p) {
      CarefulSendDelivers(s, p, steps, max);
      assert false;
    }
  }

  // The other direction: the broker's schedule.

  function WithChan(s: Sys, p: nat, c: Publisher.Channel): Sys
    requires p in s.procs
  {
    s.(procs := s.procs[p := s.procs[p].(chan := c)])
  }

  /** Both publications were found to have no audience. */
  ghost predicate NobodyTook(s: Sys, p: nat, k: nat, n: nat) {
    && p in s.procs && k < |s.procs[p].links| && n < |s.procs[p].links| && |s.procs[p].chan.pubs| == |s.procs[p].links|
    && s.procs[p].links[k].audience == Some({}) && s.procs[p].links[n].audience == Some({})
  }

  lemma Answers(a: Sys, s: Sys, p: nat, k: nat, n: nat, c: Publisher.Channel, e: Publisher.Event)
    requires NobodyTook(s, p, k, n) && |c.pubs| == |s.procs[p].links| && ReachesBy(a, WithChan(s, p, c), BrokerStep) && Publisher.Enabled(c, e)
    requires e == Publisher.Return(k) || e == Publisher.Return(n)
          || (e == Publisher.Confirm(k, true) && c.pubs[k].returned) || (e == Publisher.Confirm(n, true) && c.pubs[n].returned)
    ensures ReachesBy(a, WithChan(s, p, Publisher.Step(c, e)), BrokerStep)
  {
    assert Next(WithChan(s, p, c), Broker(p, e)) == WithChan(s, p, Publisher.Step(c, e));
    OnwardBy(a, WithChan(s, p, c), Broker(p, e), BrokerStep);
  }

  /** Two unconfirmed publications of one event through one publisher. */
  predicate Twins(c: Publisher.Channel, k: nat, n: nat) {
    && k < |c.pubs| && n < |c.pubs| && k != n && !c.closed
    && c.pubs[k].owner == c.pubs[n].owner < |c.marks| && c.pubs[k].messageId == c.pubs[n].messageId
    && !c.pubs[k].confirmed && !c.pubs[n].confirmed
  }

  lemma ReturnTwin(c: Publisher.Channel, k: nat, n: nat, j: nat)
    requires Twins(c, k, n) && (j == k || j == n) && !c.pubs[j].returned
    ensures var c' := Publisher.Step(c, Publisher.Return(j));
      && Twins(c', k, n) && |c'.pubs| == |c.pubs| && c'.pubs[j].returned && c'.pubs[n].settled == c.pubs[n].settled
      && (c.pubs[k].returned ==> c'.pubs[k].returned) && (j == k ==> c'.pubs[n].returned == c.pubs[n].returned)
      && c'.pubs[k].messageId in c'.marks[c'.pubs[k].owner]
  {
  }

  /** The first ack consumes the only mark, the second finds none. */
  lemma AckTwins(c: Publisher.Channel, k: nat, n: nat)
    requires Twins(c, k, n) && c.pubs[k].returned && c.pubs[n].returned && c.pubs[n].settled.None?
    requires c.pubs[k].messageId in c.marks[c.pubs[k].owner]
    ensures var c' := Publisher.Step(c, Publisher.Confirm(k, true));
      && Publisher.Enabled(c', Publisher.Confirm(n, true)) && c'.pubs[n].returned && |c'.pubs| == |c.pubs|
      && var c'' := Publisher.Step(c', Publisher.Confirm(n, true));
         |c''.pubs| == |c.pubs| && c''.pubs[n].settled == Some(Publisher.Resolved)
  {
  }

  /** Both are returned before either is acked. */
  lemma ReturnsThenAcks(a: Sys, s: Sys, p: nat, k: nat, n: nat) returns (c: Publisher.Channel)
    requires NobodyTook(s, p, k, n) && ReachesBy(a, s, BrokerStep) && Twins(s.procs[p].chan, k, n)
    requires !s.procs[p].chan.pubs[n].returned && s.procs[p].chan.pubs[n].settled.None?
    ensures ReachesBy(a, WithChan(s, p, c), BrokerStep)
    ensures |c.pubs| == |s.procs[p].chan.pubs| && c.pubs[n].settled == Some(Publisher.Resolved)
  {
    c := s.procs[p].chan;
    assert WithChan(s, p, c) == s;
    if !c.pubs[k].returned {
      ReturnTwin(c, k, n, k);
      Answers(a, s, p, k, n, c, Publisher.Return(k));
      c := Publisher.Step(c, Publisher.Return(k));
    }
    ReturnTwin(c, k, n, n);
    Answers(a, s, p, k, n, c, Publisher.Return(n));
    c := Publisher.Step(c, Publisher.Return(n));
    AckTwins(c, k, n);
    Answers(a, s, p, k, n, c, Publisher.Confirm(k, true));
    c := Publisher.Step(c, Publisher.Confirm(k, true));
    Answers(a, s, p, k, n, c, Publisher.Confirm(n, true));
    c := Publisher.Step(c, Publisher.Confirm(n, true));
  }

  /** The exchange finds no queue for a publication. */
  lemma RoutedToNobody(a: Sys, s: Sys, p: nat, j: nat)
    requires ReachesBy(a, s, BrokerStep) && Enabled(s, Route(p, j)) && s.subs.Keys == {}
    ensures var s' := Next(s, Route(p, j));
      && ReachesBy(a, s', BrokerStep) && s'.subs.Keys == {} && s'.rows == s.rows && s'.procs[p].chan == s.procs[p].chan
      && s'.procs[p] == s.procs[p].(links := s'.procs[p].links)
      && s'.procs[p].links == s.procs[p].links[j := Link(s.procs[p].links[j].tag, Some({}))]
      && s.procs[p].links[j].tag in s'.routes && s'.routes[s.procs[p].links[j].tag] == {}
      && (forall t :: t in s.routes && s.routes[t] == {} ==> t in s'.routes && s'.routes[t] == {})
  {
    OnwardBy(a, s, Route(p, j), BrokerStep);
  }

  /** The state in which both publications are known to have no audience. */
  lemma RoutesBoth(s1: Sys, p: nat, k: nat, n: nat) returns (s2: Sys)
    requires p in s1.procs && k < n < |s1.procs[p].links| == |s1.procs[p].chan.pubs| && s1.subs.Keys == {}
    requires s1.procs[p].links[k].audience.None? || s1.procs[p].links[k].audience == Some({})
    requires s1.procs[p].links[n].audience.None?
    requires s1.procs[p].links[k].tag.row in s1.rows && s1.procs[p].links[n].tag.row in s1.rows
    ensures ReachesBy(s1, s2, BrokerStep) && NobodyTook(s2, p, k, n) && s2.rows == s1.rows
    ensures s2.procs[p] == s1.procs[p].(links := s2.procs[p].links)
    ensures s1.procs[p].links[n].tag in s2.routes && s2.routes[s1.procs[p].links[n].tag] == {}
  {
    StayBy(s1, BrokerStep);
    s2 := s1;
    if s1.procs[p].links[k].audience.None? {
      RoutedToNobody(s1, s2, p, k);
      s2 := Next(s2, Route(p, k));
    }
    RoutedToNobody(s1, s2, p, n);
    s2 := Next(s2, Route(p, n));
  }

  lemma LossHappens(s: Sys, p: nat, k: nat)
    requires Enabled(s, Send(p)) && s.subs.Keys == {} && Holds(s.rows, s.procs[p].todo[0].row, s.procs[p].workerId)
    requires var q := s.procs[p];
      && k < |q.links| == |q.chan.pubs| && q.links[k].tag.row in s.rows && (q.links[k].audience.None? || q.links[k].audience == Some({}))
      && q.chan.pubs[k].owner == q.publisher && q.chan.pubs[k].messageId == Publication(s, p).messageId && !q.chan.pubs[k].confirmed
    ensures CanLose(s, p)
  {
    var s1 := Next(s, Send(p));
    var n := |s.procs[p].links|;
    var s2 := RoutesBoth(s1, p, k, n);
    var c := ReturnsThenAcks(s1, s2, p, k, n);
    var t := WithChan(s2, p, c);
    assert Verdict(t.procs[p]) == Some(Publisher.Resolved);
    assert Enabled(t, Mark(p, 0)) && LostRow(Next(t, Mark(p, 0)), s.procs[p].todo[0]);
  }

  /**
   * The exact condition. From any state the invariant allows, sending the next record can
   * end in a row that is marked published although no queue took it if and only if the
   * lease is held, no queue is bound, and the very publisher that sends it still awaits
   * the confirm of an earlier publication of the same event.
   */
  lemma LossIff(s: Sys, p: nat)
    requires Inv(s) && Enabled(s, Send(p))
    ensures CanLose(s, p) <==> Holds(s.rows, s.procs[p].todo[0].row, s.procs[p].workerId) && s.subs.Keys == {} && Awaited(s, p)
  {
    var q := s.procs[p];
    if CanLose(s, p) {
      LossNeeds(s, p);
    }
    if Holds(s.rows, q.todo[0].row, q.workerId) && s.subs.Keys == {} && Awaited(s, p) {
      var k :| 0 <= k < |q.chan.pubs| && q.chan.pubs[k].owner == q.publisher && q.chan.pubs[k].messageId == Publication(s, p).messageId && !q.chan.pubs[k].confirmed;
      assert ProcOk(s, p) && LinkOk(s, q, k) && TagOk(s, q.links[k].tag);
      assert q.links[k].audience.Some? ==> q.links[k].audience.value <= s.subs.Keys;
      assert q.links[k].audience.Some? ==> q.links[k].audience.value == {};
      LossHappens(s, p, k);
    }
  }

  /** So with a publisher for every pass no send can lose anything. */
  lemma PerPassNeverLoses(s: Sys, p: nat)
    requires Inv(s) && Enabled(s, Send(p)) && s.wiring == PublisherPerPass
    ensures !CanLose(s, p)
  {
    DeliveryProofs.PerPassIsCareful(s, Send(p));
    LossIff(s, p);
  }

  // ------------------------------------------------------------ one publisher kept over two passes

  // A worker "w" in process 0, a single row 0 for event "e", no queue bound yet.

  const T1 := Tag(0, 1)
  const T2 := Tag(0, 2)
  const LEASE := LeaseBatch(0, [0], 30000, 5)
  const NEW := Publisher.Channel([{}], false, [])
  const SENT := Publisher.Channel([{}], false, [Publisher.Publication(0, "e", false, false, None)])
  const TIMED_OUT := Publisher.Channel([{}], false, [Publisher.Publication(0, "e", false, false, Some(Publisher.Rejected(Publisher.TIMEOUT)))])

  function At(body: Body, attempts: nat, held: bool, q: Proc): Sys {
    Sys(OnePublisher, 0, map[0 := Row("e", body, attempts, if held then Some("w") else None, if attempts == 0 then 0 else 30000, None, false)],
      map[0 := q], map[], if attempts == 0 then map[] else if attempts == 1 then map[T1 := 0] else map[T1 := 0, T2 := 0], map[])
  }

  function Leased(body: Body): Sys {
    At(body, 1, true, Proc("w", true, [T1], None, 0, NEW, []))
  }

  function Failed(body: Body): Sys {
    At(body, 1, false, Proc("w", true, [], None, 0, TIMED_OUT, [Link(T1, None)]))
  }

  /** The next pass of the same relay object: the event is leased again, its first confirm is still out. */
  function Retrying(body: Body): Sys {
    At(body, 2, true, Proc("w", true, [T2], None, 0, TIMED_OUT, [Link(T1, None)]))
  }

  lemma Setup(body: Body)
    ensures ReachesBy(Empty(OnePublisher), At(body, 0, false, Fresh("w")), AnyStep)
  {
    var s0 := Empty(OnePublisher);
    var s1 := Next(s0, Produce(0, "e", body));
    HopBy(s0, Produce(0, "e", body), AnyStep);
    OnwardBy(s0, s1, Spawn(0, "w"), AnyStep);
    assert Next(s1, Spawn(0, "w")) == At(body, 0, false, Fresh("w"));
  }

  lemma FirstLease(body: Body)
    ensures ReachesBy(At(body, 0, false, Fresh("w")), Leased(body), AnyStep)
  {
    var s := At(body, 0, false, Fresh("w"));
    HopBy(s, LEASE, AnyStep);
    var t := Next(s, LEASE);
    assert t.procs[0].todo == [T1] && t.procs[0].chan == NEW;
    assert t.rows == Leased(body).rows;
    assert t == Leased(body);
  }

  function Waiting(body: Body, c: Publisher.Channel): Sys {
    At(body, 1, true, Proc("w", true, [T1], Some(0), 0, c, [Link(T1, None)]))
  }

  lemma PublishSent()
    ensures Publisher.Step(NEW, Publisher.Publish(0, "e")) == SENT
  {
    var none: set<string> := {};
    assert none - {"e"} == none;
  }

  lemma FirstSend(body: Body)
    ensures ReachesBy(Leased(body), Waiting(body, SENT), AnyStep)
  {
    var s := Leased(body);
    HopBy(s, Send(0), AnyStep);
    var q := Next(s, Send(0)).procs[0];
    PublishSent();
    assert q.links == [Link(T1, None)];
    assert Next(s, Send(0)) == Waiting(body, SENT);
  }

  lemma FirstTimeout(body: Body)
    ensures ReachesBy(Waiting(body, SENT), Failed(body), AnyStep)
  {
    var s0 := Waiting(body, SENT);
    var e := Publisher.Timeout(0);
    assert Publisher.Step(SENT, e).pubs == TIMED_OUT.pubs;
    HopBy(s0, Broker(0, e), AnyStep);
    var s1 := Next(s0, Broker(0, e));
    assert s1 == Waiting(body, TIMED_OUT);
    OnwardBy(s0, s1, Mark(0, 5), AnyStep);
    var s2 := Next(s1, Mark(0, 5));
    assert s2.rows == Failed(body).rows;
    assert s2.procs[0].todo == [];
    assert s2 == Failed(body);
  }

  lemma SecondLeaseRows(body: Body)
    ensures Apply(Failed(body).rows, Lease("w", (set i | i in [0]), 0, 30000, 5)) == Retrying(body).rows
  {
    assert 0 in [0];
  }

  lemma SecondLease(body: Body)
    ensures ReachesBy(Failed(body), Retrying(body), AnyStep)
  {
    var s := Failed(body);
    HopBy(s, LEASE, AnyStep);
    SecondLeaseRows(body);
    var t := Next(s, LEASE);
    assert t.procs[0].todo == [T2];
    assert t.procs == Retrying(body).procs;
    assert t == Retrying(body);
  }

  /**
   * A relay object that keeps its publisher, as a caller of `runOnce` may, can lose an
   * event: publish, time out, lease the event again in the next pass, and publish it while
   * the first confirm is still out and no queue is bound.
   */
  lemma ReusedPublisherLosesEvent(body: Body)
    ensures exists steps :: Legal(Empty(OnePublisher), steps) && LostRow(Run(Empty(OnePublisher), steps), T2)
  {
    var s0, s := Empty(OnePublisher), Retrying(body);
    Setup(body);
    FirstLease(body);
    FirstSend(body);
    FirstTimeout(body);
    SecondLease(body);
    ChainBy(s0, At(body, 0, false, Fresh("w")), Leased(body), AnyStep);
    ChainBy(s0, Leased(body), Waiting(body, SENT), AnyStep);
    ChainBy(s0, Waiting(body, SENT), Failed(body), AnyStep);
    ChainBy(s0, Failed(body), s, AnyStep);
    LossHappens(s, 0, 0);
    OnwardBy(s0, s, Send(0), AnyStep);
    var t, max :| ReachesBy(Next(s, Send(0)), t, BrokerStep) && Enabled(t, Mark(0, max)) && LostRow(Next(t, Mark(0, max)), T2);
    ByAny(Next(s, Send(0)), t, BrokerStep);
    ChainBy(s0, Next(s, Send(0)), t, AnyStep);
    OnwardBy(s0, t, Mark(0, max), AnyStep);
  }
}
