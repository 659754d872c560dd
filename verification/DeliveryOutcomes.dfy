/** From the broker's events to the row: exactly when a sent record ends up published. */
module DeliveryOutcomes {
  import opened Text
  import opened Subscriber
  import opened Outbox
  import opened Delivery
  import opened DeliveryProofs
  import opened PublisherOutcomes
  import Publisher

  /** What one step of the system is to the channel of process `p`. */
  function EventsOf(s: Sys, step: Step, p: nat): seq<Publisher.Event>
    requires Enabled(s, step)
  {
    match step
    case LeaseBatch(q, _, _, _) => if q == p then [Publisher.Attach] else []
    case Send(q) => if q == p then [Publication(s, p)] else []
    case Broker(q, e) => if q == p then [e] else []
    case _ => []
  }

  /** The history of the channel of process `p` in a run. */
  function Heard(s: Sys, steps: seq<Step>, p: nat): seq<Publisher.Event>
    requires Legal(s, steps)
    decreases steps
  {
    if steps == [] then [] else EventsOf(s, steps[0], p) + Heard(Next(s, steps[0]), steps[1..], p)
  }

  function ChannelOf(s: Sys, p: nat): Publisher.Channel {
    if p in s.procs then s.procs[p].chan else Publisher.OPEN
  }

  lemma {:induction false} PublisherRunConcat(c: Publisher.Channel, a: seq<Publisher.Event>, b: seq<Publisher.Event>)
    requires Publisher.Legal(c, a) && Publisher.Legal(Publisher.Run(c, a), b)
    ensures Publisher.Legal(c, a + b) && Publisher.Run(c, a + b) == Publisher.Run(Publisher.Run(c, a), b)
    decreases a
  {
    if a == [] {
      assert a + b == b;
    } else {
      assert (a + b)[0] == a[0] && (a + b)[1..] == a[1..] + b;
      PublisherRunConcat(Publisher.Step(c, a[0]), a[1..], b);
    }
  }

  lemma ChannelStep(s: Sys, step: Step, p: nat)
    requires Enabled(s, step) && s.wiring == PublisherPerPass
    ensures Next(s, step).wiring == PublisherPerPass
    ensures var es := EventsOf(s, step, p);
      Publisher.Legal(ChannelOf(s, p), es) && Publisher.Run(ChannelOf(s, p), es) == ChannelOf(Next(s, step), p)
  {
    var es := EventsOf(s, step, p);
    if es != [] {
      assert es[1..] == [] && Publisher.Enabled(ChannelOf(s, p), es[0]);
      assert Publisher.Step(ChannelOf(s, p), es[0]) == ChannelOf(Next(s, step), p);
      assert Publisher.Legal(ChannelOf(Next(s, step), p), es[1..]);
    }
  }

  /** The channel of a process is where its history leads, from open. */
  lemma {:induction false} ChannelIsHeard(s: Sys, steps: seq<Step>, p: nat)
    requires Legal(s, steps) && s.wiring == PublisherPerPass
    ensures Publisher.Legal(ChannelOf(s, p), Heard(s, steps, p))
    ensures ChannelOf(Run(s, steps), p) == Publisher.Run(ChannelOf(s, p), Heard(s, steps, p))
    decreases steps
  {
    if steps != [] {
      ChannelStep(s, steps[0], p);
      ChannelIsHeard(Next(s, steps[0]), steps[1..], p);
      PublisherRunConcat(ChannelOf(s, p), EventsOf(s, steps[0], p), Heard(Next(s, steps[0]), steps[1..], p));
    }
  }

  /** The publication a process awaits, of all that its channel's history published. */
  ghost predicate Awaits(s: Sys, p: nat, k: nat, h: seq<Publisher.Event>, sent: Sent) {
    && p in s.procs && s.procs[p].todo != [] && s.procs[p].awaiting == Some(k)
    && k < |Publications(h)| && Publications(h)[k] == sent
  }

  /** The first event that settles publication `k` is an ack, and its publisher then has no return of the event to use up. */
  ghost predicate AckedFirst(h: seq<Publisher.Event>, k: nat, sent: Sent) {
    exists i: nat :: SettledAt(h, i, k) && h[i] == Publisher.Confirm(k, true) && !ReturnPending(h[..i], sent.publisher, sent.messageId)
  }

  lemma AwaitedPublication(s: Sys, steps: seq<Step>, p: nat, k: nat) returns (sent: Sent)
    requires Inv(s) && s.wiring == PublisherPerPass && p !in s.procs && Legal(s, steps)
    requires p in Run(s, steps).procs && Run(s, steps).procs[p].todo != [] && Run(s, steps).procs[p].awaiting == Some(k)
    ensures var t := Run(s, steps); var q := t.procs[p];
      && Inv(t) && Awaits(t, p, k, Heard(s, steps, p), sent) && q.todo[0].row in t.rows
      && sent.messageId == t.rows[q.todo[0].row].eventId
      && k < |q.links| && q.links[k].tag == q.todo[0]
      && (Verdict(q) == Some(Publisher.Resolved) <==> AckedFirst(Heard(s, steps, p), k, sent))
  {
    var t, h := Run(s, steps), Heard(s, steps, p);
    var q := t.procs[p];
    RunKeeps(s, steps);
    assert ProcOk(t, p) && LinkOk(t, q, k);
    ChannelIsHeard(s, steps, p);
    SentSoFar(h);
    sent := Publications(h)[k];
    OutcomeIff(h, k);
  }

  /**
   * Exactly when a process publishes the row of a record it has sent, over every run of the
   * system: it still holds the row, and its channel's history has an ack as the first event
   * that settles this publication, with no return of the event pending. In every other case
   * a row it still holds goes back to the pool, or is parked if no attempt is left.
   */
  lemma PublishesIff(s: Sys, steps: seq<Step>, p: nat, k: nat, max: nat) returns (sent: Sent)
    requires Inv(s) && s.wiring == PublisherPerPass && p !in s.procs && Legal(s, steps) && Enabled(Run(s, steps), Mark(p, max))
    requires Run(s, steps).procs[p].awaiting == Some(k)
    ensures
      var t := Run(s, steps); var tag, w := t.procs[p].todo[0], t.procs[p].workerId;
      var t', h := Next(t, Mark(p, max)), Heard(s, steps, p);
      && Inv(t) && (Verdict(t.procs[p]) == Some(Publisher.Resolved) <==> AckedFirst(h, k, sent))
      && Awaits(t, p, k, h, sent) && tag.row in t.rows && sent.messageId == t.rows[tag.row].eventId
      && (t.rows[tag.row].publishedAs.None? && t'.rows[tag.row].publishedAs == Some(tag.attempt) <==>
            Holds(t.rows, tag.row, w) && AckedFirst(h, k, sent))
      && (Holds(t.rows, tag.row, w) && !AckedFirst(h, k, sent) ==>
            t'.rows[tag.row] == t.rows[tag.row].(lockedBy := None, dead := t.rows[tag.row].attempts >= max))
      && (!Holds(t.rows, tag.row, w) ==> t'.rows == t.rows)
  {
    sent := AwaitedPublication(s, steps, p, k);
  }

  /** A record that could not be sent, because the channel had closed, is given back or parked; it is never published. */
  lemma UnsentIsNotPublished(s: Sys, p: nat, max: nat)
    requires Enabled(s, Mark(p, max)) && s.procs[p].awaiting.None?
    ensures
      var tag, w, t := s.procs[p].todo[0], s.procs[p].workerId, Next(s, Mark(p, max));
      && s.procs[p].chan.closed
      && t.rows == if Holds(s.rows, tag.row, w)
                   then s.rows[tag.row := s.rows[tag.row].(lockedBy := None, dead := s.rows[tag.row].attempts >= max)]
                   else s.rows
  {
  }

  // ------------------------------------------------------------ a queue that is bound

  /** No publication of the process was routed to nobody. */
  ghost predicate AllTaken(s: Sys, p: nat) {
    && s.subs.Keys != {}
    && (p in s.procs ==> forall k :: 0 <= k < |s.procs[p].links| ==> s.procs[p].links[k].audience != Some({}))
  }

  lemma TakenStep(s: Sys, step: Step, p: nat)
    requires Enabled(s, step) && AllTaken(s, p)
    ensures AllTaken(Next(s, step), p)
    ensures forall i :: 0 <= i < |EventsOf(s, step, p)| ==> !EventsOf(s, step, p)[i].Return?
  {
    var t := Next(s, step);
    if name :| name in s.subs { assert name in t.subs; }
  }

  lemma {:induction false} NothingReturned(s: Sys, steps: seq<Step>, p: nat)
    requires Legal(s, steps) && AllTaken(s, p)
    ensures AllTaken(Run(s, steps), p) && forall i :: 0 <= i < |Heard(s, steps, p)| ==> !Heard(s, steps, p)[i].Return?
    decreases steps
  {
    if steps != [] {
      TakenStep(s, steps[0], p);
      NothingReturned(Next(s, steps[0]), steps[1..], p);
    }
  }

  /** The first event that settles publication `k` is an ack. */
  ghost predicate Acked(h: seq<Publisher.Event>, k: nat) {
    exists i: nat :: SettledAt(h, i, k) && h[i] == Publisher.Confirm(k, true)
  }

  lemma NothingPending(h: seq<Publisher.Event>, k: nat, sent: Sent)
    requires forall i :: 0 <= i < |h| ==> !h[i].Return?
    ensures AckedFirst(h, k, sent) <==> Acked(h, k)
  {
    forall i: nat | i <= |h| ensures !ReturnPending(h[..i], sent.publisher, sent.messageId) {}
    if i: nat :| SettledAt(h, i, k) && h[i] == Publisher.Confirm(k, true) {
      assert !ReturnPending(h[..i], sent.publisher, sent.messageId);
    }
  }

  /** Queues took publication `k` of process `p`, all that were bound, and each has the copy or its effect. */
  ghost predicate TakenByAll(t: Sys, p: nat, k: nat, tag: Tag) {
    && p in t.procs && k < |t.procs[p].links| && t.procs[p].links[k].tag == tag && tag.row in t.rows
    && t.procs[p].links[k].audience.Some? && t.procs[p].links[k].audience.value != {}
    && forall name :: name in t.procs[p].links[k].audience.value ==> name in t.subs && Safe(t.subs[name], tag, t.rows[tag.row].body)
  }

  lemma AckedIsTaken(t: Sys, p: nat, k: nat)
    requires Inv(t) && AllTaken(t, p) && p in t.procs && t.procs[p].todo != [] && t.procs[p].awaiting == Some(k)
    requires Verdict(t.procs[p]) == Some(Publisher.Resolved)
    ensures TakenByAll(t, p, k, t.procs[p].todo[0])
  {
    var q := t.procs[p];
    assert ProcOk(t, p) && LinkOk(t, q, k) && TagOk(t, q.todo[0]);
    forall name | name in q.links[k].audience.value ensures name in t.subs && Safe(t.subs[name], q.todo[0], t.rows[q.todo[0].row].body) {
      CopyIsAccounted(t, name, q.todo[0]);
    }
  }

  lemma MarkKeepsTaken(t: Sys, p: nat, k: nat, tag: Tag, max: nat)
    requires Enabled(t, Mark(p, max)) && TakenByAll(t, p, k, tag)
    ensures TakenByAll(Next(t, Mark(p, max)), p, k, tag)
  {
  }

  /**
   * With a queue bound before the process started, the ack alone decides: in every run, with
   * whatever retries, crashes and lost channels, a record that is marked under its lease is
   * published if and only if its publication was acked before anything else settled it; and
   * then every queue that was bound when the broker routed it has the event.
   */
  lemma AckDecides(s: Sys, steps: seq<Step>, p: nat, k: nat, max: nat)
    requires Inv(s) && s.wiring == PublisherPerPass && p !in s.procs && s.subs.Keys != {}
    requires Legal(s, steps) && Enabled(Run(s, steps), Mark(p, max)) && Run(s, steps).procs[p].awaiting == Some(k)
    requires Holds(Run(s, steps).rows, Run(s, steps).procs[p].todo[0].row, Run(s, steps).procs[p].workerId)
    ensures
      var t := Run(s, steps); var tag, t' := t.procs[p].todo[0], Next(t, Mark(p, max));
      && tag.row in t'.rows
      && (t'.rows[tag.row].publishedAs == Some(tag.attempt) <==> Acked(Heard(s, steps, p), k))
      && (Acked(Heard(s, steps, p), k) ==> TakenByAll(t', p, k, tag))
  {
    var sent := PublishesIff(s, steps, p, k, max);
    NothingReturned(s, steps, p);
    NothingPending(Heard(s, steps, p), k, sent);
    if Acked(Heard(s, steps, p), k) {
      var t := Run(s, steps);
      AckedIsTaken(t, p, k);
      MarkKeepsTaken(t, p, k, t.procs[p].todo[0], max);
    }
  }
}
