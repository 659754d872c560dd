/**
 * The whole path: outbox rows, any number of relay processes with their own channels,
 * the exchange, and every bound subscriber. One step is one atomic action of one party.
 */
module Delivery {
  import opened Text
  import opened Subscriber
  import opened Outbox
  import Publisher

  /** Broker side of a publication: which lease attempt it carries, and the queues that took it. */
  datatype Link = Link(tag: Tag, audience: Option<set<string>>)

  /**
   * How the relay gets its publisher. The shipped runner makes a new one for every pass on
   * the channel it keeps; a caller of `runOnce` may also keep one for all its passes.
   */
  datatype Wiring = PublisherPerPass | OnePublisher

  /**
   * A relay process between two awaits. `todo` are its leased records; `awaiting` is the
   * publication of the first one whose promise it awaits; `publisher` publishes them. A
   * process that died leaves its channel behind: what it sent can still be routed. A
   * restarted or reconnected relay is another process. Processes may share a worker id.
   */
  datatype Proc = Proc(
    workerId: string,
    alive: bool,
    todo: seq<Tag>,
    awaiting: Option<nat>,
    publisher: nat,
    chan: Publisher.Channel,
    links: seq<Link>)

  /**
   * `owner` and `routes` are history: which process leased an attempt, and which queues
   * took its publication. Subscribers bind over time and stay bound.
   */
  datatype Sys = Sys(
    wiring: Wiring,
    now: int,
    rows: Rows,
    procs: map<nat, Proc>,
    subs: map<string, Sub>,
    owner: map<Tag, nat>,
    routes: map<Tag, set<string>>)

  function Empty(wiring: Wiring): Sys {
    Sys(wiring, 0, map[], map[], map[], map[], map[])
  }

  datatype Step =
    | Tick(ms: nat)
    | Produce(id: nat, eventId: string, body: Body)
    | Bind(name: string, limit: nat)
    | Spawn(p: nat, workerId: string)
    | LeaseBatch(p: nat, picks: seq<nat>, leaseMs: nat, maxAttempts: nat)
    | Send(p: nat)
    | Route(p: nat, k: nat)
    | Broker(p: nat, event: Publisher.Event)
    | Mark(p: nat, maxAttempts: nat)
    | Abort(p: nat)
    | Die(p: nat)
    | Consume(name: string, step: SubStep)

  function Fresh(workerId: string): Proc {
    Proc(workerId, true, [], None, 0, Publisher.OPEN, [])
  }

  /** The start of a pass: under the shipped wiring every pass has its own publisher. */
  function WithPublisher(q: Proc, wiring: Wiring): Proc {
    if wiring == PublisherPerPass || q.chan.marks == [] then
      q.(chan := Publisher.Step(q.chan, Publisher.Attach), publisher := |q.chan.marks|)
    else q
  }

  /** A queue takes its copy. That the copy is new to the queue is proved, not checked. */
  function Taken(sub: Sub, tag: Tag, body: Body): Sub {
    sub.(queue := Enqueue(sub.queue, tag, body))
  }

  /** How the publication of the first record ended, once it has. */
  function Verdict(q: Proc): Option<Publisher.Outcome> {
    if q.todo == [] then None
    else if q.awaiting.None? then (if q.chan.closed then Some(Publisher.Rejected(Publisher.CHANNEL_CLOSED)) else None)
    else if q.awaiting.value < |q.chan.pubs| then q.chan.pubs[q.awaiting.value].settled
    else None
  }

  /** The broker returns exactly what no queue took, and acks only what it routed and, if unrouted, returned. */
  predicate BrokerMay(q: Proc, e: Publisher.Event) {
    && !e.Publish? && !e.Attach? && Publisher.Enabled(q.chan, e)
    && (e.Return? ==> e.k < |q.links| && q.links[e.k].audience == Some({}))
    && (e.Confirm? && e.ok ==>
          && e.k < |q.links| && q.links[e.k].audience.Some?
          && (q.links[e.k].audience.value == {} ==> q.chan.pubs[e.k].returned))
  }

  predicate Distinct<T(==)>(xs: seq<T>) {
    forall i, j :: 0 <= i < j < |xs| ==> xs[i] != xs[j]
  }

  /** What sending the first record publishes. */
  function Publication(s: Sys, p: nat): Publisher.Event
    requires p in s.procs && s.procs[p].todo != [] && s.procs[p].todo[0].row in s.rows
  {
    Publisher.Publish(s.procs[p].publisher, s.rows[s.procs[p].todo[0].row].eventId)
  }

  predicate Enabled(s: Sys, step: Step) {
    match step
    case Tick(_) => true
    case Produce(id, e, _) => id !in s.rows && forall other :: other in s.rows ==> s.rows[other].eventId != e
    case Bind(name, _) => name !in s.subs
    case Spawn(p, _) => p !in s.procs
    case LeaseBatch(p, picks, _, max) =>
      && p in s.procs && s.procs[p].alive && s.procs[p].todo == [] && s.procs[p].awaiting.None? && Distinct(picks)
      && (forall i :: 0 <= i < |picks| ==> picks[i] in s.rows && Leasable(s.rows[picks[i]], s.now, max))
    case Send(p) =>
      && p in s.procs && s.procs[p].todo != [] && s.procs[p].awaiting.None? && s.procs[p].todo[0].row in s.rows
      && Publisher.Enabled(s.procs[p].chan, Publication(s, p))
    case Route(p, k) =>
      && p in s.procs && k < |s.procs[p].links| && s.procs[p].links[k].audience.None?
      && s.procs[p].links[k].tag.row in s.rows
    case Broker(p, e) => p in s.procs && BrokerMay(s.procs[p], e)
    case Mark(p, _) => p in s.procs && Verdict(s.procs[p]).Some?
    case Abort(p) => p in s.procs && s.procs[p].awaiting.None?
    case Die(p) => p in s.procs
    case Consume(name, d) => name in s.subs && !d.Accept? && SubEnabled(s.subs[name], d)
  }

  function Next(s: Sys, step: Step): Sys
    requires Enabled(s, step)
  {
    match step
    case Tick(ms) => s.(now := s.now + ms)
    case Produce(id, e, body) => s.(rows := s.rows[id := Row(e, body, 0, None, 0, None, false)])
    case Bind(name, limit) => s.(subs := s.subs[name := NewSub(limit)])
    case Spawn(p, w) => s.(procs := s.procs[p := Fresh(w)])
    case LeaseBatch(p, picks, leaseMs, max) =>
      var tags := seq(|picks|, i requires 0 <= i < |picks| => Tag(picks[i], s.rows[picks[i]].attempts + 1));
      var op := Lease(s.procs[p].workerId, (set i | i in picks), s.now, leaseMs, max);
      s.(rows := Apply(s.rows, op),
         procs := s.procs[p := WithPublisher(s.procs[p], s.wiring).(todo := tags)],
         owner := s.owner + map t | t in tags :: p)
    case Send(p) =>
      var q := s.procs[p];
      s.(procs := s.procs[p := q.(
           chan := Publisher.Step(q.chan, Publication(s, p)),
           links := q.links + [Link(q.todo[0], None)],
           awaiting := Some(|q.chan.pubs|))])
    case Route(p, k) =>
      var q := s.procs[p];
      var tag := q.links[k].tag;
      s.(procs := s.procs[p := q.(links := q.links[k := Link(tag, Some(s.subs.Keys))])],
         routes := s.routes[tag := s.subs.Keys],
         subs := map name | name in s.subs :: Taken(s.subs[name], tag, s.rows[tag.row].body))
    case Broker(p, e) => s.(procs := s.procs[p := s.procs[p].(chan := Publisher.Step(s.procs[p].chan, e))])
    case Mark(p, max) =>
      var q := s.procs[p];
      var tag := q.todo[0];
      var op := if Verdict(q).value == Publisher.Resolved then MarkPublished(tag.row, q.workerId, tag.attempt)
                else MarkFailed(tag.row, q.workerId, max);
      s.(rows := Apply(s.rows, op), procs := s.procs[p := q.(todo := q.todo[1..], awaiting := None)])
    case Abort(p) => s.(procs := s.procs[p := s.procs[p].(todo := [])])
    case Die(p) => s.(procs := s.procs[p := s.procs[p].(alive := false, todo := [], awaiting := None)])
    case Consume(name, d) => s.(subs := s.subs[name := SubNext(s.subs[name], d)])
  }

  /** The discipline of a caller that keeps its publisher: no retry of an event that it has not seen confirmed. */
  ghost predicate Careful(s: Sys, step: Step) {
    step.Send? && Enabled(s, step) ==>
      !Publisher.Unconfirmed(s.procs[step.p].chan, s.procs[step.p].publisher, Publication(s, step.p).messageId)
  }

  predicate Legal(s: Sys, steps: seq<Step>)
    decreases steps
  {
    steps == [] || (Enabled(s, steps[0]) && Legal(Next(s, steps[0]), steps[1..]))
  }

  function Run(s: Sys, steps: seq<Step>): Sys
    requires Legal(s, steps)
    decreases steps
  {
    if steps == [] then s else Run(Next(s, steps[0]), steps[1..])
  }

  ghost predicate CarefulRun(s: Sys, steps: seq<Step>)
    requires Legal(s, steps)
    decreases steps
  {
    steps == [] || (Careful(s, steps[0]) && CarefulRun(Next(s, steps[0]), steps[1..]))
  }

  // ------------------------------------------------------------ the invariant

  /** The records a process has not sent yet. */
  function Unsent(q: Proc): seq<Tag> {
    if q.awaiting.Some? && q.todo != [] then q.todo[1..] else q.todo
  }

  /** The attempts a process still answers for: sent publications, then records not yet sent. */
  function Tags(q: Proc): seq<Tag> {
    seq(|q.links|, i requires 0 <= i < |q.links| => q.links[i].tag) + Unsent(q)
  }

  ghost predicate LinkOk(s: Sys, q: Proc, k: nat)
    requires k < |q.links| == |q.chan.pubs|
  {
    && q.links[k].tag.row in s.rows && q.chan.pubs[k].messageId == s.rows[q.links[k].tag.row].eventId
    && (q.links[k].audience.None? ==> q.links[k].tag !in s.routes)
    && (q.links[k].audience.Some? ==> q.links[k].tag in s.routes && s.routes[q.links[k].tag] == q.links[k].audience.value)
    && (q.chan.pubs[k].settled == Some(Publisher.Resolved) ==>
          q.links[k].audience.Some? && (q.links[k].audience.value == {} ==> q.chan.pubs[k].returned))
  }

  /** The rows of one pass are different, and its publisher has not published the ones still to be sent. */
  ghost predicate PassOk(q: Proc)
    requires |q.links| == |q.chan.pubs|
  {
    && (forall i, j :: 0 <= i < j < |Unsent(q)| ==> Unsent(q)[i].row != Unsent(q)[j].row)
    && (forall k, i :: 0 <= k < |q.links| && 0 <= i < |Unsent(q)| && q.chan.pubs[k].owner == q.publisher ==>
          q.links[k].tag.row != Unsent(q)[i].row)
  }

  ghost predicate ProcOk(s: Sys, p: nat) {
    p in s.procs ==>
      var q := s.procs[p];
      && Publisher.Inv(q.chan)
      && |q.links| == |q.chan.pubs|
      && (forall k :: 0 <= k < |q.links| ==> LinkOk(s, q, k))
      && (q.awaiting.Some? ==> q.awaiting.value < |q.links| && q.todo != [] && q.links[q.awaiting.value].tag == q.todo[0])
      && Distinct(Tags(q))
      && (forall i :: 0 <= i < |Tags(q)| ==> Tags(q)[i] in s.owner && s.owner[Tags(q)[i]] == p)
      && (forall i :: |q.links| <= i < |Tags(q)| ==> Tags(q)[i] !in s.routes)
      && (s.wiring == PublisherPerPass ==> PassOk(q))
  }

  ghost predicate TagOk(s: Sys, t: Tag) {
    && (t in s.owner ==> t.row in s.rows && t.attempt <= s.rows[t.row].attempts && s.owner[t] in s.procs)
    && (t in s.routes ==> t in s.owner)
    && (t in s.routes ==> forall name :: name in s.routes[t] ==>
          name in s.subs && t in s.subs[name].queue.content && t.row in s.rows && s.subs[name].queue.content[t] == s.rows[t.row].body)
  }

  ghost predicate SubOk(s: Sys, name: string) {
    name in s.subs ==>
      && SubInv(s.subs[name])
      && (forall t :: t in s.subs[name].queue.content ==> t in s.routes && name in s.routes[t])
  }

  ghost predicate RowOk(s: Sys, id: nat) {
    id in s.rows && s.rows[id].publishedAs.Some? ==>
      var t := Tag(id, s.rows[id].publishedAs.value);
      t in s.routes && s.routes[t] != {}
  }

  /** `event_id` is unique in the outbox. */
  ghost predicate EventIdsUnique(rows: Rows) {
    forall i, j :: i in rows && j in rows && rows[i].eventId == rows[j].eventId ==> i == j
  }

  ghost predicate Inv(s: Sys) {
    && EventIdsUnique(s.rows)
    && (forall p :: ProcOk(s, p))
    && (forall t :: TagOk(s, t))
    && (forall name :: SubOk(s, name))
    && (forall id :: RowOk(s, id))
  }
}
