/**
 * One subscribing service: its quorum queue with a broker-held delivery counter and a
 * dead-letter queue, its inbox table, and any number of consumer replicas.
 */
module Subscriber {
  import opened Text

  /** What `parse(JSON.parse(body))` makes of the bytes: refused, or an event envelope. */
  datatype Body = Malformed(raw: string) | Envelope(eventId: string, eventType: string, correlationId: string, payload: string)

  /** SHA-256 of the body, taken to be free of collisions. */
  datatype Digest = Sha256(of: Body)

  /** Inbox rows by event id, and every local effect that was committed, oldest first. */
  datatype Store = Store(inbox: map<string, Digest>, effects: seq<Body>)

  datatype InboxOutcome = APPLIED | DUPLICATE | CONFLICT

  /** The inbox transaction: row and effect together, or the verdict against the committed row. */
  function ApplyOnce(st: Store, body: Body): (Store, InboxOutcome)
    requires body.Envelope?
  {
    if body.eventId !in st.inbox then
      (Store(st.inbox[body.eventId := Sha256(body)], st.effects + [body]), APPLIED)
    else if st.inbox[body.eventId] == Sha256(body) then (st, DUPLICATE)
    else (st, CONFLICT)
  }

  /** Row and effect always stand together: one row per effect, at most one effect per event id. */
  ghost predicate StoreInv(st: Store) {
    && (forall i :: 0 <= i < |st.effects| ==>
          && st.effects[i].Envelope? && st.effects[i].eventId in st.inbox
          && st.inbox[st.effects[i].eventId] == Sha256(st.effects[i]))
    && (forall i, j :: 0 <= i < j < |st.effects| ==> st.effects[i].eventId != st.effects[j].eventId)
    && (forall e :: e in st.inbox ==> st.inbox[e].of in st.effects && st.inbox[e].of.Envelope? && st.inbox[e].of.eventId == e)
  }

  /** A committed inbox row that proves this body's effect. */
  predicate Committed(st: Store, body: Body) {
    body.Envelope? && body.eventId in st.inbox && st.inbox[body.eventId] == Sha256(body)
  }

  predicate Contradicted(st: Store, body: Body) {
    body.Envelope? && body.eventId in st.inbox && st.inbox[body.eventId] != Sha256(body)
  }

  lemma ApplyOnceKeepsStore(st: Store, body: Body)
    requires StoreInv(st) && body.Envelope?
    ensures var (st', o) := ApplyOnce(st, body);
      && StoreInv(st')
      && (o != CONFLICT ==> Committed(st', body))
      && (o == CONFLICT ==> Contradicted(st', body))
  {
    var st' := ApplyOnce(st, body).0;
    if body.eventId !in st.inbox {
      assert st'.effects[|st.effects|] == body;
      forall e | e in st'.inbox ensures st'.inbox[e].of in st'.effects {
        if e != body.eventId { assert st.inbox[e].of in st.effects; }
      }
    }
  }

  // ------------------------------------------------------------------ the queue

  /** A broker copy: the outbox row it came from and the lease attempt that published it. */
  datatype Tag = Tag(row: nat, attempt: nat)

  datatype Cause = PARSE_ERROR | PAYLOAD_CONFLICT | DELIVERY_LIMIT

  /**
   * `count` is the broker's delivery counter; `handed` is history: how often the copy
   * was handed to a consumer. `unacked` names the delivery that may settle the copy.
   */
  datatype Queue = Queue(
    limit: nat,
    content: map<Tag, Body>,
    ready: set<Tag>,
    unacked: map<Tag, nat>,
    dead: map<Tag, Cause>,
    acked: set<Tag>,
    count: map<Tag, nat>,
    handed: map<Tag, nat>)

  function EmptyQueue(limit: nat): Queue {
    Queue(limit, map[], {}, map[], map[], {}, map[], map[])
  }

  function Enqueue(q: Queue, t: Tag, body: Body): Queue {
    q.(content := q.content[t := body], ready := q.ready + {t}, count := q.count[t := 0], handed := q.handed[t := 0])
  }

  function HandOut(q: Queue, t: Tag, d: nat): Queue
    requires t in q.handed
  {
    q.(ready := q.ready - {t}, unacked := q.unacked[t := d], handed := q.handed[t := q.handed[t] + 1])
  }

  /** Nack with requeue, or the loss of the consumer's channel: the broker counts it either way. */
  function GiveBack(q: Queue, t: Tag): Queue
    requires t in q.count
  {
    var n := q.count[t] + 1;
    var q' := q.(unacked := q.unacked - {t}, count := q.count[t := n]);
    if n > q.limit then q'.(dead := q.dead[t := DELIVERY_LIMIT]) else q'.(ready := q.ready + {t})
  }

  function DeadLetter(q: Queue, t: Tag, why: Cause): Queue {
    q.(unacked := q.unacked - {t}, dead := q.dead[t := why])
  }

  function Ack(q: Queue, t: Tag): Queue {
    q.(unacked := q.unacked - {t}, acked := q.acked + {t})
  }

  /** In how many places of the broker this copy is. */
  function Places(q: Queue, t: Tag): nat {
    (if t in q.ready then 1 else 0) + (if t in q.unacked then 1 else 0)
    + (if t in q.dead then 1 else 0) + (if t in q.acked then 1 else 0)
  }

  /**
   * Every copy the broker took is in exactly one place; the broker counter bounds its
   * deliveries; dead-lettering by limit never comes early.
   */
  ghost predicate CopyInv(q: Queue, t: Tag) {
    && Places(q, t) == (if t in q.content then 1 else 0)
    && (t in q.content <==> t in q.count) && (t in q.content <==> t in q.handed)
    && (t in q.content ==>
          && q.handed[t] <= q.limit + 1
          && (t in q.ready ==> q.handed[t] == q.count[t] <= q.limit)
          && (t in q.unacked ==> q.handed[t] == q.count[t] + 1)
          && (t in q.dead ==> (q.dead[t] == DELIVERY_LIMIT <==> q.count[t] == q.limit + 1))
          && (t in q.dead && q.dead[t] == DELIVERY_LIMIT ==> q.handed[t] == q.limit + 1))
  }

  ghost predicate QueueInv(q: Queue) {
    forall t :: CopyInv(q, t)
  }

  // ------------------------------------------------------------------ consumers

  datatype Stage = Received | Ran(outcome: InboxOutcome)

  /** One execution of `handle`. It may outlive its delivery when the channel is lost. */
  datatype Handler = Handler(tag: Tag, stage: Stage)

  datatype Sub = Sub(queue: Queue, store: Store, handlers: map<nat, Handler>, next: nat)

  function NewSub(limit: nat): Sub {
    Sub(EmptyQueue(limit), Store(map[], []), map[], 0)
  }

  datatype SubStep =
    | Accept(tag: Tag, body: Body)       // the broker routes a publication here
    | Deliver(tag: Tag)                  // a consumer receives the copy
    | Commit(d: nat)                     // its inbox transaction commits
    | Throw(d: nat)                      // parsing succeeded, the transaction failed and rolled back
    | Finish(d: nat, hookThrows: bool)   // dead-letter, ack, or a throw between commit and ack
    | Lose(d: nat)                       // the channel is lost, the handler keeps running
    | Crash(d: nat)                      // the consumer process dies

  /** Only the delivery the broker still waits for can settle a copy. */
  predicate Owns(s: Sub, d: nat) {
    d in s.handlers && s.handlers[d].tag in s.queue.unacked && s.queue.unacked[s.handlers[d].tag] == d
  }

  function BodyOf(s: Sub, d: nat): Body
    requires d in s.handlers && s.handlers[d].tag in s.queue.content
  {
    s.queue.content[s.handlers[d].tag]
  }

  predicate SubEnabled(s: Sub, step: SubStep) {
    match step
    case Accept(t, _) => t !in s.queue.content
    case Deliver(t) => t in s.queue.ready && t in s.queue.handed
    case Commit(d) => d in s.handlers && s.handlers[d].stage == Received && s.handlers[d].tag in s.queue.content && BodyOf(s, d).Envelope?
    case Throw(d) => d in s.handlers && s.handlers[d].stage == Received && s.handlers[d].tag in s.queue.content && BodyOf(s, d).Envelope?
    case Finish(d, _) => d in s.handlers && s.handlers[d].tag in s.queue.content && (s.handlers[d].stage.Ran? || BodyOf(s, d).Malformed?)
    case Lose(d) => d in s.handlers
    case Crash(d) => d in s.handlers
  }

  /** A settlement reaches the broker only from the owning delivery. */
  function Returned(s: Sub, d: nat): Queue {
    if Owns(s, d) && s.handlers[d].tag in s.queue.count then GiveBack(s.queue, s.handlers[d].tag) else s.queue
  }

  function SubNext(s: Sub, step: SubStep): Sub
    requires SubEnabled(s, step)
  {
    match step
    case Accept(t, body) => s.(queue := Enqueue(s.queue, t, body))
    case Deliver(t) =>
      s.(queue := HandOut(s.queue, t, s.next), handlers := s.handlers[s.next := Handler(t, Received)], next := s.next + 1)
    case Commit(d) =>
      var (st, o) := ApplyOnce(s.store, BodyOf(s, d));
      s.(store := st, handlers := s.handlers[d := s.handlers[d].(stage := Ran(o))])
    case Throw(d) => s.(queue := Returned(s, d), handlers := s.handlers - {d})
    case Finish(d, hookThrows) =>
      var h := s.handlers[d];
      var q :=
        if !Owns(s, d) then s.queue
        else if h.stage == Received then DeadLetter(s.queue, h.tag, PARSE_ERROR)
        else if h.stage.outcome == CONFLICT then DeadLetter(s.queue, h.tag, PAYLOAD_CONFLICT)
        else if hookThrows then Returned(s, d)
        else Ack(s.queue, h.tag);
      s.(queue := q, handlers := s.handlers - {d})
    case Lose(d) => s.(queue := Returned(s, d))
    case Crash(d) => s.(queue := Returned(s, d), handlers := s.handlers - {d})
  }

  /** A handler acts on a known copy, and what it remembers of its transaction is still true. */
  ghost predicate HandlerOk(s: Sub, d: nat) {
    d in s.handlers ==>
      && d < s.next && s.handlers[d].tag in s.queue.content
      && (s.handlers[d].stage.Ran? ==>
            if s.handlers[d].stage.outcome == CONFLICT then Contradicted(s.store, BodyOf(s, d))
            else Committed(s.store, BodyOf(s, d)))
  }

  /** Nothing is acked without its committed row, nothing is dead-lettered without its cause. */
  ghost predicate VerdictOk(s: Sub, t: Tag) {
    && (t in s.queue.unacked ==> s.queue.unacked[t] in s.handlers && s.handlers[s.queue.unacked[t]].tag == t)
    && (t in s.queue.content ==>
          && (t in s.queue.acked ==> Committed(s.store, s.queue.content[t]))
          && (t in s.queue.dead && s.queue.dead[t] == PARSE_ERROR ==> s.queue.content[t].Malformed?)
          && (t in s.queue.dead && s.queue.dead[t] == PAYLOAD_CONFLICT ==> Contradicted(s.store, s.queue.content[t])))
  }

  ghost predicate SubInv(s: Sub) {
    && QueueInv(s.queue)
    && StoreInv(s.store)
    && (forall d :: HandlerOk(s, d))
    && (forall t :: VerdictOk(s, t))
  }
}
