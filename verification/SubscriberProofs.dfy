/** What every step, and so every run, of a subscriber keeps. */
module SubscriberProofs {
  import opened Text
  import opened Subscriber

  /** What no step ever undoes, seen from one copy and one event id. */
  ghost predicate CopyEvolves(q: Queue, q': Queue, t: Tag) {
    && (t in q.content ==> t in q'.content && q'.content[t] == q.content[t])
    && (t in q.acked ==> t in q'.acked)
    && (t in q.dead ==> t in q'.dead && q'.dead[t] == q.dead[t])
    && (t in q.count ==> t in q'.count && q.count[t] <= q'.count[t])
  }

  ghost predicate Evolves(s: Sub, s': Sub) {
    && s'.queue.limit == s.queue.limit
    && (forall t :: CopyEvolves(s.queue, s'.queue, t))
    && s.store.effects <= s'.store.effects
    && (forall e :: e in s.store.inbox ==> e in s'.store.inbox && s'.store.inbox[e] == s.store.inbox[e])
  }

  lemma EvolvesTransitive(a: Sub, b: Sub, c: Sub)
    requires Evolves(a, b) && Evolves(b, c)
    ensures Evolves(a, c)
  {
    forall t ensures CopyEvolves(a.queue, c.queue, t) {
      assert CopyEvolves(a.queue, b.queue, t) && CopyEvolves(b.queue, c.queue, t);
    }
  }

  /** All but the named copy stay as they are, and that one only moves forward. */
  ghost predicate QueueStep(q: Queue, q': Queue, t: Tag) {
    && q'.limit == q.limit
    && (forall u :: CopyEvolves(q, q', u))
    && (forall u :: u != t ==> SameCopy(q, q', u))
  }

  ghost predicate SameCopy(q: Queue, q': Queue, u: Tag) {
    && (u in q.content <==> u in q'.content)
    && (u in q.acked <==> u in q'.acked)
    && (u in q.dead <==> u in q'.dead)
    && (u in q.unacked <==> u in q'.unacked) && (u in q.unacked ==> q.unacked[u] == q'.unacked[u])
    && (u in q.handed <==> u in q'.handed) && (u in q.handed ==> q.handed[u] == q'.handed[u])
  }

  lemma EnqueueKeeps(q: Queue, t: Tag, body: Body)
    requires QueueInv(q) && t !in q.content
    ensures QueueInv(Enqueue(q, t, body)) && QueueStep(q, Enqueue(q, t, body), t)
  {
    var q' := Enqueue(q, t, body);
    assert CopyInv(q, t);
    forall u ensures CopyInv(q', u) { assert CopyInv(q, u); }
  }

  lemma HandOutKeeps(q: Queue, t: Tag, d: nat)
    requires QueueInv(q) && t in q.ready && t in q.handed
    ensures QueueInv(HandOut(q, t, d)) && QueueStep(q, HandOut(q, t, d), t)
  {
    assert CopyInv(q, t);
    forall u ensures CopyInv(HandOut(q, t, d), u) { assert CopyInv(q, u); }
  }

  lemma GiveBackKeeps(q: Queue, t: Tag)
    requires QueueInv(q) && t in q.unacked
    ensures t in q.count && QueueInv(GiveBack(q, t)) && QueueStep(q, GiveBack(q, t), t)
  {
    assert CopyInv(q, t);
    forall u ensures CopyInv(GiveBack(q, t), u) { assert CopyInv(q, u); }
  }

  lemma SettleKeeps(q: Queue, t: Tag, why: Cause)
    requires QueueInv(q) && t in q.unacked
    ensures QueueInv(Ack(q, t)) && QueueStep(q, Ack(q, t), t)
    ensures why != DELIVERY_LIMIT ==> QueueInv(DeadLetter(q, t, why)) && QueueStep(q, DeadLetter(q, t, why), t)
  {
    assert CopyInv(q, t);
    forall u ensures CopyInv(Ack(q, t), u) && (why != DELIVERY_LIMIT ==> CopyInv(DeadLetter(q, t, why), u)) {
      assert CopyInv(q, u);
    }
  }

  /**
   * The part of the invariant that mentions handlers, for a step in which delivery `d`
   * ends or starts: the queue moves one copy forward and that copy's verdict is right.
   */
  lemma HandlersKeep(s: Sub, q: Queue, d: nat, keep: bool)
    requires SubInv(s) && d in s.handlers && QueueInv(q) && QueueStep(s.queue, q, s.handlers[d].tag)
    requires q.content == s.queue.content
    requires Owns(s, d) ==> s.handlers[d].tag !in q.unacked
    requires !Owns(s, d) ==> q == s.queue
    requires VerdictOk(s.(queue := q), s.handlers[d].tag)
    ensures SubInv(s.(queue := q, handlers := if keep then s.handlers else s.handlers - {d}))
    ensures Evolves(s, s.(queue := q, handlers := if keep then s.handlers else s.handlers - {d}))
  {
    var t := s.handlers[d].tag;
    var s' := s.(queue := q, handlers := if keep then s.handlers else s.handlers - {d});
    forall e ensures HandlerOk(s', e) { assert HandlerOk(s, e); }
    forall u ensures VerdictOk(s', u) {
      assert VerdictOk(s, u);
      if u != t { assert SameCopy(s.queue, q, u) && CopyEvolves(s.queue, q, u); }
    }
  }

  lemma ReturnKeeps(s: Sub, d: nat, keep: bool)
    requires SubInv(s) && d in s.handlers
    ensures var s' := s.(queue := Returned(s, d), handlers := if keep then s.handlers else s.handlers - {d});
      SubInv(s') && Evolves(s, s')
  {
    var t := s.handlers[d].tag;
    assert CopyInv(s.queue, t) && VerdictOk(s, t);
    if Owns(s, d) { GiveBackKeeps(s.queue, t); }
    HandlersKeep(s, Returned(s, d), d, keep);
  }

  lemma FinishKeeps(s: Sub, d: nat, hookThrows: bool)
    requires SubInv(s) && SubEnabled(s, Finish(d, hookThrows))
    ensures SubInv(SubNext(s, Finish(d, hookThrows))) && Evolves(s, SubNext(s, Finish(d, hookThrows)))
  {
    var h := s.handlers[d];
    assert HandlerOk(s, d) && CopyInv(s.queue, h.tag) && VerdictOk(s, h.tag);
    if !Owns(s, d) || (h.stage.Ran? && h.stage.outcome != CONFLICT && hookThrows) {
      ReturnKeeps(s, d, false);
    } else {
      var why := if h.stage == Received then PARSE_ERROR else PAYLOAD_CONFLICT;
      SettleKeeps(s.queue, h.tag, why);
      HandlersKeep(s, SubNext(s, Finish(d, hookThrows)).queue, d, false);
    }
  }

  lemma CommitKeeps(s: Sub, d: nat)
    requires SubInv(s) && SubEnabled(s, Commit(d))
    ensures SubInv(SubNext(s, Commit(d))) && Evolves(s, SubNext(s, Commit(d)))
  {
    var s' := SubNext(s, Commit(d));
    ApplyOnceKeepsStore(s.store, BodyOf(s, d));
    forall e ensures HandlerOk(s', e) { assert HandlerOk(s, e); }
    forall u ensures VerdictOk(s', u) { assert VerdictOk(s, u); }
  }

  lemma DeliverKeeps(s: Sub, t: Tag)
    requires SubInv(s) && SubEnabled(s, Deliver(t))
    ensures SubInv(SubNext(s, Deliver(t))) && Evolves(s, SubNext(s, Deliver(t)))
  {
    var s' := SubNext(s, Deliver(t));
    HandOutKeeps(s.queue, t, s.next);
    assert CopyInv(s.queue, t) && HandlerOk(s, s.next);
    forall e ensures HandlerOk(s', e) { assert HandlerOk(s, e); }
    forall u ensures VerdictOk(s', u) {
      assert VerdictOk(s, u);
      if u in s.queue.unacked { assert HandlerOk(s, s.queue.unacked[u]); }
    }
  }

  lemma AcceptKeeps(s: Sub, t: Tag, body: Body)
    requires SubInv(s) && SubEnabled(s, Accept(t, body))
    ensures SubInv(SubNext(s, Accept(t, body))) && Evolves(s, SubNext(s, Accept(t, body)))
  {
    var s' := SubNext(s, Accept(t, body));
    EnqueueKeeps(s.queue, t, body);
    assert CopyInv(s.queue, t);
    forall e ensures HandlerOk(s', e) { assert HandlerOk(s, e); }
    forall u ensures VerdictOk(s', u) { assert VerdictOk(s, u); }
  }

  lemma StepKeepsSub(s: Sub, step: SubStep)
    requires SubInv(s) && SubEnabled(s, step)
    ensures SubInv(SubNext(s, step)) && Evolves(s, SubNext(s, step))
  {
    match step
    case Accept(t, body) => AcceptKeeps(s, t, body);
    case Deliver(t) => DeliverKeeps(s, t);
    case Commit(d) => CommitKeeps(s, d);
    case Throw(d) => ReturnKeeps(s, d, false);
    case Finish(d, hookThrows) => FinishKeeps(s, d, hookThrows);
    case Lose(d) => ReturnKeeps(s, d, true);
    case Crash(d) => ReturnKeeps(s, d, false);
  }

  predicate SubLegal(s: Sub, steps: seq<SubStep>)
    decreases steps
  {
    steps == [] || (SubEnabled(s, steps[0]) && SubLegal(SubNext(s, steps[0]), steps[1..]))
  }

  function SubRun(s: Sub, steps: seq<SubStep>): Sub
    requires SubLegal(s, steps)
    decreases steps
  {
    if steps == [] then s else SubRun(SubNext(s, steps[0]), steps[1..])
  }

  lemma {:induction false} RunKeepsSub(s: Sub, steps: seq<SubStep>)
    requires SubInv(s) && SubLegal(s, steps)
    ensures SubInv(SubRun(s, steps)) && Evolves(s, SubRun(s, steps))
    decreases steps
  {
    if steps != [] {
      StepKeepsSub(s, steps[0]);
      RunKeepsSub(SubNext(s, steps[0]), steps[1..]);
      EvolvesTransitive(s, SubNext(s, steps[0]), SubRun(s, steps));
    }
  }

  // ------------------------------------------------------------ once-only effect

  function EffectsOf(effects: seq<Body>, e: string): nat {
    if effects == [] then 0
    else EffectsOf(effects[..|effects| - 1], e)
         + (if effects[|effects| - 1].Envelope? && effects[|effects| - 1].eventId == e then 1 else 0)
  }

  lemma {:induction false} DistinctEffectsCount(effects: seq<Body>, e: string)
    requires forall i :: 0 <= i < |effects| ==> effects[i].Envelope?
    requires forall i, j :: 0 <= i < j < |effects| ==> effects[i].eventId != effects[j].eventId
    ensures EffectsOf(effects, e) == if exists i :: 0 <= i < |effects| && effects[i].eventId == e then 1 else 0
  {
    if effects != [] {
      var front := effects[..|effects| - 1];
      DistinctEffectsCount(front, e);
      if exists i :: 0 <= i < |front| && front[i].eventId == e {
        var i :| 0 <= i < |front| && front[i].eventId == e;
        assert effects[i].eventId == e;
      } else if exists i :: 0 <= i < |effects| && effects[i].eventId == e {
        var i :| 0 <= i < |effects| && effects[i].eventId == e;
        assert !(i < |front|);
      }
    }
  }

  /**
   * Over every run (crashes between commit and ack, redeliveries, duplicate and
   * conflicting publications, handlers that outlive their channel): an event's effect
   * happens once if its inbox row exists and never otherwise, and a copy is acked only
   * when the row committed for it carries the hash of that very copy.
   */
  lemma EffectHappensOnce(limit: nat, steps: seq<SubStep>, e: string)
    requires SubLegal(NewSub(limit), steps)
    ensures
      var s := SubRun(NewSub(limit), steps);
      && EffectsOf(s.store.effects, e) == (if e in s.store.inbox then 1 else 0)
      && (forall t :: t in s.queue.acked ==> t in s.queue.content && Committed(s.store, s.queue.content[t]) && s.queue.content[t] in s.store.effects)
  {
    RunKeepsSub(NewSub(limit), steps);
    var s := SubRun(NewSub(limit), steps);
    DistinctEffectsCount(s.store.effects, e);
    forall t | t in s.queue.acked ensures t in s.queue.content && Committed(s.store, s.queue.content[t]) {
      assert CopyInv(s.queue, t) && VerdictOk(s, t);
    }
    if e in s.store.inbox {
      var b := s.store.inbox[e].of;
      assert b in s.store.effects;
    }
  }

  // ------------------------------------------------------------ bounded redelivery

  function Deliveries(steps: seq<SubStep>, t: Tag): nat {
    if steps == [] then 0
    else (if steps[0] == Deliver(t) then 1 else 0) + Deliveries(steps[1..], t)
  }

  function Handed(s: Sub, t: Tag): nat {
    if t in s.queue.handed then s.queue.handed[t] else 0
  }

  lemma HandedByStep(s: Sub, step: SubStep, t: Tag)
    requires SubInv(s) && SubEnabled(s, step)
    ensures Handed(SubNext(s, step), t) == Handed(s, t) + (if step == Deliver(t) then 1 else 0)
  {
    assert CopyInv(s.queue, t);
  }

  lemma {:induction false} HandedCountsDeliveries(s: Sub, steps: seq<SubStep>, t: Tag)
    requires SubInv(s) && SubLegal(s, steps)
    ensures Handed(SubRun(s, steps), t) == Handed(s, t) + Deliveries(steps, t)
    decreases steps
  {
    if steps != [] {
      var s' := SubNext(s, steps[0]);
      StepKeepsSub(s, steps[0]);
      HandedByStep(s, steps[0], t);
      assert Handed(s', t) == Handed(s, t) + (if steps[0] == Deliver(t) then 1 else 0);
      HandedCountsDeliveries(s', steps[1..], t);
    }
  }

  /**
   * However often consumers restart, a copy is handed out at most limit + 1 times; once
   * that is spent and nobody holds it, it is acked if its own inbox row is committed and
   * in the dead-letter queue otherwise, so a copy that always fails, or cannot be parsed,
   * ends there. Dead-lettering by the limit happens only after all limit + 1 deliveries.
   */
  lemma RedeliveryIsBounded(limit: nat, steps: seq<SubStep>, t: Tag)
    requires SubLegal(NewSub(limit), steps)
    ensures
      var s := SubRun(NewSub(limit), steps);
      var q := s.queue;
      && Deliveries(steps, t) <= limit + 1
      && (Deliveries(steps, t) == limit + 1 && t !in q.unacked ==>
            t in q.content && (t in q.acked || t in q.dead) && (!Committed(s.store, q.content[t]) ==> t in q.dead))
      && (t in q.content && q.content[t].Malformed? ==> t !in q.acked)
      && (t in q.dead && q.dead[t] == DELIVERY_LIMIT ==> Deliveries(steps, t) == limit + 1)
  {
    RunKeepsSub(NewSub(limit), steps);
    HandedCountsDeliveries(NewSub(limit), steps, t);
    var s := SubRun(NewSub(limit), steps);
    assert VerdictOk(s, t) && CopyInv(s.queue, t);
  }

  /** What a message may carry as `x-delivery-count`. */
  datatype CountHeader = NoHeader | NotANumber | NotFinite | Count(value: real)

  /** The header of the next delivery: the broker leaves it out of the first one. */
  function HeaderOf(count: nat): CountHeader {
    if count == 0 then NoHeader else Count(count as real)
  }

  function BrokerDeliveryCount(h: CountHeader): (n: real)
    ensures n >= 0.0
  {
    if h.Count? && h.value >= 0.0 then h.value else 0.0
  }

  /** What the consumer reads off a delivery is the number of deliveries before it, over any run and any restart. */
  lemma HeaderCountsDeliveries(limit: nat, steps: seq<SubStep>, t: Tag)
    requires SubLegal(NewSub(limit), steps) && SubEnabled(SubRun(NewSub(limit), steps), Deliver(t))
    ensures var q := SubRun(NewSub(limit), steps).queue;
      t in q.count && BrokerDeliveryCount(HeaderOf(q.count[t])) == Deliveries(steps, t) as real
  {
    RunKeepsSub(NewSub(limit), steps);
    HandedCountsDeliveries(NewSub(limit), steps, t);
    assert CopyInv(SubRun(NewSub(limit), steps).queue, t);
  }

  /** The termination measure of one copy: deliveries the broker may still make. */
  function Budget(q: Queue, t: Tag): int
    requires t in q.handed
  {
    q.limit + 1 - q.handed[t]
  }

  lemma {:induction false} BudgetNeverGrows(s: Sub, steps: seq<SubStep>, t: Tag)
    requires SubInv(s) && SubLegal(s, steps) && t in s.queue.content
    ensures var s' := SubRun(s, steps);
      t in s.queue.handed && t in s'.queue.handed && 0 <= Budget(s'.queue, t) == Budget(s.queue, t) - Deliveries(steps, t)
  {
    RunKeepsSub(s, steps);
    HandedCountsDeliveries(s, steps, t);
    assert CopyInv(s.queue, t) && CopyInv(SubRun(s, steps).queue, t) && CopyEvolves(s.queue, SubRun(s, steps).queue, t);
  }

  // ------------------------------------------------------------ the consumer object

  datatype Fault = NoFault | TransactionThrows | HookThrows
  datatype Settlement = Acked | DeadLettered | Requeued

  datatype Stats = Stats(applied: nat, duplicates: nat, conflicts: nat, deadLettered: nat, transientFailures: nat)

  /** What one `handle` call does to the store, and how it settles the message. */
  function Handling(st: Store, body: Body, fault: Fault): (Store, Settlement) {
    if body.Malformed? then (st, DeadLettered)
    else if fault == TransactionThrows then (st, Requeued)
    else
      var (st', o) := ApplyOnce(st, body);
      (st', if o == CONFLICT then DeadLettered else if fault == HookThrows then Requeued else Acked)
  }

  class InboxConsumer {
    var store: Store
    var applied: nat
    var duplicates: nat
    var conflicts: nat
    var deadLettered: nat
    var transientFailures: nat
    var settlements: seq<Settlement>

    ghost function Counters(): Stats
      reads this
    {
      Stats(applied, duplicates, conflicts, deadLettered, transientFailures)
    }

    /** Each message is settled exactly once, and the counters account for every message. */
    ghost predicate Valid()
      reads this
    {
      && StoreInv(store)
      && applied + duplicates + deadLettered + transientFailures >= |settlements|
      && conflicts <= deadLettered
      && |store.effects| >= applied
    }

    constructor ()
      ensures Valid() && store == Store(map[], []) && settlements == [] && Counters() == Stats(0, 0, 0, 0, 0)
    {
      store, settlements := Store(map[], []), [];
      applied, duplicates, conflicts, deadLettered, transientFailures := 0, 0, 0, 0, 0;
    }

    method DeadLetterMessage()
      modifies this`deadLettered, this`settlements
      ensures deadLettered == old(deadLettered) + 1 && settlements == old(settlements) + [DeadLettered]
    {
      deadLettered := deadLettered + 1;
      settlements := settlements + [DeadLettered];
    }

    method Handle(body: Body, fault: Fault)
      requires Valid()
      modifies this
      ensures Valid()
      ensures (store, settlements) == (Handling(old(store), body, fault).0, old(settlements) + [Handling(old(store), body, fault).1])
      ensures settlements[|settlements| - 1] == Acked ==> Committed(store, body)
      ensures transientFailures - old(transientFailures) == if settlements[|settlements| - 1] == Requeued then 1 else 0
      ensures deadLettered - old(deadLettered) == if settlements[|settlements| - 1] == DeadLettered then 1 else 0
      ensures applied - old(applied) == |store.effects| - |old(store).effects|
      ensures conflicts - old(conflicts) == if Contradicted(old(store), body) && fault != TransactionThrows then 1 else 0
    {
      if body.Malformed? {
        DeadLetterMessage();
        return;
      }
      if fault == TransactionThrows {
        transientFailures := transientFailures + 1;
        settlements := settlements + [Requeued];
        return;
      }
      ApplyOnceKeepsStore(store, body);
      var (st, outcome) := ApplyOnce(store, body);
      store := st;
      if outcome == CONFLICT {
        conflicts := conflicts + 1;
        DeadLetterMessage();
        return;
      }
      if outcome == DUPLICATE { duplicates := duplicates + 1; } else { applied := applied + 1; }
      if fault == HookThrows {
        transientFailures := transientFailures + 1;
        settlements := settlements + [Requeued];
        return;
      }
      settlements := settlements + [Acked];
    }
  }

  /** A handler that is not interrupted does to store and queue what `Handling` says. */
  lemma UninterruptedHandling(s: Sub, d: nat, fault: Fault)
    requires SubInv(s) && Owns(s, d) && HandlerOk(s, d) && s.handlers[d].stage == Received
    ensures
      var body := BodyOf(s, d);
      var t := s.handlers[d].tag;
      var steps := if body.Malformed? then [Finish(d, false)]
                   else if fault == TransactionThrows then [Throw(d)]
                   else [Commit(d), Finish(d, fault == HookThrows)];
      var (st, how) := Handling(s.store, body, fault);
      && SubLegal(s, steps)
      && SubRun(s, steps).store == st
      && (how == Acked ==> t in SubRun(s, steps).queue.acked)
      && (how == DeadLettered ==> t in SubRun(s, steps).queue.dead)
      && (how == Requeued ==> t in s.queue.count && SubRun(s, steps).queue == GiveBack(s.queue, t))
  {
    var body := BodyOf(s, d);
    assert CopyInv(s.queue, s.handlers[d].tag);
    if body.Envelope? && fault != TransactionThrows {
      var s1 := SubNext(s, Commit(d));
      StepKeepsSub(s, Commit(d));
      var last := Finish(d, fault == HookThrows);
      assert [Commit(d), last][1..] == [last] && [last][1..] == [];
      assert SubRun(s1, [last]) == SubNext(s1, last);
      assert Owns(s1, d) && BodyOf(s1, d) == body;
    } else {
      var only := if body.Malformed? then Finish(d, false) else Throw(d);
      assert [only][1..] == [];
      assert SubRun(s, [only]) == SubNext(s, only);
    }
  }

  // ------------------------------------------------------------ what goes back

  /** A step that ends an owned delivery without settling it: a rollback, a throw after the commit, a lost channel, a crash. */
  predicate Drops(s: Sub, step: SubStep) {
    match step
    case Throw(d) => Owns(s, d)
    case Lose(d) => Owns(s, d)
    case Crash(d) => Owns(s, d)
    case Finish(d, hookThrows) => Owns(s, d) && hookThrows && s.handlers[d].stage.Ran? && s.handlers[d].stage.outcome != CONFLICT
    case _ => false
  }

  /**
   * Whatever drops a delivery, its copy is given back at once and counted: it is ready again,
   * or dead by the limit if this was its last delivery. No copy is left hanging.
   */
  lemma DroppedIsGivenBack(s: Sub, step: SubStep)
    requires SubInv(s) && SubEnabled(s, step) && Drops(s, step)
    ensures
      var t, q, q' := s.handlers[step.d].tag, s.queue, SubNext(s, step).queue;
      && t in q.count && t in q'.count && q'.count[t] == q.count[t] + 1 && t !in q'.unacked
      && (t in q'.ready <==> q.count[t] < q.limit)
      && (t in q'.dead && q'.dead[t] == DELIVERY_LIMIT <==> q.count[t] >= q.limit)
  {
    var t := s.handlers[step.d].tag;
    assert CopyInv(s.queue, t) && HandlerOk(s, step.d);
  }
}
