/**
 * Confirming publishers: one AMQP confirm channel, the `ConfirmingPublisher` objects that
 * were created on it, and the promise of every `publishConfirmed` call they made.
 */
module Publisher {
  import opened Text

  datatype Reason = NACK | UNROUTABLE | TIMEOUT | CHANNEL_CLOSED
  datatype Outcome = Resolved | Rejected(reason: Reason)

  /**
   * One call of `channel.publish` by the publisher `owner`. `returned` and `confirmed`
   * record what the broker did with this very publication; `settled` is its promise.
   */
  datatype Publication = Publication(owner: nat, messageId: string, returned: bool, confirmed: bool, settled: Option<Outcome>)

  /** `marks[o]` is the set of returned message ids that publisher `o` keeps. */
  datatype Channel = Channel(marks: seq<set<string>>, closed: bool, pubs: seq<Publication>)

  const OPEN := Channel([], false, [])

  datatype Event =
    | Attach                                     // a new publisher registers its listeners
    | Publish(publisher: nat, messageId: string)
    | Return(k: nat)
    | Confirm(k: nat, ok: bool)
    | Timeout(k: nat)
    | Close

  /**
   * What the callers, the broker and the clock may do. A return precedes the confirm of
   * the same publication, a publication is confirmed once, a closed channel acks nothing.
   */
  predicate Enabled(c: Channel, e: Event) {
    match e
    case Attach => true
    case Publish(o, _) => !c.closed && o < |c.marks|
    case Return(k) => !c.closed && k < |c.pubs| && !c.pubs[k].confirmed && !c.pubs[k].returned
    case Confirm(k, ok) => k < |c.pubs| && c.pubs[k].owner < |c.marks| && !c.pubs[k].confirmed && (ok ==> !c.closed)
    case Timeout(k) => k < |c.pubs|
    case Close => !c.closed
  }

  /** `finish`: the first settlement of a promise wins. */
  function Settle(p: Publication, o: Outcome): Publication {
    if p.settled.None? then p.(settled := Some(o)) else p
  }

  /** Every `return` listener on the channel hears a return. */
  function MarkAll(marks: seq<set<string>>, id: string): (r: seq<set<string>>)
    ensures |r| == |marks| && forall i :: 0 <= i < |marks| ==> r[i] == marks[i] + {id}
  {
    seq(|marks|, i requires 0 <= i < |marks| => marks[i] + {id})
  }

  function Unmark(marks: seq<set<string>>, o: nat, id: string): seq<set<string>>
    requires o < |marks|
  {
    marks[o := marks[o] - {id}]
  }

  function Step(c: Channel, e: Event): Channel
    requires Enabled(c, e)
  {
    match e
    case Attach => c.(marks := c.marks + [{}])
    case Publish(o, id) => c.(marks := Unmark(c.marks, o, id), pubs := c.pubs + [Publication(o, id, false, false, None)])
    case Return(k) => c.(marks := MarkAll(c.marks, c.pubs[k].messageId), pubs := c.pubs[k := c.pubs[k].(returned := true)])
    case Confirm(k, ok) =>
      var p := c.pubs[k].(confirmed := true);
      if !ok then c.(pubs := c.pubs[k := Settle(p, Rejected(NACK))])
      else if p.messageId in c.marks[p.owner] then
        c.(marks := Unmark(c.marks, p.owner, p.messageId), pubs := c.pubs[k := Settle(p, Rejected(UNROUTABLE))])
      else c.(pubs := c.pubs[k := Settle(p, Resolved)])
    case Timeout(k) => c.(pubs := c.pubs[k := Settle(c.pubs[k], Rejected(TIMEOUT))])
    case Close => c.(closed := true)
  }

  predicate Legal(c: Channel, es: seq<Event>)
    decreases es
  {
    es == [] || (Enabled(c, es[0]) && Legal(Step(c, es[0]), es[1..]))
  }

  function Run(c: Channel, es: seq<Event>): Channel
    requires Legal(c, es)
    decreases es
  {
    if es == [] then c else Run(Step(c, es[0]), es[1..])
  }

  /** One more event at the end of a history. */
  lemma {:induction false} RunThen(c: Channel, es: seq<Event>, e: Event)
    requires Legal(c, es) && Enabled(Run(c, es), e)
    ensures Legal(c, es + [e]) && Run(c, es + [e]) == Step(Run(c, es), e)
    decreases es
  {
    if es == [] {
      assert es + [e] == [e] && [e][1..] == [];
      assert Legal(Step(c, e), [e][1..]);
    } else {
      assert (es + [e])[0] == es[0] && (es + [e])[1..] == es[1..] + [e];
      RunThen(Step(c, es[0]), es[1..], e);
    }
  }

  /** A publication of this message id through publisher `o` that the broker has not confirmed yet. */
  ghost predicate Unconfirmed(c: Channel, o: nat, id: string) {
    exists k :: 0 <= k < |c.pubs| && c.pubs[k].owner == o && c.pubs[k].messageId == id && !c.pubs[k].confirmed
  }

  /** The publisher's promise: success means this very publication was acked and not returned. */
  ghost predicate Sound(c: Channel) {
    forall k :: 0 <= k < |c.pubs| && c.pubs[k].settled == Some(Resolved) ==>
      c.pubs[k].confirmed && !c.pubs[k].returned
  }

  /** The caller's side: no second publication of an id through a publisher that awaits one. */
  ghost predicate Disciplined(c: Channel, e: Event) {
    e.Publish? ==> !Unconfirmed(c, e.publisher, e.messageId)
  }

  ghost predicate DisciplinedRun(c: Channel, es: seq<Event>)
    requires Legal(c, es)
    decreases es
  {
    es == [] || (Disciplined(c, es[0]) && DisciplinedRun(Step(c, es[0]), es[1..]))
  }

  /** An unconfirmed return is still marked where its own confirm will look. */
  ghost predicate Inv(c: Channel) {
    && Sound(c)
    && (forall k :: 0 <= k < |c.pubs| ==> c.pubs[k].owner < |c.marks|)
    && (forall k :: 0 <= k < |c.pubs| && !c.pubs[k].confirmed && c.pubs[k].returned ==>
          c.pubs[k].messageId in c.marks[c.pubs[k].owner])
    && (forall j, k :: 0 <= j < k < |c.pubs| && !c.pubs[j].confirmed && !c.pubs[k].confirmed && c.pubs[j].owner == c.pubs[k].owner ==>
          c.pubs[j].messageId != c.pubs[k].messageId)
  }

  lemma PublishKeepsInv(c: Channel, o: nat, id: string)
    requires Inv(c) && Enabled(c, Publish(o, id)) && !Unconfirmed(c, o, id)
    ensures Inv(Step(c, Publish(o, id)))
  {
    var c' := Step(c, Publish(o, id));
    assert forall k :: 0 <= k < |c.pubs| ==> c'.pubs[k] == c.pubs[k];
  }

  lemma ReturnKeepsInv(c: Channel, k: nat)
    requires Inv(c) && Enabled(c, Return(k))
    ensures Inv(Step(c, Return(k)))
  {
  }

  lemma ConfirmKeepsInv(c: Channel, k: nat, ok: bool)
    requires Inv(c) && Enabled(c, Confirm(k, ok))
    ensures Inv(Step(c, Confirm(k, ok)))
  {
    var c' := Step(c, Confirm(k, ok));
    assert forall j :: 0 <= j < |c.pubs| && j != k ==> c'.pubs[j] == c.pubs[j];
    assert c'.pubs[k].confirmed;
  }

  lemma StepKeepsInv(c: Channel, e: Event)
    requires Inv(c) && Enabled(c, e) && Disciplined(c, e)
    ensures Inv(Step(c, e))
  {
    match e
    case Publish(o, id) => PublishKeepsInv(c, o, id);
    case Return(k) => ReturnKeepsInv(c, k);
    case Confirm(k, ok) => ConfirmKeepsInv(c, k, ok);
    case _ =>
  }

  lemma {:induction false} RunKeepsInv(c: Channel, es: seq<Event>)
    requires Inv(c) && Legal(c, es) && DisciplinedRun(c, es)
    ensures Inv(Run(c, es))
    decreases es
  {
    if es != [] {
      StepKeepsInv(c, es[0]);
      RunKeepsInv(Step(c, es[0]), es[1..]);
    }
  }

  /**
   * Every history of a channel in which no publisher publishes an id again while its
   * earlier publication of it is unconfirmed keeps the promise of every publication,
   * however many publishers share the channel and its returns.
   */
  lemma DisciplinedPublishingIsSound(es: seq<Event>)
    requires Legal(OPEN, es) && DisciplinedRun(OPEN, es)
    ensures Sound(Run(OPEN, es))
  {
    RunKeepsInv(OPEN, es);
  }

  // ------------------------------------------------------------ one publisher per pass

  /** No publisher publishes one id twice: what a caller does that makes a new publisher for every pass. */
  predicate OncePerPublisher(es: seq<Event>) {
    forall i, j :: 0 <= i < j < |es| && es[i].Publish? && es[j].Publish? && es[i].publisher == es[j].publisher ==>
      es[i].messageId != es[j].messageId
  }

  /** Nothing that was published before is published again. */
  ghost predicate NewTo(c: Channel, es: seq<Event>) {
    forall k, i :: 0 <= k < |c.pubs| && 0 <= i < |es| && es[i].Publish? && es[i].publisher == c.pubs[k].owner ==>
      es[i].messageId != c.pubs[k].messageId
  }

  lemma StepStaysNew(c: Channel, es: seq<Event>)
    requires es != [] && Enabled(c, es[0]) && OncePerPublisher(es) && NewTo(c, es)
    ensures NewTo(Step(c, es[0]), es[1..]) && OncePerPublisher(es[1..])
  {
    var c', rest := Step(c, es[0]), es[1..];
    assert forall i :: 0 <= i < |rest| ==> rest[i] == es[i + 1];
    forall k, i | 0 <= k < |c'.pubs| && 0 <= i < |rest| && rest[i].Publish? && rest[i].publisher == c'.pubs[k].owner
      ensures rest[i].messageId != c'.pubs[k].messageId
    {
      if k < |c.pubs| {
        assert c'.pubs[k].owner == c.pubs[k].owner && c'.pubs[k].messageId == c.pubs[k].messageId && es[i + 1] == rest[i];
      } else {
        assert es[0].Publish? && es[i + 1] == rest[i];
      }
    }
  }

  lemma {:induction false} OnceIsDisciplined(c: Channel, es: seq<Event>)
    requires Legal(c, es) && OncePerPublisher(es) && NewTo(c, es)
    ensures DisciplinedRun(c, es)
    decreases es
  {
    if es != [] {
      StepStaysNew(c, es);
      OnceIsDisciplined(Step(c, es[0]), es[1..]);
    }
  }

  /**
   * With a new publisher for every pass the promise needs no care at all: whatever is
   * retried after whatever timeout, success means acked and not returned.
   */
  lemma PerPassPublishingIsSound(es: seq<Event>)
    requires Legal(OPEN, es) && OncePerPublisher(es)
    ensures Sound(Run(OPEN, es))
  {
    OnceIsDisciplined(OPEN, es);
    DisciplinedPublishingIsSound(es);
  }

  /**
   * A promise settles at most once, whatever follows: in particular a confirm that
   * arrives after the timeout never turns into success. Holds without discipline.
   */
  lemma {:induction false} SettledForever(c: Channel, es: seq<Event>, k: nat)
    requires Legal(c, es) && k < |c.pubs| && c.pubs[k].settled.Some?
    ensures k < |Run(c, es).pubs|
    ensures Run(c, es).pubs[k].settled == c.pubs[k].settled
    ensures Run(c, es).pubs[k].messageId == c.pubs[k].messageId
    decreases es
  {
    if es != [] {
      SettledForever(Step(c, es[0]), es[1..], k);
    }
  }

  // ------------------------------------------------------------ reusing a publisher

  ghost predicate NoPublish(es: seq<Event>) {
    forall i :: 0 <= i < |es| ==> !es[i].Publish?
  }

  /** Whatever the broker and the clock do next, publishing `id` through `o` now breaks no promise. */
  ghost predicate SafeToPublish(c: Channel, o: nat, id: string)
    requires Enabled(c, Publish(o, id))
  {
    forall es :: Legal(Step(c, Publish(o, id)), es) && NoPublish(es) ==> Sound(Run(Step(c, Publish(o, id)), es))
  }

  lemma {:induction false} BrokerEventsAreDisciplined(c: Channel, es: seq<Event>)
    requires Legal(c, es) && NoPublish(es)
    ensures DisciplinedRun(c, es)
    decreases es
  {
    if es != [] {
      BrokerEventsAreDisciplined(Step(c, es[0]), es[1..]);
    }
  }

  /**
   * The broker schedule behind a false success: both publications are returned before
   * either is acked; the first ack consumes the shared mark, the second finds none.
   */
  function ReturnBothThenAckBoth(c: Channel, k: nat): seq<Event>
    requires k < |c.pubs|
  {
    (if c.pubs[k].returned then [] else [Return(k)])
    + [Return(|c.pubs|), Confirm(k, true), Confirm(|c.pubs|, true)]
  }

  lemma FalseSuccess(c: Channel, k: nat)
    requires !c.closed && k < |c.pubs| && !c.pubs[k].confirmed && c.pubs[k].owner < |c.marks|
    ensures
      var c1 := Step(c, Publish(c.pubs[k].owner, c.pubs[k].messageId));
      var es := ReturnBothThenAckBoth(c, k);
      && Legal(c1, es) && NoPublish(es)
      && |c.pubs| < |Run(c1, es).pubs|
      && Run(c1, es).pubs[|c.pubs|].returned && Run(c1, es).pubs[|c.pubs|].settled == Some(Resolved)
  {
    var n, o, id := |c.pubs|, c.pubs[k].owner, c.pubs[k].messageId;
    var c1 := Step(c, Publish(o, id));
    var es := ReturnBothThenAckBoth(c, k);
    var tail := [Return(n), Confirm(k, true), Confirm(n, true)];
    var c2 := if c.pubs[k].returned then c1 else Step(c1, Return(k));
    var c3 := Step(c2, Return(n));
    var c4 := Step(c3, Confirm(k, true));
    var c5 := Step(c4, Confirm(n, true));
    assert id !in c4.marks[o] && c5.pubs[n].returned && c5.pubs[n].settled == Some(Resolved);
    assert tail[1..] == [Confirm(k, true), Confirm(n, true)] && tail[1..][1..] == [Confirm(n, true)];
    assert Legal(c5, []) && Run(c5, []) == c5;
    assert Legal(c4, [Confirm(n, true)]) && Run(c4, [Confirm(n, true)]) == c5 by {
      assert [Confirm(n, true)][1..] == [];
    }
    assert Legal(c3, tail[1..]) && Run(c3, tail[1..]) == c5;
    assert Legal(c2, tail) && Run(c2, tail) == c5;
    if c.pubs[k].returned {
      assert es == tail;
    } else {
      assert es == [Return(k)] + tail && es[1..] == tail;
    }
  }

  /**
   * Exactly when a publisher may be used for an id: if and only if it holds no unconfirmed
   * publication of that id. A caller that keeps one publisher over several passes and
   * retries an event after TIMEOUT is on the wrong side of this line.
   */
  lemma SafeIffNoneUnconfirmed(c: Channel, o: nat, id: string)
    requires Inv(c) && !c.closed && o < |c.marks|
    ensures SafeToPublish(c, o, id) <==> !Unconfirmed(c, o, id)
  {
    var c1 := Step(c, Publish(o, id));
    if !Unconfirmed(c, o, id) {
      StepKeepsInv(c, Publish(o, id));
      forall es | Legal(c1, es) && NoPublish(es) ensures Sound(Run(c1, es)) {
        BrokerEventsAreDisciplined(c1, es);
        RunKeepsInv(c1, es);
      }
    } else {
      var k :| 0 <= k < |c.pubs| && c.pubs[k].owner == o && c.pubs[k].messageId == id && !c.pubs[k].confirmed;
      FalseSuccess(c, k);
      assert !Sound(Run(c1, ReturnBothThenAckBoth(c, k)));
    }
  }

  // ------------------------------------------------------------ the publisher object

  /** What a publisher keeps of one of its own publications. */
  datatype Promise = Promise(messageId: string, settled: Option<Outcome>)

  /** The publications of publisher `me`, by their position on the channel. */
  function Mine(c: Channel, me: nat): map<nat, Promise> {
    map k: nat | 0 <= k < |c.pubs| && c.pubs[k].owner == me :: Promise(c.pubs[k].messageId, c.pubs[k].settled)
  }

  /** An event that is none of publisher `me`'s business: another publisher's, or another one attaching. */
  predicate Elsewhere(c: Channel, me: nat, e: Event)
    requires Enabled(c, e)
  {
    match e
    case Attach => true
    case Publish(o, _) => o != me
    case Confirm(k, _) => c.pubs[k].owner != me
    case Timeout(k) => c.pubs[k].owner != me
    case _ => false
  }

  ghost predicate OwnersKnown(c: Channel) {
    forall k :: 0 <= k < |c.pubs| ==> c.pubs[k].owner < |c.marks|
  }

  lemma {:induction false} OwnersAreAttached(c: Channel, es: seq<Event>)
    requires Legal(c, es) && OwnersKnown(c)
    ensures OwnersKnown(Run(c, es))
    decreases es
  {
    if es != [] {
      OwnersAreAttached(Step(c, es[0]), es[1..]);
    }
  }

  lemma ElsewhereIsElsewhere(c: Channel, me: nat, e: Event)
    requires Enabled(c, e) && me < |c.marks| && Elsewhere(c, me, e)
    ensures var c' := Step(c, e); me < |c'.marks| && c'.marks[me] == c.marks[me] && c'.closed == c.closed && Mine(c', me) == Mine(c, me)
  {
  }

  /**
   * One `ConfirmingPublisher`; `history` is everything that happened on its channel. A
   * publisher made on a channel that has already closed never hears the close.
   */
  class ConfirmingPublisher {
    const me: nat
    var returned: set<string>
    var closed: bool
    var promises: map<nat, Promise>
    ghost var history: seq<Event>

    ghost function Chan(): Channel
      requires Legal(OPEN, history)
      reads this
    {
      Run(OPEN, history)
    }

    ghost predicate Valid()
      reads this
    {
      && Legal(OPEN, history) && me < |Chan().marks| && promises == Mine(Chan(), me)
      && (closed ==> Chan().closed) && (!Chan().closed ==> returned == Chan().marks[me])
    }

    /** The history grew by exactly this event. */
    ghost predicate Happened(before: seq<Event>, e: Event)
      reads this
    {
      Valid() && history == before + [e]
    }

    constructor (ghost before: seq<Event>, number: nat)
      requires Legal(OPEN, before) && number == |Run(OPEN, before).marks|
      ensures Happened(before, Attach) && me == number && promises == map[]
    {
      me, returned, closed, promises := number, {}, false, map[];
      history := before + [Attach];
      OwnersAreAttached(OPEN, before);
      RunThen(OPEN, before, Attach);
    }

    /**
     * Starts a publication. `at` is the channel's next sequence number; `open` is whether
     * `channel.publish` takes the message or throws, which rejects the promise at once.
     */
    method PublishConfirmed(messageId: string, at: nat, open: bool) returns (accepted: bool)
      requires Valid() && at == |Chan().pubs| && open == !Chan().closed
      modifies this
      ensures accepted == open
      ensures !accepted ==> Valid() && history == old(history) && promises == old(promises)
      ensures accepted ==> Happened(old(history), Publish(me, messageId)) && promises == old(promises)[at := Promise(messageId, None)]
    {
      if closed {
        return false;
      }
      returned := returned - {messageId};
      if !open {
        return false;
      }
      RunThen(OPEN, history, Publish(me, messageId));
      history := history + [Publish(me, messageId)];
      promises := promises[at := Promise(messageId, None)];
      return true;
    }

    /** The `return` listener: it hears every return on the channel, by message id. */
    method OnReturn(messageId: string, ghost k: nat)
      requires Valid() && Enabled(Chan(), Return(k)) && Chan().pubs[k].messageId == messageId
      modifies this
      ensures Happened(old(history), Return(k)) && returned == old(returned) + {messageId} && promises == old(promises)
    {
      RunThen(OPEN, history, Return(k));
      history := history + [Return(k)];
      returned := returned + {messageId};
    }

    method Finish(k: nat, o: Outcome)
      requires k in promises
      modifies this`promises
      ensures promises == old(promises)[k := if old(promises)[k].settled.None? then old(promises)[k].(settled := Some(o)) else old(promises)[k]]
    {
      if promises[k].settled.Some? {
        return;
      }
      promises := promises[k := promises[k].(settled := Some(o))];
    }

    method OnConfirm(k: nat, ok: bool)
      requires Valid() && Enabled(Chan(), Confirm(k, ok)) && k in promises
      modifies this
      ensures Happened(old(history), Confirm(k, ok))
      ensures returned == if ok then old(returned) - {old(promises)[k].messageId} else old(returned)
      ensures old(promises)[k].settled.Some? ==> promises == old(promises)
      ensures old(promises)[k].settled.None? ==>
        promises == old(promises)[k := Promise(old(promises)[k].messageId, Some(
          if !ok then Rejected(NACK) else if old(promises)[k].messageId in old(returned) then Rejected(UNROUTABLE) else Resolved))]
    {
      RunThen(OPEN, history, Confirm(k, ok));
      history := history + [Confirm(k, ok)];
      if !ok {
        Finish(k, Rejected(NACK));
      } else if promises[k].messageId in returned {
        returned := returned - {promises[k].messageId};
        Finish(k, Rejected(UNROUTABLE));
      } else {
        Finish(k, Resolved);
      }
    }

    method OnTimeout(k: nat)
      requires Valid() && k in promises
      modifies this
      ensures Happened(old(history), Timeout(k)) && returned == old(returned)
      ensures promises == old(promises)[k := Promise(old(promises)[k].messageId,
        if old(promises)[k].settled.Some? then old(promises)[k].settled else Some(Rejected(TIMEOUT)))]
    {
      RunThen(OPEN, history, Timeout(k));
      history := history + [Timeout(k)];
      Finish(k, Rejected(TIMEOUT));
    }

    method OnClose()
      requires Valid() && !Chan().closed
      modifies this
      ensures Happened(old(history), Close) && closed && promises == old(promises)
    {
      RunThen(OPEN, history, Close);
      history := history + [Close];
      closed := true;
    }

    /** What happens elsewhere on the channel leaves this object as it is. */
    ghost method Passes(e: Event)
      requires Valid() && Enabled(Chan(), e) && Elsewhere(Chan(), me, e)
      modifies this`history
      ensures Happened(old(history), e)
    {
      RunThen(OPEN, history, e);
      ElsewhereIsElsewhere(Chan(), me, e);
      history := history + [e];
    }

    /** A promise of this object that resolved was acked and not returned, if no publisher publishes an id twice. */
    lemma KeepsItsPromise(k: nat)
      requires Valid() && OncePerPublisher(history) && k in promises && promises[k].settled == Some(Resolved)
      ensures var p := Chan().pubs[k]; p.messageId == promises[k].messageId && p.confirmed && !p.returned
    {
      PerPassPublishingIsSound(history);
    }
  }
}
