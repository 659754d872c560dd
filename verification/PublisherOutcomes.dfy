/** Which outcome a promise gets: exactly one for every history, told from its events alone. */
module PublisherOutcomes {
  import opened Text
  import opened Publisher

  /** A call of `channel.publish`: by which publisher, under which message id. */
  datatype Sent = Sent(publisher: nat, messageId: string)

  /** The publications of a history, in the order of their sequence numbers. */
  function Publications(es: seq<Event>): seq<Sent> {
    if es == [] then []
    else
      var last := es[|es| - 1];
      Publications(es[..|es| - 1]) + if last.Publish? then [Sent(last.publisher, last.messageId)] else []
  }

  function Publishers(es: seq<Event>): nat {
    if es == [] then 0 else Publishers(es[..|es| - 1]) + if es[|es| - 1].Attach? then 1 else 0
  }

  /** Event `i` returns a message of this id, and publisher `o` is already listening. */
  predicate Hears(es: seq<Event>, i: nat, o: nat, id: string)
    requires i < |es|
  {
    && es[i].Return? && o < Publishers(es[..i])
    && es[i].k < |Publications(es[..i])| && Publications(es[..i])[es[i].k].messageId == id
  }

  /** Event `i` uses up what publisher `o` heard of this id: its next publication of the id, or an ack of one. */
  predicate UsesUp(es: seq<Event>, i: nat, o: nat, id: string)
    requires i < |es|
  {
    || es[i] == Publish(o, id)
    || (es[i].Confirm? && es[i].ok && es[i].k < |Publications(es[..i])| && Publications(es[..i])[es[i].k] == Sent(o, id))
  }

  /** A return of this id was heard and is not used up. */
  ghost predicate ReturnPending(es: seq<Event>, o: nat, id: string) {
    exists i: nat :: i < |es| && Hears(es, i, o, id) && forall j: nat :: i < j < |es| ==> !UsesUp(es, j, o, id)
  }

  /** Event `i` is the first that settles promise `k`: a confirm of it, or its timer. */
  predicate Settles(e: Event, k: nat) {
    e == Timeout(k) || (e.Confirm? && e.k == k)
  }

  ghost predicate SettledAt(es: seq<Event>, i: nat, k: nat) {
    i < |es| && Settles(es[i], k) && forall j :: 0 <= j < i ==> !Settles(es[j], k)
  }

  // ------------------------------------------------------------ the channel, event by event

  lemma {:induction false} LastEvent(c: Channel, es: seq<Event>)
    requires es != [] && Legal(c, es)
    ensures Legal(c, es[..|es| - 1]) && Enabled(Run(c, es[..|es| - 1]), es[|es| - 1])
    ensures Run(c, es) == Step(Run(c, es[..|es| - 1]), es[|es| - 1])
    decreases es
  {
    if |es| > 1 {
      LastEvent(Step(c, es[0]), es[1..]);
      assert es[1..][..|es| - 2] == es[..|es| - 1][1..];
    } else {
      assert es[..0] == [] && es[1..] == [];
    }
  }

  lemma SentStep(c: Channel, e: Event)
    requires Enabled(c, e)
    ensures |Step(c, e).marks| == |c.marks| + if e.Attach? then 1 else 0
    ensures |Step(c, e).pubs| == |c.pubs| + if e.Publish? then 1 else 0
    ensures e.Publish? ==> Step(c, e).pubs[|c.pubs|].owner == e.publisher && Step(c, e).pubs[|c.pubs|].messageId == e.messageId
    ensures forall k :: 0 <= k < |c.pubs| ==> Step(c, e).pubs[k].owner == c.pubs[k].owner && Step(c, e).pubs[k].messageId == c.pubs[k].messageId
  {
  }

  lemma {:induction false} SentSoFar(es: seq<Event>)
    requires Legal(OPEN, es)
    ensures |Run(OPEN, es).pubs| == |Publications(es)| && |Run(OPEN, es).marks| == Publishers(es)
    ensures forall k :: 0 <= k < |Publications(es)| ==>
      Publications(es)[k] == Sent(Run(OPEN, es).pubs[k].owner, Run(OPEN, es).pubs[k].messageId)
    decreases |es|
  {
    if es != [] {
      LastEvent(OPEN, es);
      SentSoFar(es[..|es| - 1]);
      SentStep(Run(OPEN, es[..|es| - 1]), es[|es| - 1]);
    }
  }

  lemma EarlierEvent(es: seq<Event>, i: nat, o: nat, id: string)
    requires i < |es| - 1
    ensures Hears(es, i, o, id) == Hears(es[..|es| - 1], i, o, id) && UsesUp(es, i, o, id) == UsesUp(es[..|es| - 1], i, o, id)
  {
    assert es[..|es| - 1][..i] == es[..i];
  }

  /** How one more event changes what is pending. */
  lemma PendingAfter(es: seq<Event>, o: nat, id: string)
    requires es != []
    ensures var n := |es| - 1;
      ReturnPending(es, o, id) <==> Hears(es, n, o, id) || (ReturnPending(es[..n], o, id) && !UsesUp(es, n, o, id))
  {
    var n := |es| - 1;
    var before := es[..n];
    forall i: nat | i < n ensures Hears(es, i, o, id) == Hears(before, i, o, id) && UsesUp(es, i, o, id) == UsesUp(before, i, o, id) {
      EarlierEvent(es, i, o, id);
    }
    if ReturnPending(es, o, id) {
      var i: nat :| i < |es| && Hears(es, i, o, id) && forall j: nat :: i < j < |es| ==> !UsesUp(es, j, o, id);
      assert i < n ==> Hears(before, i, o, id) && forall j: nat :: i < j < n ==> !UsesUp(before, j, o, id);
    }
    if ReturnPending(before, o, id) && !UsesUp(es, n, o, id) {
      var i: nat :| i < n && Hears(before, i, o, id) && forall j: nat :: i < j < n ==> !UsesUp(before, j, o, id);
      assert Hears(es, i, o, id) && forall j: nat :: i < j < |es| ==> !UsesUp(es, j, o, id);
    }
  }

  /** The returned set of a publisher holds an id if and only if a return of it was heard and is not used up. */
  lemma {:induction false} MarkedIff(es: seq<Event>, o: nat, id: string)
    requires Legal(OPEN, es) && o < |Run(OPEN, es).marks|
    ensures id in Run(OPEN, es).marks[o] <==> ReturnPending(es, o, id)
    decreases |es|
  {
    if es != [] {
      var n := |es| - 1;
      LastEvent(OPEN, es);
      var c := Run(OPEN, es[..n]);
      SentSoFar(es[..n]);
      PendingAfter(es, o, id);
      if o < |c.marks| {
        MarkedIff(es[..n], o, id);
      } else {
        NobodyHears(es[..n], o, id);
      }
    }
  }

  lemma {:induction false} PublishersRise(es: seq<Event>, i: nat)
    requires i <= |es|
    ensures Publishers(es[..i]) <= Publishers(es)
    decreases |es|
  {
    if i < |es| {
      PublishersRise(es[..|es| - 1], i);
      assert es[..|es| - 1][..i] == es[..i];
    } else {
      assert es[..i] == es;
    }
  }

  lemma NobodyHears(es: seq<Event>, o: nat, id: string)
    requires o >= Publishers(es)
    ensures !ReturnPending(es, o, id)
  {
    forall i: nat | i < |es| ensures !Hears(es, i, o, id) { PublishersRise(es, i); }
  }

  // ------------------------------------------------------------ the outcome

  /** The outcome that the first settling event of publication `k` decides. */
  ghost function Decided(es: seq<Event>, i: nat, p: Sent): Outcome
    requires i < |es|
  {
    if es[i].Timeout? then Rejected(TIMEOUT)
    else if es[i].Confirm? && !es[i].ok then Rejected(NACK)
    else if ReturnPending(es[..i], p.publisher, p.messageId) then Rejected(UNROUTABLE)
    else Resolved
  }

  ghost predicate OutcomeIs(es: seq<Event>, k: nat, settled: Option<Outcome>)
    requires k < |Publications(es)|
  {
    && (settled.None? <==> forall i :: 0 <= i < |es| ==> !Settles(es[i], k))
    && (forall i: nat :: SettledAt(es, i, k) ==> settled == Some(Decided(es, i, Publications(es)[k])))
  }

  lemma {:induction false} NotYetSettled(es: seq<Event>, k: nat)
    requires Legal(OPEN, es) && k >= |Publications(es)|
    ensures forall i :: 0 <= i < |es| ==> !Settles(es[i], k)
    decreases |es|
  {
    if es != [] {
      LastEvent(OPEN, es);
      SentSoFar(es[..|es| - 1]);
      NotYetSettled(es[..|es| - 1], k);
      assert forall i :: 0 <= i < |es| - 1 ==> es[..|es| - 1][i] == es[i];
    }
  }

  lemma SettlesNow(es: seq<Event>, e: Event, k: nat)
    requires Legal(OPEN, es) && Enabled(Run(OPEN, es), e) && k < |Publications(es)| == |Run(OPEN, es).pubs|
    requires Run(OPEN, es).pubs[k].settled.None? && Settles(e, k)
    ensures var all := es + [e]; Step(Run(OPEN, es), e).pubs[k].settled == Some(Decided(all, |es|, Publications(es)[k]))
  {
    SentSoFar(es);
    assert (es + [e])[..|es|] == es;
    if e.Confirm? && e.ok {
      MarkedIff(es, Run(OPEN, es).pubs[k].owner, Run(OPEN, es).pubs[k].messageId);
    }
  }

  lemma SettledStep(c: Channel, e: Event, k: nat)
    requires Enabled(c, e) && k < |c.pubs|
    ensures k < |Step(c, e).pubs|
    ensures !(c.pubs[k].settled.None? && Settles(e, k)) ==> Step(c, e).pubs[k].settled == c.pubs[k].settled
  {
  }

  /** One more event keeps the outcome, or is the first to decide it. */
  lemma OutcomeExtends(es: seq<Event>, e: Event, k: nat, settled: Option<Outcome>)
    requires k < |Publications(es)| && OutcomeIs(es, k, settled)
    ensures var all := es + [e];
      && k < |Publications(all)|
      && OutcomeIs(all, k, if settled.None? && Settles(e, k) then Some(Decided(all, |es|, Publications(es)[k])) else settled)
  {
    var all := es + [e];
    var p := Publications(es)[k];
    assert all[..|es|] == es && all[|es|] == e;
    assert Publications(all)[k] == p;
    forall i: nat | i < |es| ensures all[i] == es[i] && Decided(all, i, p) == Decided(es, i, p) {
      assert all[..i] == es[..i];
    }
    var settled' := if settled.None? && Settles(e, k) then Some(Decided(all, |es|, p)) else settled;
    forall i: nat | SettledAt(all, i, k) ensures settled' == Some(Decided(all, i, p)) {
      if i < |es| {
        assert SettledAt(es, i, k);
      } else {
        assert forall j :: 0 <= j < |es| ==> !Settles(es[j], k);
      }
    }
    if settled'.None? {
      assert forall i :: 0 <= i < |all| ==> !Settles(all[i], k);
    }
  }

  lemma {:induction false} OutcomeOf(es: seq<Event>, k: nat)
    requires Legal(OPEN, es) && k < |Publications(es)|
    ensures k < |Run(OPEN, es).pubs| && OutcomeIs(es, k, Run(OPEN, es).pubs[k].settled)
    decreases |es|
  {
    var before, e := es[..|es| - 1], es[|es| - 1];
    LastEvent(OPEN, es);
    SentSoFar(es);
    SentSoFar(before);
    assert before + [e] == es;
    if k < |Publications(before)| {
      OutcomeOf(before, k);
      var settled := Run(OPEN, before).pubs[k].settled;
      SettledStep(Run(OPEN, before), e, k);
      OutcomeExtends(before, e, k, settled);
      if settled.None? && Settles(e, k) { SettlesNow(before, e, k); }
    } else {
      NotYetSettled(before, k);
      NewIsOpen(before, e, k);
    }
  }

  /** A new publication is open, and nothing settled its number before. */
  lemma NewIsOpen(es: seq<Event>, e: Event, k: nat)
    requires Legal(OPEN, es) && Enabled(Run(OPEN, es), e) && |Run(OPEN, es).pubs| == |Publications(es)|
    requires |Publications(es)| <= k < |Publications(es + [e])|
    requires forall i :: 0 <= i < |es| ==> !Settles(es[i], k)
    ensures k < |Step(Run(OPEN, es), e).pubs| && OutcomeIs(es + [e], k, Step(Run(OPEN, es), e).pubs[k].settled)
  {
    assert (es + [e])[..|es|] == es;
    assert e.Publish?;
    assert forall i :: 0 <= i < |es + [e]| ==> !Settles((es + [e])[i], k);
  }

  lemma {:induction false} FirstSettling(es: seq<Event>, k: nat) returns (i: nat)
    requires exists j: nat :: j < |es| && Settles(es[j], k)
    ensures SettledAt(es, i, k)
    decreases |es|
  {
    var n := |es| - 1;
    if j: nat :| j < n && Settles(es[j], k) {
      assert es[..n][j] == es[j];
      i := FirstSettling(es[..n], k);
      assert forall m :: 0 <= m < n ==> es[..n][m] == es[m];
    } else {
      i := n;
    }
  }

  /**
   * The outcome of every promise, exactly, over every history of a channel with any number
   * of publishers. It resolves if and only if the first event that settles it is an ack,
   * and no return of its message id that its publisher heard is then still to be used up;
   * it is NACK, UNROUTABLE or TIMEOUT if and only if that event is a nack, an ack with such
   * a return, or the timer; and it is open if and only if no such event came.
   */
  lemma OutcomeIff(es: seq<Event>, k: nat)
    requires Legal(OPEN, es) && k < |Publications(es)|
    ensures k < |Run(OPEN, es).pubs|
    ensures
      var p, settled := Publications(es)[k], Run(OPEN, es).pubs[k].settled;
      && (settled.None? <==> forall i :: 0 <= i < |es| ==> !Settles(es[i], k))
      && (settled == Some(Resolved) <==>
            exists i: nat :: SettledAt(es, i, k) && es[i] == Confirm(k, true) && !ReturnPending(es[..i], p.publisher, p.messageId))
      && (settled == Some(Rejected(UNROUTABLE)) <==>
            exists i: nat :: SettledAt(es, i, k) && es[i] == Confirm(k, true) && ReturnPending(es[..i], p.publisher, p.messageId))
      && (settled == Some(Rejected(NACK)) <==> exists i: nat :: SettledAt(es, i, k) && es[i] == Confirm(k, false))
      && (settled == Some(Rejected(TIMEOUT)) <==> exists i: nat :: SettledAt(es, i, k) && es[i] == Timeout(k))
  {
    OutcomeOf(es, k);
    if i: nat :| i < |es| && Settles(es[i], k) {
      var first := FirstSettling(es, k);
      assert forall j: nat :: SettledAt(es, j, k) ==> j == first;
    }
  }

  /** The same for a publisher object: the promises it keeps have the outcomes of its channel's history. */
  lemma ObjectOutcomeIff(o: ConfirmingPublisher, k: nat)
    requires o.Valid() && k in o.promises
    ensures k < |Publications(o.history)| && Publications(o.history)[k] == Sent(o.me, o.promises[k].messageId)
    ensures o.promises[k].settled == Some(Resolved) <==>
            exists i: nat :: SettledAt(o.history, i, k) && o.history[i] == Confirm(k, true)
                        && !ReturnPending(o.history[..i], o.me, o.promises[k].messageId)
    ensures o.promises[k].settled.None? <==> forall i :: 0 <= i < |o.history| ==> !Settles(o.history[i], k)
  {
    SentSoFar(o.history);
    OutcomeIff(o.history, k);
  }
}
