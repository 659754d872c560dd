/** What the operator app and its server keep to, over every interleaving, and where that ends. */
module OperatorLaws {
  import opened Text
  import opened Operator
  import opened OperatorProofs

  // ------------------------------------------------------------ the server's history

  lemma HandleEffects(v: Server, i: nat, s: Intent, grant: bool)
    ensures var v' := Handle(v, i, s, grant); v'.effects == v.effects || (v'.effects == v.effects + [s] && s.key !in v.applied && s.key in v'.applied)
    ensures v.effects <= Handle(v, i, s, grant).effects
    ensures forall t :: HasEffect(v, t) ==> HasEffect(Handle(v, i, s, grant), t)
  {
    var v' := Handle(v, i, s, grant);
    forall t | HasEffect(v, t) ensures HasEffect(v', t) {
      var e :| e in v.effects && e.id == t.id && (t.id.Action? ==> e == t);
      assert e in v'.effects;
    }
  }

  /** A grant stands for an effect: a new one, the recorded one, or the acceptance already held. */
  lemma GrantHasEffect(a: App, i: nat, grant: bool)
    requires SendsOk(a) && History(a) && Enabled(a, Serve(i, grant)) && Handle(a.server, i, a.sends[i], grant).handled[i]
    ensures HasEffect(Handle(a.server, i, a.sends[i], grant), a.sends[i])
  {
    var v, s := a.server, a.sends[i];
    var v' := Handle(v, i, s, grant);
    HandleEffects(v, i, s, grant);
    if s.key in v.applied {
      assert HandledAs(a, s.key, true);
      var j :| j in v.handled && v.handled[j] && j < |a.sends| && a.sends[j].key == s.key;
      assert HandledOk(a, j) && a.sends[j] in a.sends && s in a.sends;
    } else if v'.effects == v.effects {
      assert OfferOk(v, s.id.offer);
      assert HasEffect(v', s);
    } else {
      assert v'.effects[|v.effects|] == s;
    }
  }

  lemma ServeHandled(a: App, i: nat, grant: bool, j: nat)
    requires SendsOk(a) && History(a) && Enabled(a, Serve(i, grant))
    ensures HandledOk(Next(a, Serve(i, grant)), j)
  {
    HandleJudges(a.server, i, a.sends[i], grant);
    HandleEffects(a.server, i, a.sends[i], grant);
    if j != i {
      assert HandledOk(a, j);
    } else if Handle(a.server, i, a.sends[i], grant).handled[i] {
      GrantHasEffect(a, i, grant);
    }
  }

  lemma ServeHandledAs(a: App, i: nat, grant: bool, key: nat, granted: bool)
    requires History(a) && Enabled(a, Serve(i, grant))
    requires var v' := Next(a, Serve(i, grant)).server; if granted then key in v'.applied else key in v'.refused
    ensures HandledAs(Next(a, Serve(i, grant)), key, granted)
  {
    var b := Next(a, Serve(i, grant));
    if (granted && key in a.server.applied) || (!granted && key in a.server.refused) {
      assert HandledAs(a, key, granted);
      var j :| j in a.server.handled && a.server.handled[j] == granted && j < |a.sends| && a.sends[j].key == key;
      assert j in b.server.handled && b.server.handled[j] == granted;
    } else {
      assert b.server.handled[i] == granted && a.sends[i].key == key;
    }
  }

  /** A new effect carries a key without one and, if it accepts an offer, an offer without one. */
  lemma ServeEffects(a: App, i: nat, grant: bool)
    requires History(a) && Enabled(a, Serve(i, grant))
    ensures var b := Next(a, Serve(i, grant)); EffectsApart(b.server.effects) && forall j :: EffectOk(b, j)
  {
    var v, s := a.server, a.sends[i];
    var b := Next(a, Serve(i, grant));
    HandleEffects(v, i, s, grant);
    HandleJudges(v, i, s, grant);
    forall j: nat ensures EffectOk(b, j) {
      assert EffectOk(a, j);
      assert s in a.sends;
    }
    if b.server.effects != v.effects {
      forall j | 0 <= j < |v.effects| ensures v.effects[j].key != s.key && (s.id.AcceptOffer? ==> v.effects[j].id != s.id) {
        assert EffectOk(a, j);
      }
    }
  }

  lemma ServeOffers(v: Server, i: nat, s: Intent, grant: bool, offer: string)
    requires OfferOk(v, offer)
    ensures OfferOk(Handle(v, i, s, grant), offer)
  {
    var v' := Handle(v, i, s, grant);
    HandleEffects(v, i, s, grant);
    if OfferOf(v', offer) == Held {
      if OfferOf(v, offer) == Held {
        var e :| e in v.effects && e.id == AcceptOffer(offer);
        assert e in v'.effects;
      } else {
        assert v'.effects[|v.effects|] == s;
      }
    }
  }

  /** Whether request `i` is granted: its key was, or the server takes it now and its offer is not over. */
  predicate Granted(a: App, i: nat, grant: bool)
    requires i < |a.sends|
  {
    a.sends[i].key in a.server.applied
    || (grant && (a.sends[i].id.Action? || (a.sends[i].id.offer in a.server.offers ==> a.server.offers[a.sends[i].id.offer] != Over)))
  }

  /** Whether it has an effect: its key had none yet, and its offer is not held already. */
  predicate TakesHold(a: App, i: nat, grant: bool)
    requires i < |a.sends|
  {
    && Granted(a, i, grant) && a.sends[i].key !in a.server.applied
    && (a.sends[i].id.AcceptOffer? ==> a.sends[i].id.offer !in a.server.offers || a.server.offers[a.sends[i].id.offer] == Live)
  }

  /**
   * One request at the server: a key that was applied is granted again and changes nothing;
   * a new key is recorded when it is granted; it has its effect at most then; a refusal is
   * remembered as such and nothing else.
   */
  lemma ServedOnce(a: App, i: nat, grant: bool)
    requires Enabled(a, Serve(i, grant))
    ensures
      var v, w, s := a.server, Next(a, Serve(i, grant)).server, a.sends[i];
      && Next(a, Serve(i, grant)) == a.(server := w)
      && w.handled == v.handled[i := Granted(a, i, grant)]
      && w.applied == (if Granted(a, i, grant) then v.applied + {s.key} else v.applied)
      && w.refused == (if Granted(a, i, grant) then v.refused else v.refused + {s.key})
      && w.effects == (if TakesHold(a, i, grant) then v.effects + [s] else v.effects)
      && w.offers == (if TakesHold(a, i, grant) && s.id.AcceptOffer? then v.offers[s.id.offer := Held] else v.offers)
  {
    assert a.sends[i].key in a.server.applied ==> a.server.applied + {a.sends[i].key} == a.server.applied;
  }

  lemma ServeHistory(a: App, i: nat, grant: bool)
    requires SendsOk(a) && History(a) && Enabled(a, Serve(i, grant))
    ensures History(Next(a, Serve(i, grant)))
  {
    var b := Next(a, Serve(i, grant));
    forall j ensures HandledOk(b, j) { ServeHandled(a, i, grant, j); }
    forall k | k in b.server.applied ensures HandledAs(b, k, true) { ServeHandledAs(a, i, grant, k, true); }
    forall k | k in b.server.refused ensures HandledAs(b, k, false) { ServeHandledAs(a, i, grant, k, false); }
    ServeEffects(a, i, grant);
    forall offer ensures OfferOk(b.server, offer) {
      assert OfferOk(a.server, offer);
      ServeOffers(a.server, i, a.sends[i], grant, offer);
    }
  }

  /** The app only adds to what was sent. */
  lemma AppOnlySends(a: App, step: Step)
    requires Enabled(a, step) && !step.Serve? && !step.EndOffer?
    ensures Next(a, step).server == a.server && a.sends <= Next(a, step).sends
  {
  }

  lemma SendingKeepsHistory(a: App, b: App)
    requires History(a) && b.server == a.server && a.sends <= b.sends
    ensures History(b)
  {
    forall i ensures HandledOk(b, i) { assert HandledOk(a, i); }
    forall k | k in b.server.applied ensures HandledAs(b, k, true) { assert HandledAs(a, k, true); }
    forall k | k in b.server.refused ensures HandledAs(b, k, false) { assert HandledAs(a, k, false); }
    forall i ensures EffectOk(b, i) { assert EffectOk(a, i); }
  }

  lemma EndOfferHistory(a: App, offer: string)
    requires History(a)
    ensures History(Next(a, EndOffer(offer)))
  {
    var b := Next(a, EndOffer(offer));
    forall i: nat ensures HandledOk(b, i) {
      assert HandledOk(a, i);
      assert i in a.server.handled && a.server.handled[i] ==> HasEffect(b.server, a.sends[i]);
    }
    forall k | k in b.server.applied ensures HandledAs(b, k, true) { assert HandledAs(a, k, true); }
    forall k | k in b.server.refused ensures HandledAs(b, k, false) { assert HandledAs(a, k, false); }
    forall i ensures EffectOk(b, i) { assert EffectOk(a, i); }
    forall o ensures OfferOk(b.server, o) { assert OfferOk(a.server, o); }
  }

  lemma StepHistory(a: App, step: Step)
    requires Inv(a) && History(a) && Enabled(a, step)
    ensures History(Next(a, step))
  {
    if step.Serve? {
      ServeHistory(a, step.i, step.grant);
    } else if step.EndOffer? {
      EndOfferHistory(a, step.offer);
    } else {
      AppOnlySends(a, step);
      SendingKeepsHistory(a, Next(a, step));
    }
  }

  lemma {:induction false} RunHistory(a: App, steps: seq<Step>)
    requires Inv(a) && History(a) && Legal(a, steps)
    ensures History(Run(a, steps))
    decreases steps
  {
    if steps != [] {
      StepKeeps(a, steps[0]);
      StepHistory(a, steps[0]);
      RunHistory(Next(a, steps[0]), steps[1..]);
    }
  }

  lemma StartOk()
    ensures Inv(START) && History(START) && Regretted(START)
  {
    forall id ensures PendingOk(START, id) {}
    forall s ensures Remembered(START, s) {}
    forall i: nat ensures HandledOk(START, i) && EffectOk(START, i) {}
    forall offer ensures OfferOk(START.server, offer) {}
  }

  // ------------------------------------------------------------ the intent law

  ghost predicate SentTwice(a: App, key: nat) {
    exists i, j :: 0 <= i < j < |a.sends| && a.sends[i].key == key && a.sends[j].key == key
  }

  /** A run of `done` follows the server's ok, and there is an effect that it reports. */
  ghost predicate DoneFollows(a: App, key: nat) {
    key in a.answers && a.answers[key] == Applied && exists s :: s in a.sends && s.key == key && HasEffect(a.server, s)
  }

  /**
   * At most one call is suspended; a key always carries the same intent and request; `done`
   * ran at most once per key and only after the server said ok; the server applied each key
   * at most once and accepted each offer at most once, under however many keys; an earlier
   * key of an intent with two effects had its definitive answer; and an effect that the app
   * was told is refused stems from a key that was sent more than once. Only the acceptance
   * of an offer is ever dropped.
   */
  ghost predicate Law(a: App) {
    && (forall c, d :: c in a.calls && d in a.calls ==> c == d)
    && (forall s, t :: s in a.sends && t in a.sends && s.key == t.key ==> s == t)
    && (forall i, j :: 0 <= i < j < |a.done| ==> a.done[i] != a.done[j])
    && (forall k :: k in a.done ==> DoneFollows(a, k))
    && EffectsApart(a.server.effects)
    && (forall e, f :: e in a.server.effects && f in a.server.effects && e.id == f.id && e.key < f.key ==> e.id.Action? && e.key in a.answers)
    && (forall e :: e in a.server.effects && e.key in a.answers && a.answers[e.key] == Rejected ==> SentTwice(a, e.key))
    && (forall id :: id in a.dropped ==> id.AcceptOffer?)
  }

  lemma DoneIsBacked(a: App, key: nat)
    requires Inv(a) && History(a) && key in a.done
    ensures DoneFollows(a, key)
  {
    var n :| 0 <= n < |a.done| && a.done[n] == key;
    assert HandledAs(a, key, true);
    var i: nat :| i in a.server.handled && a.server.handled[i] && i < |a.sends| && a.sends[i].key == key;
    assert HandledOk(a, i) && a.sends[i] in a.sends;
  }

  lemma EffectIsSent(a: App, e: Intent)
    requires History(a) && e in a.server.effects
    ensures e in a.sends && e.key in a.server.applied
  {
    var i :| 0 <= i < |a.server.effects| && a.server.effects[i] == e;
    assert EffectOk(a, i);
  }

  lemma TwoEffectsAnswered(a: App, e: Intent, f: Intent)
    requires Inv(a) && History(a) && e in a.server.effects && f in a.server.effects && e.id == f.id && e.key < f.key
    ensures e.id.Action? && e.key in a.answers
  {
    EffectIsSent(a, e);
    EffectIsSent(a, f);
    var i :| 0 <= i < |a.server.effects| && a.server.effects[i] == e;
    var j :| 0 <= j < |a.server.effects| && a.server.effects[j] == f;
  }

  lemma RefusedEffectSentTwice(a: App, e: Intent)
    requires Inv(a) && History(a) && e in a.server.effects && e.key in a.answers && a.answers[e.key] == Rejected
    ensures SentTwice(a, e.key)
  {
    EffectIsSent(a, e);
    assert HandledAs(a, e.key, true) && HandledAs(a, e.key, false);
    var i :| i in a.server.handled && a.server.handled[i] && i < |a.sends| && a.sends[i].key == e.key;
    var j :| j in a.server.handled && !a.server.handled[j] && j < |a.sends| && a.sends[j].key == e.key;
    assert i < j || j < i;
  }

  lemma InvIsLaw(a: App)
    requires Inv(a) && History(a)
    ensures Law(a)
  {
    forall k | k in a.done ensures DoneFollows(a, k) { DoneIsBacked(a, k); }
    forall e, f | e in a.server.effects && f in a.server.effects && e.id == f.id && e.key < f.key ensures e.id.Action? && e.key in a.answers {
      TwoEffectsAnswered(a, e, f);
    }
    forall e | e in a.server.effects && e.key in a.answers && a.answers[e.key] == Rejected ensures SentTwice(a, e.key) {
      RefusedEffectSentTwice(a, e);
    }
  }

  /** The law in every state that any interleaving reaches. */
  lemma IntentLaw(steps: seq<Step>)
    requires Legal(START, steps)
    ensures Law(Run(START, steps))
  {
    StartOk();
    RunKeeps(START, steps);
    RunHistory(START, steps);
    InvIsLaw(Run(START, steps));
  }

  /**
   * Over every run an offer is accepted at most once, whatever was dropped and however many
   * keys its acceptance was sent under: the server knows the offer's state.
   */
  lemma OfferAcceptedOnce(steps: seq<Step>, i: nat, j: nat)
    requires Legal(START, steps) && i < j < |Run(START, steps).server.effects| && Run(START, steps).server.effects[i].id.AcceptOffer?
    ensures Run(START, steps).server.effects[i].id != Run(START, steps).server.effects[j].id
  {
    IntentLaw(steps);
  }

  /**
   * Pressing an intent that was never dropped while its outcome is open resends the very
   * same intent; a new key is minted only when every earlier key of that intent has its
   * definitive answer.
   */
  lemma ResendOrMint(steps: seq<Step>, press: Step)
    requires Legal(START, steps) && press.Press? && press.id !in Run(START, steps).dropped
    requires Enabled(Run(START, steps), press) && !Run(START, steps).inFlight
    ensures
      var a := Run(START, steps);
      var b := Next(a, press);
      var sent := b.sends[|b.sends| - 1];
      if sent in a.sends then b.nextKey == a.nextKey && press.id in a.pending && sent == a.pending[press.id]
      else
        && b.nextKey == a.nextKey + 1 && sent == Intent(press.id, a.nextKey, press.request)
        && (forall s :: s in a.sends && s.id == press.id ==> s.key in a.answers)
  {
    StartOk();
    RunKeeps(START, steps);
    PressedBefore(Run(START, steps), press);
  }

  lemma PressedBefore(a: App, press: Step)
    requires Inv(a) && press.Press? && press.id !in a.dropped
    ensures press.id in a.pending ==> a.pending[press.id] in a.sends
    ensures press.id !in a.pending && !a.inFlight ==> forall s :: s in a.sends && s.id == press.id ==> s.key in a.answers
    ensures forall s :: s in a.sends ==> s.key != a.nextKey
  {
    assert PendingOk(a, press.id);
    if press.id !in a.pending && !a.inFlight {
      forall s | s in a.sends && s.id == press.id ensures s.key in a.answers {
        assert Remembered(a, s);
      }
    }
  }

  // ------------------------------------------------------------ forgetting an acceptance

  /** `acceptJob` gets a retryable refusal and forgets its key. */
  predicate Drops(a: App, step: Step, id: IntentId) {
    && step.Reply? && step.result == Refused(true) && step.call in a.calls && a.calls[step.call].Sending?
    && a.calls[step.call].intent.id == id && id.AcceptOffer?
  }

  predicate DropsIn(a: App, steps: seq<Step>, id: IntentId)
    requires Legal(a, steps)
    decreases steps
  {
    steps != [] && (Drops(a, steps[0], id) || DropsIn(Next(a, steps[0]), steps[1..], id))
  }

  lemma DroppedByStep(a: App, step: Step, id: IntentId)
    requires Enabled(a, step)
    ensures id in Next(a, step).dropped <==> id in a.dropped || Drops(a, step, id)
  {
  }

  lemma {:induction false} DroppedIff(a: App, steps: seq<Step>, id: IntentId)
    requires Legal(a, steps)
    ensures id in Run(a, steps).dropped <==> id in a.dropped || DropsIn(a, steps, id)
    decreases steps
  {
    if steps != [] {
      DroppedByStep(a, steps[0], id);
      DroppedIff(Next(a, steps[0]), steps[1..], id);
    }
  }

  /** A request whose outcome the app will never learn: nothing remembers it. */
  ghost predicate Lost(a: App, s: Intent) {
    && s in a.sends && s.key !in a.answers && !(s.id in a.pending && a.pending[s.id] == s)
    && (forall c :: c in a.calls ==> a.calls[c] != Sending(s))
  }

  ghost predicate LostFor(a: App, id: IntentId) {
    exists s :: Lost(a, s) && s.id == id
  }

  /** Every dropped intent left such a request behind. */
  ghost predicate Regretted(a: App) {
    forall id :: id in a.dropped ==> LostFor(a, id)
  }

  lemma ReplyStaysLost(a: App, c: nat, r: Result, s: Intent)
    requires Inv(a) && Enabled(a, Reply(c, r)) && Lost(a, s)
    ensures Lost(Next(a, Reply(c, r)), s)
  {
    CallIntent(a, a.calls[c]);
    OnlyCall(a, c);
    assert a.calls[c].intent != s && a.calls[c].intent.key != s.key;
  }

  lemma StaysLost(a: App, step: Step, s: Intent)
    requires Inv(a) && Enabled(a, step) && Lost(a, s)
    ensures Lost(Next(a, step), s)
  {
    match step
    case Reply(c, r) => ReplyStaysLost(a, c, r, s);
    case DoneThrows(c) =>
      CallIntent(a, a.calls[c]);
      assert a.calls[c].intent.key != s.key;
    case Press(_, id, _) => assert PendingOk(a, id);
    case _ =>
  }

  lemma DropLoses(a: App, step: Step, id: IntentId)
    requires Inv(a) && Enabled(a, step) && Drops(a, step, id)
    ensures LostFor(Next(a, step), id)
  {
    var intent := a.calls[step.call].intent;
    CallIntent(a, a.calls[step.call]);
    OnlyCall(a, step.call);
    assert Lost(Next(a, step), intent);
  }

  lemma StepRegrets(a: App, step: Step)
    requires Inv(a) && Regretted(a) && Enabled(a, step)
    ensures Regretted(Next(a, step))
  {
    forall id | id in Next(a, step).dropped ensures LostFor(Next(a, step), id) {
      DroppedByStep(a, step, id);
      if id in a.dropped {
        var s :| Lost(a, s) && s.id == id;
        StaysLost(a, step, s);
      } else {
        DropLoses(a, step, id);
      }
    }
  }

  lemma {:induction false} RunRegrets(a: App, steps: seq<Step>)
    requires Inv(a) && Regretted(a) && Legal(a, steps)
    ensures Regretted(Run(a, steps))
    decreases steps
  {
    if steps != [] {
      StepKeeps(a, steps[0]);
      StepRegrets(a, steps[0]);
      RunRegrets(Next(a, steps[0]), steps[1..]);
    }
  }

  /** A press would mint a new key for the intent while an earlier key of it has no definitive answer. */
  ghost predicate MintsOver(a: App, id: IntentId) {
    id !in a.pending && exists s :: s in a.sends && s.id == id && s.key !in a.answers
  }

  /**
   * What forgetting costs the app, exactly: in every reachable state of rest, the next press
   * of an intent mints a second key over an unanswered one if and only if the intent was
   * dropped in the run and is not pending again.
   */
  lemma MintsOverIff(steps: seq<Step>, id: IntentId)
    requires Legal(START, steps) && !Run(START, steps).inFlight
    ensures MintsOver(Run(START, steps), id) <==> DropsIn(START, steps, id) && id !in Run(START, steps).pending
  {
    var a := Run(START, steps);
    StartOk();
    RunKeeps(START, steps);
    RunRegrets(START, steps);
    DroppedIff(START, steps, id);
    if MintsOver(a, id) {
      var s :| s in a.sends && s.id == id && s.key !in a.answers;
      assert Remembered(a, s);
    }
    if id in a.dropped {
      var s :| Lost(a, s) && s.id == id;
    }
  }

  /** One step after another. */
  lemma {:induction false} RunThen(a: App, steps: seq<Step>, step: Step)
    requires Legal(a, steps) && Enabled(Run(a, steps), step)
    ensures Legal(a, steps + [step]) && Run(a, steps + [step]) == Next(Run(a, steps), step)
    decreases steps
  {
    if steps == [] {
      assert steps + [step] == [step] && [step][1..] == [];
      assert Legal(Next(a, step), [step][1..]);
    } else {
      assert (steps + [step])[0] == steps[0] && (steps + [step])[1..] == steps[1..] + [step];
      RunThen(Next(a, steps[0]), steps[1..], step);
    }
  }

  ghost predicate Reaches(a: App, b: App) {
    exists steps :: Legal(a, steps) && Run(a, steps) == b
  }

  lemma Onward(a: App, b: App, step: Step)
    requires Reaches(a, b) && Enabled(b, step)
    ensures Reaches(a, Next(b, step))
  {
    var steps :| Legal(a, steps) && Run(a, steps) == b;
    RunThen(a, steps, step);
  }

  lemma Stay(a: App)
    ensures Reaches(a, a)
  {
    assert Legal(a, []) && Run(a, []) == a;
  }

  /** The app after a 503 answered an acceptance that the server had applied. */
  function Forgotten(offer: string, request: string): App {
    var i := Intent(AcceptOffer(offer), 0, request);
    App(map[], false, 1, map[], Server({0}, map[offer := Held], [i], {}, map[0 := true]), [i], map[], [], {AcceptOffer(offer)})
  }

  lemma AcceptanceForgotten(offer: string, request: string)
    ensures Reaches(START, Forgotten(offer, request))
  {
    var id := AcceptOffer(offer);
    var i := Intent(id, 0, request);
    var s1 := Server({0}, map[offer := Held], [i], {}, map[0 := true]);
    Stay(START);
    Onward(START, START, Press(0, id, request));
    var a1 := Next(START, Press(0, id, request));
    assert a1 == App(map[], true, 1, map[0 := Sending(i)], START.server, [i], map[], [], {});
    Onward(START, a1, Serve(0, true));
    var a2 := Next(a1, Serve(0, true));
    assert a2.server == s1;
    Onward(START, a2, Reply(0, Refused(true)));
    var a3 := Next(a2, Reply(0, Refused(true)));
    assert a3 == App(map[], true, 1, map[0 := Reloading(i, false)], s1, [i], map[], [], {id});
    Onward(START, a3, Resume(0));
    assert Next(a3, Resume(0)) == Forgotten(offer, request);
  }

  /**
   * It happens to every offer: the server applied the acceptance, the app forgot it, the
   * next press sends a second key, and the server answers that key with the acceptance
   * already held. The first key stays unanswered, and there is still one effect.
   */
  lemma SecondKeyIsAReplay(offer: string, request: string)
    ensures
      var a := Forgotten(offer, request);
      var press := Press(0, AcceptOffer(offer), request);
      && Reaches(START, a) && MintsOver(a, AcceptOffer(offer)) && Enabled(a, press) && Enabled(Next(a, press), Serve(1, true))
      && var b := Next(Next(a, press), Serve(1, true));
         && Reaches(START, b) && b.sends[0].key != b.sends[1].key && b.sends[0].id == b.sends[1].id && 0 !in b.answers
         && 1 in b.server.applied && b.server.effects == a.server.effects
  {
    var a := Forgotten(offer, request);
    var press := Press(0, AcceptOffer(offer), request);
    AcceptanceForgotten(offer, request);
    assert a.sends[0] in a.sends;
    Onward(START, a, press);
    var a1 := Next(a, press);
    assert a1.sends == [a.sends[0], Intent(AcceptOffer(offer), 1, request)];
    Onward(START, a1, Serve(1, true));
  }

  /** A second key over an unanswered one is sent in some run if and only if the intent accepts an offer. */
  lemma MintedOverIffOffer(id: IntentId)
    ensures (exists a :: Reaches(START, a) && !a.inFlight && MintsOver(a, id)) <==> id.AcceptOffer?
  {
    if id.AcceptOffer? {
      AcceptanceForgotten(id.offer, "accept");
      SecondKeyIsAReplay(id.offer, "accept");
    }
    if a :| Reaches(START, a) && !a.inFlight && MintsOver(a, id) {
      var steps :| Legal(START, steps) && Run(START, steps) == a;
      MintsOverIff(steps, id);
      DroppedIff(START, steps, id);
      IntentLaw(steps);
    }
  }

  // ------------------------------------------------------------ a refusal is not the end of a key

  /**
   * The server records no refusal, so a key the app was told is refused can still be
   * applied: the next thing the server does can give it its effect if and only if the key
   * is not recorded, an earlier request of it has not been handled yet, and the offer, if
   * it accepts one, is still open.
   */
  lemma LateEffectIff(a: App, key: nat)
    requires Inv(a) && key in a.answers && a.answers[key] == Rejected
    ensures (exists i: nat :: TakesEffect(a, i, key)) <==> key !in a.server.applied && exists i: nat :: Awaits(a, i, key)
  {
    forall i: nat ensures TakesEffect(a, i, key) <==> key !in a.server.applied && Awaits(a, i, key) {
      HandlesTo(a, i, key);
    }
  }

  /** Handling request `i` next gives the key its effect. */
  ghost predicate TakesEffect(a: App, i: nat, key: nat) {
    Enabled(a, Serve(i, true)) && a.sends[i].key == key && Next(a, Serve(i, true)).server.effects != a.server.effects
  }

  lemma HandlesTo(a: App, i: nat, key: nat)
    ensures TakesEffect(a, i, key) <==> key !in a.server.applied && Awaits(a, i, key)
  {
    if Enabled(a, Serve(i, true)) {
      assert |a.server.effects + [a.sends[i]]| == |a.server.effects| + 1;
    }
  }

  /** Request `i` of this key has not been handled, and nothing rules it out. */
  ghost predicate Awaits(a: App, i: nat, key: nat) {
    && i < |a.sends| && i !in a.server.handled && a.sends[i].key == key
    && (a.sends[i].id.AcceptOffer? ==> OfferOf(a.server, a.sends[i].id.offer) == Live)
  }
}
