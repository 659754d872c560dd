/**
 * What a round of resending and a press come to: from a state of rest to the release of
 * the lock, whatever else happens in between.
 */
module OperatorRounds {
  import opened Text
  import opened Operator
  import opened OperatorProofs

  /** A step of the call's own code. */
  predicate Own(step: Step, c: nat) {
    (step.Reply? || step.Resume? || step.Throw? || step.DoneThrows?) && step.call == c
  }

  /** The call is suspended in every state of the run but perhaps the last one, and nothing it runs throws. */
  predicate Through(a: App, steps: seq<Step>, c: nat)
    requires Legal(a, steps)
    decreases steps
  {
    steps == [] || (c in a.calls && steps[0] != Throw(c) && steps[0] != DoneThrows(c) && Through(Next(a, steps[0]), steps[1..], c))
  }

  /** The replies the call got in a run, in order. */
  function RepliesTo(steps: seq<Step>, c: nat): seq<Result> {
    if steps == [] then []
    else (if steps[0].Reply? && steps[0].call == c then [steps[0].result] else []) + RepliesTo(steps[1..], c)
  }

  /** While a call is suspended, whatever is not its own step leaves the app alone. */
  lemma OthersWait(a: App, step: Step, c: nat)
    requires Enabled(a, step) && c in a.calls && Exclusive(a) && !Own(step, c)
    ensures Next(a, step) == a.(server := Next(a, step).server)
  {
  }

  // ------------------------------------------------------------ a round of resending

  /** The reply settles the intent: it is not resent again. */
  predicate Definitive(r: Result) {
    r == OK || r == Refused(false)
  }

  /** The intent under `id` got a definitive reply. */
  ghost predicate SettledBy(order: seq<IntentId>, results: seq<Result>, id: IntentId) {
    exists i: nat :: i < |results| && i < |order| && order[i] == id && Definitive(results[i])
  }

  /** The keys of the intents that were answered ok, in order. */
  function OkKeys(intents: seq<Intent>, results: seq<Result>): seq<nat>
    requires |results| <= |intents|
    decreases |results|
  {
    if results == [] then []
    else
      var n := |results| - 1;
      OkKeys(intents, results[..n]) + if results[n] == OK then [intents[n].key] else []
  }

  /**
   * The loop over `intents` after `k` replies: what was sent, and where the loop is. `paused`
   * says that it awaits `handleError` after a definitive refusal.
   */
  ghost predicate LoopAt(a: App, intents: seq<Intent>, c: nat, k: nat, paused: bool, b: App) {
    && k <= |intents|
    && b.sends == a.sends + intents[..if paused || k == |intents| then k else k + 1]
    && b.nextKey == a.nextKey && b.dropped == a.dropped
    && b.inFlight == (paused || k < |intents|)
    && b.calls ==
       if paused then map[c := ResolvePaused(intents[k..])]
       else if k < |intents| then map[c := Resolving(intents[k], intents[k + 1..])]
       else map[]
  }

  /** What the replies did: which intents are still pending, and which ran their `done`. */
  ghost predicate AnsweredAt(a: App, order: seq<IntentId>, results: seq<Result>, b: App)
    requires Enumerates(order, a.pending) && |results| <= |order|
  {
    && b.done == a.done + OkKeys(Listed(order, a.pending), results)
    && (forall id :: id in b.pending <==> id in a.pending && !SettledBy(order, results, id))
    && (forall id :: id in b.pending ==> b.pending[id] == a.pending[id])
  }

  /** A round over `order` after `results`, one reply per resend. */
  ghost predicate RoundAt(a: App, order: seq<IntentId>, c: nat, results: seq<Result>, paused: bool, b: App)
    requires Enumerates(order, a.pending)
  {
    |results| <= |order| && LoopAt(a, Listed(order, a.pending), c, |results|, paused, b) && AnsweredAt(a, order, results, b)
  }

  lemma OkKeysThen(intents: seq<Intent>, results: seq<Result>, r: Result)
    requires |results| < |intents|
    ensures OkKeys(intents, results + [r]) == OkKeys(intents, results) + if r == OK then [intents[|results|].key] else []
  {
    assert (results + [r])[..|results|] == results;
  }

  lemma SettledThen(order: seq<IntentId>, results: seq<Result>, r: Result, id: IntentId)
    requires |results| < |order|
    ensures SettledBy(order, results + [r], id) <==> SettledBy(order, results, id) || (order[|results|] == id && Definitive(r))
  {
    var more := results + [r];
    assert forall i: nat :: i < |results| ==> more[i] == results[i];
    if SettledBy(order, results, id) {
      var i: nat :| i < |results| && i < |order| && order[i] == id && Definitive(results[i]);
      assert more[i] == results[i];
    }
    assert more[|results|] == r;
  }

  lemma RoundStarts(a: App, c: nat, order: seq<IntentId>)
    requires Inv(a) && !a.inFlight && Enabled(a, Wake(c, order)) && order != []
    ensures RoundAt(a, order, c, [], false, Next(a, Wake(c, order)))
  {
    var b := Next(a, Wake(c, order));
    var intents := Listed(order, a.pending);
    assert a.calls == map[];
    assert intents[..1] == [intents[0]];
  }

  /** One turn of the loop over the list, from position `j`. */
  lemma TurnOfLoop(b: App, c: nat, intents: seq<Intent>, j: nat)
    requires j <= |intents| && b.inFlight && b.calls.Keys == {c}
    ensures Continue(b, c, intents[j..]) ==
            if j == |intents| then b.(calls := map[], inFlight := false)
            else b.(calls := map[c := Resolving(intents[j], intents[j + 1..])], sends := b.sends + [intents[j]])
  {
    if j < |intents| {
      assert intents[j..][0] == intents[j] && intents[j..][1..] == intents[j + 1..];
    }
  }

  lemma Takes(intents: seq<Intent>, j: nat)
    requires j < |intents|
    ensures intents[..j + 1] == intents[..j] + [intents[j]]
  {
  }

  /** The app with the reply to resend `k` taken in, before the loop goes on. */
  function TakenIn(b: App, intent: Intent, r: Result): App {
    if r == OK then Settled(b, intent, Applied).(done := b.done + [intent.key])
    else if r == Refused(false) then Settled(b, intent, Rejected)
    else b
  }

  lemma ReplyIs(b: App, c: nat, intents: seq<Intent>, k: nat, r: Result)
    requires k < |intents| && b.calls == map[c := Resolving(intents[k], intents[k + 1..])] && Enabled(b, Reply(c, r))
    ensures Next(b, Reply(c, r)) ==
            if r == Refused(false) then TakenIn(b, intents[k], r).(calls := map[c := ResolvePaused(intents[k + 1..])])
            else Continue(TakenIn(b, intents[k], r), c, intents[k + 1..])
  {
    assert b.calls[c := ResolvePaused(intents[k + 1..])] == map[c := ResolvePaused(intents[k + 1..])];
  }

  lemma LoopReplies(a: App, c: nat, intents: seq<Intent>, k: nat, b: App, r: Result)
    requires LoopAt(a, intents, c, k, false, b) && k < |intents| && Enabled(b, Reply(c, r))
    ensures var n := Next(b, Reply(c, r));
      && LoopAt(a, intents, c, k + 1, r == Refused(false), n)
      && n.done == TakenIn(b, intents[k], r).done && n.pending == TakenIn(b, intents[k], r).pending
  {
    ReplyIs(b, c, intents, k, r);
    TurnOfLoop(TakenIn(b, intents[k], r), c, intents, k + 1);
    if k + 1 < |intents| { Takes(intents, k + 1); }
  }

  /** What is pending after one more reply, for one intent. */
  lemma PendingAdds(a: App, order: seq<IntentId>, results: seq<Result>, b: App, r: Result, id: IntentId)
    requires Enumerates(order, a.pending) && |results| < |order| && AnsweredAt(a, order, results, b)
    requires a.pending[order[|results|]].id == order[|results|]
    ensures var m := TakenIn(b, Listed(order, a.pending)[|results|], r);
      && (id in m.pending <==> id in a.pending && !SettledBy(order, results + [r], id))
      && (id in m.pending ==> m.pending[id] == a.pending[id])
  {
    SettledThen(order, results, r, id);
  }

  lemma DoneTakesIn(b: App, intent: Intent, r: Result)
    ensures TakenIn(b, intent, r).done == b.done + if r == OK then [intent.key] else []
  {
  }

  lemma DoneAdds(done: seq<nat>, intents: seq<Intent>, results: seq<Result>, b: App, r: Result)
    requires |results| < |intents| && b.done == done + OkKeys(intents, results)
    ensures TakenIn(b, intents[|results|], r).done == done + OkKeys(intents, results + [r])
  {
    OkKeysThen(intents, results, r);
    DoneTakesIn(b, intents[|results|], r);
  }

  lemma AnswersAdd(a: App, order: seq<IntentId>, results: seq<Result>, b: App, r: Result, n: App)
    requires Enumerates(order, a.pending) && |results| < |order| && AnsweredAt(a, order, results, b)
    requires a.pending[order[|results|]].id == order[|results|]
    requires n.done == TakenIn(b, Listed(order, a.pending)[|results|], r).done
    requires n.pending == TakenIn(b, Listed(order, a.pending)[|results|], r).pending
    ensures AnsweredAt(a, order, results + [r], n)
  {
    DoneAdds(a.done, Listed(order, a.pending), results, b, r);
    forall id
      ensures id in n.pending <==> id in a.pending && !SettledBy(order, results + [r], id)
      ensures id in n.pending ==> n.pending[id] == a.pending[id]
    {
      PendingAdds(a, order, results, b, r, id);
    }
  }

  lemma PendingNamed(a: App, id: IntentId)
    requires Inv(a) && id in a.pending
    ensures a.pending[id].id == id
  {
    assert PendingOk(a, id);
  }

  /** One reply: the intent is settled or kept, and the loop goes on. */
  lemma RoundReply(a: App, c: nat, order: seq<IntentId>, results: seq<Result>, b: App, r: Result)
    requires Enumerates(order, a.pending) && RoundAt(a, order, c, results, false, b) && |results| < |order|
    requires Enabled(b, Reply(c, r)) && a.pending[order[|results|]].id == order[|results|]
    ensures RoundAt(a, order, c, results + [r], r == Refused(false), Next(b, Reply(c, r)))
  {
    LoopReplies(a, c, Listed(order, a.pending), |results|, b, r);
    AnswersAdd(a, order, results, b, r, Next(b, Reply(c, r)));
  }

  lemma LoopResumes(a: App, c: nat, intents: seq<Intent>, k: nat, b: App)
    requires LoopAt(a, intents, c, k, true, b) && Enabled(b, Resume(c))
    ensures var n := Next(b, Resume(c)); LoopAt(a, intents, c, k, false, n) && n.done == b.done && n.pending == b.pending
  {
    TurnOfLoop(b, c, intents, k);
    if k < |intents| { Takes(intents, k); }
  }

  lemma RoundResumes(a: App, c: nat, order: seq<IntentId>, results: seq<Result>, b: App)
    requires Enumerates(order, a.pending) && RoundAt(a, order, c, results, true, b) && Enabled(b, Resume(c))
    ensures RoundAt(a, order, c, results, false, Next(b, Resume(c)))
  {
    LoopResumes(a, c, Listed(order, a.pending), |results|, b);
  }

  lemma RoundIgnoresServer(a: App, c: nat, order: seq<IntentId>, results: seq<Result>, paused: bool, b: App, v: Server)
    requires Enumerates(order, a.pending) && RoundAt(a, order, c, results, paused, b)
    ensures RoundAt(a, order, c, results, paused, b.(server := v))
  {
  }

  /** One step of the run. */
  lemma RoundStep(a: App, c: nat, order: seq<IntentId>, results: seq<Result>, paused: bool, b: App, step: Step)
    returns (results': seq<Result>, paused': bool)
    requires Inv(a) && Enumerates(order, a.pending) && RoundAt(a, order, c, results, paused, b)
    requires Enabled(b, step) && c in b.calls && step != Throw(c) && step != DoneThrows(c)
    ensures results' == results + if step.Reply? && step.call == c then [step.result] else []
    ensures RoundAt(a, order, c, results', paused', Next(b, step))
  {
    results', paused' := results, paused;
    if !Own(step, c) {
      OthersWait(b, step, c);
      RoundIgnoresServer(a, c, order, results, paused, b, Next(b, step).server);
    } else if step.Reply? {
      results', paused' := results + [step.result], step.result == Refused(false);
      PendingNamed(a, order[|results|]);
      RoundReply(a, c, order, results, b, step.result);
    } else {
      paused' := false;
      RoundResumes(a, c, order, results, b);
    }
  }

  /** The replies of a run are those of its first step and of the rest. */
  lemma RepliesAdd(results: seq<Result>, steps: seq<Step>, c: nat)
    requires steps != []
    ensures results + RepliesTo(steps, c)
            == results + (if steps[0].Reply? && steps[0].call == c then [steps[0].result] else []) + RepliesTo(steps[1..], c)
  {
  }

  /** Where the round is after any run, from where it was: the replies add up, and the loop keeps to the list. */
  lemma {:induction false} RoundGoesOn(a: App, c: nat, order: seq<IntentId>, results: seq<Result>, paused: bool, b: App, steps: seq<Step>)
    returns (paused': bool)
    requires Inv(a) && Enumerates(order, a.pending) && RoundAt(a, order, c, results, paused, b)
    requires Legal(b, steps) && Through(b, steps, c)
    ensures RoundAt(a, order, c, results + RepliesTo(steps, c), paused', Run(b, steps))
    decreases steps
  {
    if steps == [] {
      assert results + [] == results;
      paused' := paused;
    } else {
      var n := Next(b, steps[0]);
      var results1, paused1 := RoundStep(a, c, order, results, paused, b, steps[0]);
      RepliesAdd(results, steps, c);
      paused' := RoundGoesOn(a, c, order, results1, paused1, n, steps[1..]);
    }
  }

  /**
   * The round of `resolvePending`, in every run from a state of rest, with whatever presses,
   * timers and server work in between. At each moment it has resent the first pending
   * intents in order, each with its own key and request, one more than it got replies; an
   * intent left `pending` if and only if its reply was ok or a definitive refusal; and
   * `done` ran for exactly the intents answered ok. The lock is released when, and only
   * when, every intent has been resent and answered.
   */
  lemma RoundLaw(a: App, c: nat, order: seq<IntentId>, steps: seq<Step>) returns (paused: bool)
    requires Inv(a) && !a.inFlight && Enabled(a, Wake(c, order)) && order != []
    requires Legal(Next(a, Wake(c, order)), steps) && Through(Next(a, Wake(c, order)), steps, c)
    ensures RoundAt(a, order, c, RepliesTo(steps, c), paused, Run(Next(a, Wake(c, order)), steps))
  {
    RoundStarts(a, c, order);
    paused := RoundGoesOn(a, c, order, [], false, Next(a, Wake(c, order)), steps);
    assert [] + RepliesTo(steps, c) == RepliesTo(steps, c);
  }

  /** When the call is over, the whole list was resent, in the given order, and every intent got one reply. */
  lemma RoundEnds(a: App, c: nat, order: seq<IntentId>, steps: seq<Step>)
    requires Inv(a) && !a.inFlight && Enabled(a, Wake(c, order)) && order != []
    requires Legal(Next(a, Wake(c, order)), steps) && Through(Next(a, Wake(c, order)), steps, c)
    ensures
      var b, results := Run(Next(a, Wake(c, order)), steps), RepliesTo(steps, c);
      c !in b.calls ==>
        && |results| == |order| && !b.inFlight
        && b.sends == a.sends + Listed(order, a.pending)
        && b.done == a.done + OkKeys(Listed(order, a.pending), results)
        && forall i :: 0 <= i < |order| ==> (order[i] !in b.pending <==> results[i] == OK || results[i] == Refused(false))
  {
    var paused := RoundLaw(a, c, order, steps);
    var b, results := Run(Next(a, Wake(c, order)), steps), RepliesTo(steps, c);
    if c !in b.calls {
      assert Listed(order, a.pending)[..|order|] == Listed(order, a.pending);
      forall i | 0 <= i < |order| ensures order[i] !in b.pending <==> Definitive(results[i]) {
        if SettledBy(order, results, order[i]) {
          var j: nat :| j < |results| && j < |order| && order[j] == order[i] && Definitive(results[j]);
          assert j == i;
        }
      }
    }
  }

  /** A suspended round can always go on: any reply that the server backs, and the end of `handleError`. */
  lemma RoundCanGoOn(a: App, c: nat, order: seq<IntentId>, results: seq<Result>, paused: bool, b: App, r: Result)
    requires Enumerates(order, a.pending) && RoundAt(a, order, c, results, paused, b)
    ensures paused ==> Enabled(b, Resume(c))
    ensures !paused && |results| < |order| && Truthful(b, Listed(order, a.pending)[|results|].key, r) ==> Enabled(b, Reply(c, r))
  {
  }

  // ------------------------------------------------------------ a press

  /** The intent a press sends: the pending one under this id with its key and request, or a new one under the next key. */
  ghost predicate SendsIntent(a: App, id: IntentId, request: string, intent: Intent) {
    if id in a.pending then intent == a.pending[id] else intent == Intent(id, a.nextKey, request)
  }

  /** The reply leaves the intent pending: its outcome is not known, or the refusal may pass and `mutate` sent it. */
  predicate KeepsPending(intent: Intent, r: Result) {
    r == UNKNOWN || (r == Refused(true) && intent.id.Action?)
  }

  /** A press of `id` after `results`, at most one reply; `over` says that the reload has returned. */
  ghost predicate PressAt(a: App, c: nat, intent: Intent, results: seq<Result>, over: bool, b: App) {
    && |results| <= 1 && (over ==> |results| == 1)
    && b.sends == a.sends + [intent]
    && (forall id :: id != intent.id ==> (id in b.pending <==> id in a.pending) && (id in b.pending ==> b.pending[id] == a.pending[id]))
    && (intent.id in b.pending <==> if results == [] then intent.id in a.pending else KeepsPending(intent, results[0]))
    && (intent.id in b.pending ==> b.pending[intent.id] == intent)
    && b.done == a.done + (if over && results == [OK] then [intent.key] else [])
    && b.inFlight == !over
    && b.calls == (if over then map[] else map[c := if results == [] then Sending(intent) else Reloading(intent, results == [OK])])
  }

  lemma PressStarts(a: App, c: nat, id: IntentId, request: string) returns (intent: Intent)
    requires Inv(a) && !a.inFlight && Enabled(a, Press(c, id, request))
    ensures SendsIntent(a, id, request, intent) && intent.id == id && PressAt(a, c, intent, [], false, Next(a, Press(c, id, request)))
  {
    assert PendingOk(a, id);
    assert a.calls == map[];
    intent := Pressed(a, Press(c, id, request));
  }

  /** What a reply does to the call that sent the intent. */
  lemma SendReplyIs(b: App, c: nat, intent: Intent, r: Result)
    requires b.calls == map[c := Sending(intent)] && Enabled(b, Reply(c, r))
    ensures var n := Next(b, Reply(c, r));
      && n.sends == b.sends && n.done == b.done && n.inFlight == b.inFlight
      && n.calls == map[c := Reloading(intent, r == OK)]
      && n.pending == if KeepsPending(intent, r) then b.pending[intent.id := intent] else b.pending - {intent.id}
  {
  }

  lemma PressReply(a: App, c: nat, intent: Intent, b: App, r: Result)
    requires PressAt(a, c, intent, [], false, b) && Enabled(b, Reply(c, r))
    ensures PressAt(a, c, intent, [r], false, Next(b, Reply(c, r)))
  {
    SendReplyIs(b, c, intent, r);
  }

  lemma PressResumes(a: App, c: nat, intent: Intent, r: Result, b: App)
    requires PressAt(a, c, intent, [r], false, b) && Enabled(b, Resume(c))
    ensures PressAt(a, c, intent, [r], true, Next(b, Resume(c)))
  {
  }

  lemma PressStep(a: App, c: nat, intent: Intent, results: seq<Result>, b: App, step: Step)
    returns (results': seq<Result>, over: bool)
    requires PressAt(a, c, intent, results, false, b) && Enabled(b, step) && step != Throw(c) && step != DoneThrows(c)
    ensures results' == results + if step.Reply? && step.call == c then [step.result] else []
    ensures PressAt(a, c, intent, results', over, Next(b, step))
  {
    results', over := results, false;
    if !Own(step, c) {
      OthersWait(b, step, c);
    } else if step.Reply? {
      results' := [step.result];
      PressReply(a, c, intent, b, step.result);
    } else {
      over := true;
      assert results == [results[0]];
      PressResumes(a, c, intent, results[0], b);
    }
  }

  lemma {:induction false} PressGoesOn(a: App, c: nat, intent: Intent, results: seq<Result>, b: App, steps: seq<Step>) returns (over: bool)
    requires PressAt(a, c, intent, results, false, b) && Legal(b, steps) && Through(b, steps, c)
    ensures PressAt(a, c, intent, results + RepliesTo(steps, c), over, Run(b, steps))
    decreases steps
  {
    if steps == [] {
      assert results + [] == results;
      over := false;
    } else {
      var n := Next(b, steps[0]);
      var results1, over1 := PressStep(a, c, intent, results, b, steps[0]);
      RepliesAdd(results, steps, c);
      over := over1;
      if over1 {
        assert steps[1..] == [] && results1 + [] == results1;
      } else {
        over := PressGoesOn(a, c, intent, results1, n, steps[1..]);
      }
    }
  }

  /**
   * One press, in every run from a state of rest, whatever else happens in between. It sends
   * one request: the pending intent again, or a new one. With its reply the intent is
   * pending if and only if the outcome is unknown or may still change; other intents are not
   * touched. When the reload has returned the lock is released, and `done` ran, once, if and
   * only if the reply was ok.
   */
  lemma PressLaw(a: App, c: nat, id: IntentId, request: string, steps: seq<Step>) returns (intent: Intent, over: bool)
    requires Inv(a) && !a.inFlight && Enabled(a, Press(c, id, request))
    requires Legal(Next(a, Press(c, id, request)), steps) && Through(Next(a, Press(c, id, request)), steps, c)
    ensures SendsIntent(a, id, request, intent) && intent.id == id
    ensures PressAt(a, c, intent, RepliesTo(steps, c), over, Run(Next(a, Press(c, id, request)), steps))
  {
    intent := PressStarts(a, c, id, request);
    over := PressGoesOn(a, c, intent, [], Next(a, Press(c, id, request)), steps);
    assert [] + RepliesTo(steps, c) == RepliesTo(steps, c);
  }

  /** What a throw does: the lock is released, nothing is sent or run, and what is pending stays so. */
  lemma ThrowReleases(a: App, c: nat)
    requires Inv(a) && Enabled(a, Throw(c))
    ensures var b := Next(a, Throw(c)); !b.inFlight && b.calls == map[] && b == a.(inFlight := false, calls := map[])
  {
    assert c in a.calls && forall d :: d in a.calls ==> d == c;
  }
}
