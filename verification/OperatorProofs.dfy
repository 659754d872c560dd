/** Over every interleaving of presses, timers, replies and server work. */
module OperatorProofs {
  import opened Text
  import opened Operator

  /** The intent a press sends. */
  function Pressed(a: App, step: Step): Intent
    requires step.Press?
  {
    if step.id in a.pending then a.pending[step.id] else Intent(step.id, a.nextKey, step.request)
  }

  lemma PressSends(a: App, step: Step)
    requires Inv(a) && Enabled(a, step) && step.Press? && !a.inFlight
    ensures SendsOk(Next(a, step))
  {
    var b, intent := Next(a, step), Pressed(a, step);
    assert PendingOk(a, step.id);
    assert forall s :: s in b.sends <==> s in a.sends || s == intent;
    if step.id !in a.pending {
      forall s | s in a.sends && s.id == step.id && s.id !in a.dropped ensures s.key in a.answers {
        assert Remembered(a, s);
      }
    }
  }

  /** Only the members of `sends`, the key counter and the answers matter to the sends. */
  lemma SendsFrame(a: App, b: App)
    requires SendsOk(a) && b.nextKey == a.nextKey && a.answers.Keys <= b.answers.Keys && b.dropped == a.dropped
    requires forall s :: s in b.sends ==> s in a.sends
    ensures SendsOk(b)
  {
  }

  lemma ServerFrame(a: App, b: App)
    requires ServerOk(a) && b.nextKey >= a.nextKey && b.server == a.server && b.answers == a.answers
    ensures ServerOk(b)
  {
  }

  lemma PressOpen(a: App, step: Step)
    requires Inv(a) && Enabled(a, step) && step.Press? && !a.inFlight
    ensures Open(Next(a, step), Pressed(a, step))
  {
    assert PendingOk(a, step.id);
    var b, intent := Next(a, step), Pressed(a, step);
    assert b.sends[|a.sends|] == intent;
  }

  lemma PressKeeps(a: App, step: Step)
    requires Inv(a) && Enabled(a, step) && step.Press? && !a.inFlight
    ensures Inv(Next(a, step))
  {
    var b, intent := Next(a, step), Pressed(a, step);
    PressSends(a, step);
    ServerFrame(a, b);
    PressOpen(a, step);
    assert PendingOk(a, step.id);
    assert b.calls == map[step.call := Sending(intent)];
    forall id ensures PendingOk(b, id) { assert PendingOk(a, id); }
    forall s ensures Remembered(b, s) {
      assert Remembered(a, s);
      if s == intent { assert b.calls[step.call] == Sending(s); }
    }
  }

  /** The invariant with the one suspended call at `call` set aside: none of it remembered by a `send`. */
  ghost predicate Loose(a: App) {
    && SendsOk(a) && ServerOk(a) && DoneOk(a)
    && (forall id :: PendingOk(a, id))
    && (forall s :: Remembered(a.(calls := map[]), s))
  }

  /** Putting a call that sends nothing new back into a loose state. */
  lemma Suspend(a: App, c: nat, call: Call)
    requires Loose(a) && a.inFlight && CallOk(a, call)
    ensures Inv(a.(calls := map[c := call]))
  {
    var b := a.(calls := map[c := call]);
    SendsFrame(a, b);
    ServerFrame(a, b);
    SameCall(a, b, call);
    forall id ensures PendingOk(b, id) { assert PendingOk(a, id); }
    forall s ensures Remembered(b, s) { assert Remembered(a.(calls := map[]), s); }
  }

  lemma Release(a: App)
    requires Loose(a)
    ensures Inv(a.(calls := map[], inFlight := false))
  {
    var b := a.(calls := map[], inFlight := false);
    SendsFrame(a, b);
    ServerFrame(a, b);
    forall id ensures PendingOk(b, id) { assert PendingOk(a, id); }
    forall s ensures Remembered(b, s) { assert Remembered(a.(calls := map[]), s); }
  }

  /** A call only depends on the app's own state. */
  lemma SameCall(a: App, b: App, call: Call)
    requires CallOk(a, call) && b.pending == a.pending && b.answers == a.answers && b.done == a.done
    requires forall s :: s in a.sends ==> s in b.sends
    ensures CallOk(b, call)
  {
    if call.Resolving? {
      SameQueue(a, b, [call.intent] + call.rest);
    } else if call.ResolvePaused? {
      SameQueue(a, b, call.rest);
    }
  }

  lemma SameQueue(a: App, b: App, intents: seq<Intent>)
    requires Queue(a, intents) && b.pending == a.pending && b.answers == a.answers && b.done == a.done
    requires forall s :: s in a.sends ==> s in b.sends
    ensures Queue(b, intents)
  {
    forall i | 0 <= i < |intents| ensures Waiting(b, intents[i]) { assert Waiting(a, intents[i]); }
  }

  /** Sending again what was sent before. */
  lemma ResendKeepsLoose(a: App, intent: Intent)
    requires Loose(a) && intent in a.sends
    ensures Loose(a.(sends := a.sends + [intent]))
  {
    var b := a.(sends := a.sends + [intent]);
    SendsFrame(a, b);
    ServerFrame(a, b);
    forall id ensures PendingOk(b, id) { assert PendingOk(a, id); }
    forall s ensures Remembered(b.(calls := map[]), s) { assert Remembered(a.(calls := map[]), s); }
  }

  /** Going on with the loop. */
  lemma ContinueKeeps(a: App, c: nat, rest: seq<Intent>)
    requires Loose(a) && a.inFlight && a.calls.Keys <= {c} && Queue(a, rest)
    ensures Inv(Continue(a, c, rest))
  {
    if rest == [] {
      assert a.calls - {c} == map[];
      Release(a);
    } else {
      assert Waiting(a, rest[0]);
      var b := a.(sends := a.sends + [rest[0]]);
      ResendKeepsLoose(a, rest[0]);
      assert [rest[0]] + rest[1..] == rest;
      SameQueue(a, b, rest);
      Suspend(b, c, Resolving(rest[0], rest[1..]));
      assert a.calls[c := Resolving(rest[0], rest[1..])] == map[c := Resolving(rest[0], rest[1..])];
    }
  }

  lemma WakeKeeps(a: App, step: Step)
    requires Inv(a) && Enabled(a, step) && step.Wake? && !a.inFlight && step.order != []
    ensures Inv(Next(a, step))
  {
    var all := Listed(step.order, a.pending);
    var b := a.(inFlight := true);
    assert a.calls == map[];
    forall i | 0 <= i < |all| ensures all[i].id == step.order[i] && Waiting(b, all[i]) { assert PendingOk(a, step.order[i]); }
    SendsFrame(a, b);
    ServerFrame(a, b);
    forall id ensures PendingOk(b, id) { assert PendingOk(a, id); }
    forall s ensures Remembered(b.(calls := map[]), s) { assert Remembered(a, s); }
    ContinueKeeps(b, step.call, all);
  }

  lemma SettledPending(a: App, intent: Intent, v: Verdict, id: IntentId)
    requires SendsOk(a) && Open(a, intent) && (intent.id in a.pending ==> a.pending[intent.id] == intent) && PendingOk(a, id)
    ensures PendingOk(Settled(a, intent, v), id)
  {
  }

  lemma SettledRemembers(a: App, c: nat, v: Verdict, s: Intent)
    requires Exclusive(a) && c in a.calls && (a.calls[c].Sending? || a.calls[c].Resolving?) && Remembered(a, s)
    requires var intent := a.calls[c].intent; intent.id in a.pending ==> a.pending[intent.id] == intent
    ensures Remembered(Settled(a, a.calls[c].intent, v).(calls := map[]), s)
  {
  }

  /** A definitive answer for an intent the app is waiting for. */
  lemma SettledKeeps(a: App, c: nat, v: Verdict)
    requires Inv(a) && c in a.calls && (a.calls[c].Sending? || a.calls[c].Resolving?)
    requires if v == Applied then a.calls[c].intent.key in a.server.applied else a.calls[c].intent.key in a.server.refused
    ensures Loose(Settled(a, a.calls[c].intent, v)) && Open(a, a.calls[c].intent)
  {
    var intent := a.calls[c].intent;
    var b := Settled(a, intent, v);
    CallIntent(a, a.calls[c]);
    SendsFrame(a, b);
    forall id ensures PendingOk(b, id) {
      assert PendingOk(a, id);
      SettledPending(a, intent, v, id);
    }
    forall s ensures Remembered(b.(calls := map[]), s) {
      assert Remembered(a, s);
      SettledRemembers(a, c, v, s);
    }
  }

  lemma CallIntent(a: App, call: Call)
    requires CallOk(a, call) && (call.Sending? || call.Resolving?)
    ensures Open(a, call.intent) && (call.intent.id in a.pending ==> a.pending[call.intent.id] == call.intent)
    ensures call.Resolving? ==> Waiting(a, call.intent) && Queue(a, call.rest)
    ensures call.Resolving? ==> forall s :: s in call.rest ==> s.id != call.intent.id
  {
    if call.Resolving? {
      var all := [call.intent] + call.rest;
      assert Waiting(a, all[0]);
      assert forall i :: 0 <= i < |call.rest| ==> call.rest[i] == all[i + 1];
      forall i | 0 <= i < |call.rest| ensures Waiting(a, call.rest[i]) { assert Waiting(a, all[i + 1]); }
      forall s | s in call.rest ensures s.id != call.intent.id {
        var i :| 0 <= i < |call.rest| && call.rest[i] == s;
        assert all[0].id != all[i + 1].id;
      }
    }
  }

  /** The rest of the queue survives the answer to its head. */
  lemma RestKeeps(a: App, b: App, intent: Intent, rest: seq<Intent>)
    requires SendsOk(a) && intent in a.sends && Queue(a, rest)
    requires forall s :: s in rest ==> s.id != intent.id
    requires b.sends == a.sends && b.pending == a.pending - {intent.id} && b.answers.Keys == a.answers.Keys + {intent.key}
    requires forall k :: k in b.done ==> k in a.done || k == intent.key
    ensures Queue(b, rest)
  {
    forall i | 0 <= i < |rest| ensures Waiting(b, rest[i]) {
      assert Waiting(a, rest[i]) && rest[i] in rest;
    }
  }

  lemma OnlyCall(a: App, c: nat)
    requires Exclusive(a) && c in a.calls
    ensures a.inFlight && a.calls == map[c := a.calls[c]]
  {
  }

  /** Running `done` for a key that was answered ok. */
  lemma DoneKeeps(a: App, key: nat)
    requires Loose(a) && key !in a.done && key in a.answers && a.answers[key] == Applied
    ensures Loose(a.(done := a.done + [key]))
  {
    var b := a.(done := a.done + [key]);
    assert forall i :: 0 <= i < |a.done| ==> a.done[i] in a.done;
    SendsFrame(a, b);
    ServerFrame(a, b);
    forall id ensures PendingOk(b, id) { assert PendingOk(a, id); }
    forall s ensures Remembered(b.(calls := map[]), s) { assert Remembered(a.(calls := map[]), s); }
  }

  lemma ResolveOkKeeps(a: App, c: nat)
    requires Inv(a) && Enabled(a, Reply(c, OK)) && a.calls[c].Resolving?
    ensures Inv(Next(a, Reply(c, OK)))
  {
    var call := a.calls[c];
    var b := Settled(a, call.intent, Applied);
    var b' := b.(done := a.done + [call.intent.key]);
    OnlyCall(a, c);
    CallIntent(a, call);
    SettledKeeps(a, c, Applied);
    DoneKeeps(b, call.intent.key);
    RestKeeps(a, b', call.intent, call.rest);
    ContinueKeeps(b', c, call.rest);
  }

  lemma ReplyIs(a: App, c: nat, r: Result, b: App, call: Call)
    requires Enabled(a, Reply(c, r)) && a.calls == map[c := a.calls[c]]
    requires Next(a, Reply(c, r)) == b.(calls := a.calls[c := call])
    ensures Next(a, Reply(c, r)) == b.(calls := map[c := call])
  {
    assert a.calls[c := call] == map[c := call];
  }

  lemma ResolveRefusedKeeps(a: App, c: nat)
    requires Inv(a) && Enabled(a, Reply(c, Refused(false))) && a.calls[c].Resolving?
    ensures Inv(Next(a, Reply(c, Refused(false))))
  {
    var call := a.calls[c];
    var b := Settled(a, call.intent, Rejected);
    OnlyCall(a, c);
    CallIntent(a, call);
    SettledKeeps(a, c, Rejected);
    RestKeeps(a, b, call.intent, call.rest);
    Suspend(b, c, ResolvePaused(call.rest));
    ReplyIs(a, c, Refused(false), b, ResolvePaused(call.rest));
  }

  lemma ResolveUnsureKeeps(a: App, c: nat, r: Result)
    requires Inv(a) && Enabled(a, Reply(c, r)) && a.calls[c].Resolving? && r != OK && r != Refused(false)
    ensures Inv(Next(a, Reply(c, r)))
  {
    OnlyCall(a, c);
    CallIntent(a, a.calls[c]);
    Loosen(a, c);
    ContinueKeeps(a, c, a.calls[c].rest);
  }

  /** While no `send` is suspended, the invariant does not lean on the suspended call. */
  lemma Loosen(a: App, c: nat)
    requires Inv(a) && c in a.calls && !a.calls[c].Sending?
    ensures Loose(a)
  {
    OnlyCall(a, c);
    forall s ensures Remembered(a.(calls := map[]), s) { assert Remembered(a, s); }
  }

  lemma SendSettledKeeps(a: App, c: nat, r: Result)
    requires Inv(a) && Enabled(a, Reply(c, r)) && a.calls[c].Sending? && (r == OK || r == Refused(false))
    ensures Inv(Next(a, Reply(c, r)))
  {
    var intent := a.calls[c].intent;
    var v := if r == OK then Applied else Rejected;
    var b := Settled(a, intent, v);
    OnlyCall(a, c);
    SettledKeeps(a, c, v);
    Suspend(b, c, Reloading(intent, r == OK));
    ReplyIs(a, c, r, b, Reloading(intent, r == OK));
  }

  lemma SendUnsureKeeps(a: App, c: nat, r: Result)
    requires Inv(a) && Enabled(a, Reply(c, r)) && a.calls[c].Sending? && r != OK && r != Refused(false)
    ensures Inv(Next(a, Reply(c, r)))
  {
    var intent := a.calls[c].intent;
    var keep := r == UNKNOWN || intent.id.Action?;
    var b := if keep then a.(pending := a.pending[intent.id := intent])
      else a.(pending := a.pending - {intent.id}, dropped := a.dropped + {intent.id});
    OnlyCall(a, c);
    UnsureKeeps(a, c, b);
    Suspend(b, c, Reloading(intent, false));
    ReplyIs(a, c, r, b, Reloading(intent, false));
  }

  /** Without a definitive answer the intent stays pending; only an offer may be dropped. */
  ghost predicate UnsureNext(a: App, intent: Intent, b: App) {
    || b == a.(pending := a.pending[intent.id := intent])
    || (intent.id.AcceptOffer? && b == a.(pending := a.pending - {intent.id}, dropped := a.dropped + {intent.id}))
  }

  lemma UnsureSends(a: App, intent: Intent, b: App)
    requires SendsOk(a) && UnsureNext(a, intent, b)
    ensures SendsOk(b)
  {
  }

  lemma UnsurePending(a: App, intent: Intent, b: App, id: IntentId)
    requires Open(a, intent) && UnsureNext(a, intent, b) && PendingOk(a, id)
    ensures PendingOk(b, id)
  {
  }

  lemma UnsureRemembers(a: App, c: nat, b: App, s: Intent)
    requires Exclusive(a) && c in a.calls && a.calls[c].Sending? && UnsureNext(a, a.calls[c].intent, b) && Remembered(a, s)
    requires var intent := a.calls[c].intent; intent.id in a.pending ==> a.pending[intent.id] == intent
    ensures Remembered(b.(calls := map[]), s)
  {
  }

  lemma UnsureKeeps(a: App, c: nat, b: App)
    requires Inv(a) && c in a.calls && a.calls[c].Sending? && UnsureNext(a, a.calls[c].intent, b)
    ensures Loose(b)
  {
    var intent := a.calls[c].intent;
    CallIntent(a, a.calls[c]);
    UnsureSends(a, intent, b);
    ServerFrame(a, b);
    forall id ensures PendingOk(b, id) {
      assert PendingOk(a, id);
      UnsurePending(a, intent, b, id);
    }
    forall s ensures Remembered(b.(calls := map[]), s) {
      assert Remembered(a, s);
      UnsureRemembers(a, c, b, s);
    }
  }

  lemma ResumeKeeps(a: App, c: nat)
    requires Inv(a) && Enabled(a, Resume(c))
    ensures Inv(Next(a, Resume(c)))
  {
    var call := a.calls[c];
    OnlyCall(a, c);
    Loosen(a, c);
    assert a.calls - {c} == map[];
    match call
    case ResolvePaused(rest) => ContinueKeeps(a, c, rest);
    case Reloading(intent, ok) =>
      if ok {
        DoneKeeps(a, intent.key);
        Release(a.(done := a.done + [intent.key]));
      } else {
        Release(a);
      }
  }

  lemma ThrowKeeps(a: App, c: nat)
    requires Inv(a) && Enabled(a, Throw(c))
    ensures Inv(Next(a, Throw(c)))
  {
    OnlyCall(a, c);
    Loosen(a, c);
    assert a.calls - {c} == map[];
    Release(a);
  }

  lemma DoneThrowsKeeps(a: App, c: nat)
    requires Inv(a) && Enabled(a, DoneThrows(c))
    ensures Inv(Next(a, DoneThrows(c)))
  {
    OnlyCall(a, c);
    SettledKeeps(a, c, Applied);
    assert a.calls - {c} == map[];
    Release(Settled(a, a.calls[c].intent, Applied));
  }

  /** What the server does on its own. */
  lemma ServerChanges(a: App, b: App)
    requires Inv(a) && b == a.(server := b.server)
    requires a.server.applied <= b.server.applied && a.server.refused <= b.server.refused
    requires forall k :: k in b.server.applied || k in b.server.refused ==> k < a.nextKey
    ensures Inv(b)
  {
    SendsFrame(a, b);
    forall s ensures Remembered(b, s) { assert Remembered(a, s); }
    forall id ensures PendingOk(b, id) { assert PendingOk(a, id); }
    forall d | d in b.calls ensures CallOk(b, b.calls[d]) { SameCall(a, b, a.calls[d]); }
  }

  lemma HandleJudges(v: Server, i: nat, s: Intent, grant: bool)
    ensures var v' := Handle(v, i, s, grant);
      && v.applied <= v'.applied <= v.applied + {s.key} && v.refused <= v'.refused <= v.refused + {s.key}
  {
  }

  lemma ServeKeeps(a: App, i: nat, grant: bool)
    requires Inv(a) && Enabled(a, Serve(i, grant))
    ensures Inv(Next(a, Serve(i, grant)))
  {
    assert a.sends[i] in a.sends;
    HandleJudges(a.server, i, a.sends[i], grant);
    ServerChanges(a, Next(a, Serve(i, grant)));
  }

  lemma StepKeeps(a: App, step: Step)
    requires Inv(a) && Enabled(a, step)
    ensures Inv(Next(a, step))
  {
    match step
    case Press(_, _, _) => if !a.inFlight { PressKeeps(a, step); }
    case Wake(_, order) => if !a.inFlight && order != [] { WakeKeeps(a, step); }
    case Reply(c, r) =>
      if a.calls[c].Sending? {
        if r == OK || r == Refused(false) { SendSettledKeeps(a, c, r); } else { SendUnsureKeeps(a, c, r); }
      } else if r == OK {
        ResolveOkKeeps(a, c);
      } else if r == Refused(false) {
        ResolveRefusedKeeps(a, c);
      } else {
        ResolveUnsureKeeps(a, c, r);
      }
    case Resume(c) => ResumeKeeps(a, c);
    case Throw(c) => ThrowKeeps(a, c);
    case DoneThrows(c) => DoneThrowsKeeps(a, c);
    case Serve(i, grant) => ServeKeeps(a, i, grant);
    case EndOffer(_) => ServerChanges(a, Next(a, step));
  }

  lemma {:induction false} RunKeeps(a: App, steps: seq<Step>)
    requires Inv(a) && Legal(a, steps)
    ensures Inv(Run(a, steps))
    decreases steps
  {
    if steps != [] {
      StepKeeps(a, steps[0]);
      RunKeeps(Next(a, steps[0]), steps[1..]);
    }
  }
}
