/** The operator app's module-level state and the code that runs between its awaits. */
module OperatorSession {
  import opened Text
  import opened Operator
  import opened OperatorProofs
  import opened OperatorLaws

  /** The module state; `history` is everything that happened to the app and the server. */
  class OperatorApp {
    var pending: map<IntentId, Intent>
    var inFlight: bool
    var nextKey: nat
    var calls: map<nat, Call>
    ghost var sends: seq<Intent>
    ghost var answers: map<nat, Verdict>
    ghost var done: seq<nat>
    ghost var dropped: set<IntentId>
    ghost var server: Server
    ghost var history: seq<Step>

    ghost function State(): (a: App)
      reads this
    {
      App(pending, inFlight, nextKey, calls, server, sends, answers, done, dropped)
    }

    /** The state is what the history of presses, timers, replies and server work led to. */
    ghost predicate Valid()
      reads this
    {
      Legal(START, history) && State() == Run(START, history)
    }

    /** The history grew by exactly this step. */
    ghost predicate Happened(before: seq<Step>, step: Step)
      reads this
    {
      Valid() && history == before + [step]
    }

    constructor ()
      ensures Valid() && State() == START
    {
      history := [];
      pending, inFlight, nextKey, calls := map[], false, 0, map[];
      sends, answers, done, dropped, server := [], map[], [], {}, START.server;
    }

    /** `mutate` and the start of `acceptJob`, up to the await of the reply. */
    method Mutate(c: nat, id: IntentId, request: string) returns (busy: bool)
      requires Valid() && c !in calls
      modifies this
      ensures busy == old(inFlight) && (busy ==> State() == old(State()))
      ensures Happened(old(history), Press(c, id, request))
    {
      RunThen(START, history, Press(c, id, request));
      history := history + [Press(c, id, request)];
      if inFlight {
        return true;
      }
      var intent: Intent;
      if id in pending {
        intent := pending[id];
      } else {
        intent := Intent(id, nextKey, request);
        nextKey := nextKey + 1;
      }
      inFlight := true;
      calls, sends := calls[c := Sending(intent)], sends + [intent];
      return false;
    }

    /** The rest of `send` or `acceptJob` after the reply, up to the await of the reload. */
    method OnSendReply(c: nat, r: Result)
      requires Valid() && c in calls && calls[c].Sending? && Truthful(State(), calls[c].intent.key, r)
      modifies this
      ensures Happened(old(history), Reply(c, r))
    {
      RunThen(START, history, Reply(c, r));
      history := history + [Reply(c, r)];
      var intent := calls[c].intent;
      match r {
        case OK =>
          pending, answers := pending - {intent.id}, answers[intent.key := Applied];
        case UNKNOWN =>
          pending := pending[intent.id := intent];
        case Refused(retryable) =>
          if retryable && intent.id.Action? {
            pending := pending[intent.id := intent];
          } else {
            pending := pending - {intent.id};
            if !retryable {
              answers := answers[intent.key := Rejected];
            } else {
              dropped := dropped + {intent.id};
            }
          }
      }
      calls := calls[c := Reloading(intent, r == OK)];
    }

    /** After the reload: `done` on success, and the lock is released. */
    method Finish(c: nat)
      requires Valid() && c in calls && calls[c].Reloading?
      modifies this
      ensures Happened(old(history), Resume(c))
    {
      RunThen(START, history, Resume(c));
      history := history + [Resume(c)];
      if calls[c].ok {
        done := done + [calls[c].intent.key];
      }
      calls, inFlight := calls - {c}, false;
    }

    /** `resolvePending` up to its first await; `order` is the insertion order of `pending`. */
    method ResolvePending(c: nat, order: seq<IntentId>)
      requires Valid() && c !in calls && Enumerates(order, pending)
      modifies this
      ensures Happened(old(history), Wake(c, order))
      ensures old(inFlight) || order == [] ==> State() == old(State())
      ensures !old(inFlight) && order != [] ==>
        var first, rest := old(pending)[order[0]], Listed(order, old(pending))[1..];
        State() == old(State()).(inFlight := true, calls := old(calls)[c := Resolving(first, rest)], sends := old(sends) + [first])
    {
      RunThen(START, history, Wake(c, order));
      history := history + [Wake(c, order)];
      if inFlight || order == [] {
        return;
      }
      inFlight := true;
      Loop(c, Listed(order, pending));
    }

    /** One turn of its loop: the next resend, or the end of the loop. */
    method Loop(c: nat, rest: seq<Intent>)
      modifies this
      ensures State() == Continue(old(State()), c, rest) && history == old(history)
    {
      if rest == [] {
        calls, inFlight := calls - {c}, false;
      } else {
        calls, sends := calls[c := Resolving(rest[0], rest[1..])], sends + [rest[0]];
      }
    }

    method OnResolveReply(c: nat, r: Result)
      requires Valid() && c in calls && calls[c].Resolving? && Truthful(State(), calls[c].intent.key, r)
      modifies this
      ensures Happened(old(history), Reply(c, r))
    {
      RunThen(START, history, Reply(c, r));
      history := history + [Reply(c, r)];
      var intent, rest := calls[c].intent, calls[c].rest;
      if r == OK {
        pending, answers := pending - {intent.id}, answers[intent.key := Applied];
        done := done + [intent.key];
        Loop(c, rest);
      } else if r == Refused(false) {
        pending, answers := pending - {intent.id}, answers[intent.key := Rejected];
        calls := calls[c := ResolvePaused(rest)];
      } else {
        Loop(c, rest);
      }
    }

    /** The rest of `resolvePending` after `handleError`. */
    method OnErrorHandled(c: nat)
      requires Valid() && c in calls && calls[c].ResolvePaused?
      modifies this
      ensures Happened(old(history), Resume(c))
    {
      RunThen(START, history, Resume(c));
      history := history + [Resume(c)];
      Loop(c, calls[c].rest);
    }

    /** `reload`, `handleError` or `done` threw: the lock is released all the same. */
    method Fail(c: nat)
      requires Valid() && c in calls && (calls[c].Reloading? || calls[c].ResolvePaused?)
      modifies this
      ensures Happened(old(history), Throw(c))
    {
      RunThen(START, history, Throw(c));
      history := history + [Throw(c)];
      calls, inFlight := calls - {c}, false;
    }

    /** The server handles a request that it received. */
    ghost method Served(i: nat, grant: bool)
      requires Valid() && Enabled(State(), Serve(i, grant))
      modifies this
      ensures Happened(old(history), Serve(i, grant))
    {
      RunThen(START, history, Serve(i, grant));
      history := history + [Serve(i, grant)];
      server := Handle(server, i, sends[i], grant);
    }

    /** The law of the object, whatever happened to it. */
    lemma KeepsIntentLaw()
      requires Valid()
      ensures Law(State())
    {
      IntentLaw(history);
    }
  }
}
