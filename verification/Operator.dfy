/**
 * The operator app's mutation intents: module-level state updated between awaits, against
 * a server that records each applied idempotency key and knows the state of its offers. A
 * step is what runs between two awaits.
 */
module Operator {
  import opened Text

  /** Accepting an offer has its own code path; every other action runs through `mutate`. */
  datatype IntentId = Action(name: string) | AcceptOffer(offer: string)

  datatype Intent = Intent(id: IntentId, key: nat, request: string)

  /** `Refused(true)` is a retryable refusal, `Refused(false)` a definitive one. */
  datatype Result = OK | UNKNOWN | Refused(retryable: bool)

  /** An async call in progress, by the await it is suspended at. */
  datatype Call =
    | Sending(intent: Intent)                              // send / acceptJob: awaiting the reply
    | Reloading(intent: Intent, ok: bool)                  // after the reply: awaiting reload or handleError
    | Resolving(intent: Intent, rest: seq<Intent>)         // resolvePending: awaiting the reply of one resend
    | ResolvePaused(rest: seq<Intent>)                     // resolvePending: awaiting handleError

  /** A definitive answer, as the app was told. */
  datatype Verdict = Applied | Rejected

  /**
   * An offer to the technician: open, accepted with the job still theirs, or anything else
   * (declined, expired, withdrawn), which is final.
   */
  datatype OfferState = Live | Held | Over

  /**
   * `applied` are the recorded keys; a refusal is not recorded, so a later request of the
   * same key is judged anew. `effects` are the effects in order. `refused` and `handled`
   * are history: the keys refused at least once, and whether each request was granted.
   */
  datatype Server = Server(
    applied: set<nat>,
    offers: map<string, OfferState>,
    effects: seq<Intent>,
    refused: set<nat>,
    handled: map<nat, bool>)

  /**
   * `pending`, `inFlight` and `nextKey` are the app's; `calls` are its suspended calls.
   * `sends`, `answers`, `done` and `dropped` are history: every request sent, every
   * definitive answer received, every run of an intent's `done`, and the intents that were
   * forgotten without a definitive answer.
   */
  datatype App = App(
    pending: map<IntentId, Intent>,
    inFlight: bool,
    nextKey: nat,
    calls: map<nat, Call>,
    server: Server,
    sends: seq<Intent>,
    answers: map<nat, Verdict>,
    done: seq<nat>,
    dropped: set<IntentId>)

  const START := App(map[], false, 0, map[], Server({}, map[], [], {}, map[]), [], map[], [], {})

  datatype Step =
    | Press(call: nat, id: IntentId, request: string)      // mutate, or acceptJob for an offer
    | Wake(call: nat, order: seq<IntentId>)                // timer, online, visibility: resolvePending
    | Reply(call: nat, result: Result)
    | Resume(call: nat)                                    // reload or handleError finished
    | Throw(call: nat)                                     // reload, handleError or `done` threw
    | DoneThrows(call: nat)                                // `done` threw inside resolvePending's loop
    | Serve(i: nat, grant: bool)                           // the server handles a request it received
    | EndOffer(offer: string)                              // an offer expires or is withdrawn

  function OfferOf(v: Server, offer: string): OfferState {
    if offer in v.offers then v.offers[offer] else Live
  }

  /** May the request succeed at all? An offer that is over can never be accepted. */
  predicate Grants(v: Server, s: Intent, grant: bool) {
    grant && (s.id.AcceptOffer? ==> OfferOf(v, s.id.offer) != Over)
  }

  /**
   * The server handles request `i`: a recorded key is replayed, a refusal changes nothing
   * that is recorded, and accepting the offer one already holds is a success without effect.
   */
  function Handle(v: Server, i: nat, s: Intent, grant: bool): Server {
    if s.key in v.applied then v.(handled := v.handled[i := true])
    else if !Grants(v, s, grant) then v.(handled := v.handled[i := false], refused := v.refused + {s.key})
    else
      var v' := v.(handled := v.handled[i := true], applied := v.applied + {s.key});
      if s.id.Action? then v'.(effects := v.effects + [s])
      else if OfferOf(v, s.id.offer) == Held then v'
      else v'.(effects := v.effects + [s], offers := v.offers[s.id.offer := Held])
  }

  /** Success is answered only for a recorded key, a definitive refusal only where the server refused. */
  predicate Truthful(a: App, key: nat, r: Result) {
    && (r == OK ==> key in a.server.applied)
    && (r == Refused(false) ==> key in a.server.refused)
  }

  predicate Enumerates(order: seq<IntentId>, pending: map<IntentId, Intent>) {
    && (forall i, j :: 0 <= i < j < |order| ==> order[i] != order[j])
    && (forall i :: 0 <= i < |order| ==> order[i] in pending)
    && (forall id :: id in pending ==> id in order)
  }

  /** The snapshot of `pending` that the loop of `resolvePending` runs over. */
  function Listed(order: seq<IntentId>, pending: map<IntentId, Intent>): seq<Intent>
    requires Enumerates(order, pending)
  {
    seq(|order|, i requires 0 <= i < |order| => pending[order[i]])
  }

  predicate Enabled(a: App, step: Step) {
    match step
    case Press(c, _, _) => c !in a.calls
    case Wake(c, order) => c !in a.calls && Enumerates(order, a.pending)
    case Reply(c, r) => c in a.calls && (a.calls[c].Sending? || a.calls[c].Resolving?) && Truthful(a, a.calls[c].intent.key, r)
    case Resume(c) => c in a.calls && (a.calls[c].Reloading? || a.calls[c].ResolvePaused?)
    case Throw(c) => c in a.calls && (a.calls[c].Reloading? || a.calls[c].ResolvePaused?)
    case DoneThrows(c) => c in a.calls && a.calls[c].Resolving? && Truthful(a, a.calls[c].intent.key, OK)
    case Serve(i, _) => i < |a.sends| && i !in a.server.handled
    case EndOffer(_) => true
  }

  /** The loop of `resolvePending`: resend the next intent, or release the flag. */
  function Continue(a: App, c: nat, rest: seq<Intent>): App {
    if rest == [] then Released(a, c)
    else a.(calls := a.calls[c := Resolving(rest[0], rest[1..])], sends := a.sends + [rest[0]])
  }

  /** `finally`: the call is over and the flag is released. */
  function Released(a: App, c: nat): App {
    a.(calls := a.calls - {c}, inFlight := false)
  }

  function Settled(a: App, intent: Intent, v: Verdict): App {
    a.(pending := a.pending - {intent.id}, answers := a.answers[intent.key := v])
  }

  function OnReply(a: App, c: nat, r: Result): App
    requires c in a.calls && (a.calls[c].Sending? || a.calls[c].Resolving?)
  {
    var intent := a.calls[c].intent;
    if a.calls[c].Sending? then
      if r == OK then Settled(a, intent, Applied).(calls := a.calls[c := Reloading(intent, true)])
      else if r == UNKNOWN || (r == Refused(true) && intent.id.Action?) then
        a.(pending := a.pending[intent.id := intent], calls := a.calls[c := Reloading(intent, false)])
      else if r == Refused(false) then Settled(a, intent, Rejected).(calls := a.calls[c := Reloading(intent, false)])
      else // acceptJob forgets the intent
        a.(pending := a.pending - {intent.id}, calls := a.calls[c := Reloading(intent, false)], dropped := a.dropped + {intent.id})
    else
      var rest := a.calls[c].rest;
      if r == OK then Continue(Settled(a, intent, Applied).(done := a.done + [intent.key]), c, rest)
      else if r == Refused(false) then Settled(a, intent, Rejected).(calls := a.calls[c := ResolvePaused(rest)])
      else Continue(a, c, rest)
  }

  function Next(a: App, step: Step): App
    requires Enabled(a, step)
  {
    match step
    case Press(c, id, request) =>
      if a.inFlight then a
      else
        var fresh' := id !in a.pending;
        var intent := if fresh' then Intent(id, a.nextKey, request) else a.pending[id];
        a.(inFlight := true, nextKey := if fresh' then a.nextKey + 1 else a.nextKey,
           calls := a.calls[c := Sending(intent)], sends := a.sends + [intent])
    case Wake(c, order) =>
      if a.inFlight || order == [] then a
      else
        Continue(a.(inFlight := true), c, Listed(order, a.pending))
    case Reply(c, r) => OnReply(a, c, r)
    case Resume(c) =>
      (match a.calls[c]
       case Reloading(intent, ok) =>
         Released(a.(done := if ok then a.done + [intent.key] else a.done), c)
       case ResolvePaused(rest) => Continue(a, c, rest)
       case _ => a)
    case Throw(c) => Released(a, c)
    case DoneThrows(c) => Released(Settled(a, a.calls[c].intent, Applied), c)
    case Serve(i, grant) => a.(server := Handle(a.server, i, a.sends[i], grant))
    case EndOffer(offer) => a.(server := a.server.(offers := a.server.offers[offer := Over]))
  }

  predicate Legal(a: App, steps: seq<Step>)
    decreases steps
  {
    steps == [] || (Enabled(a, steps[0]) && Legal(Next(a, steps[0]), steps[1..]))
  }

  function Run(a: App, steps: seq<Step>): App
    requires Legal(a, steps)
    decreases steps
  {
    if steps == [] then a else Run(Next(a, steps[0]), steps[1..])
  }

  // ------------------------------------------------------------ the invariant

  /** An intent without a definitive answer that the app still knows. */
  ghost predicate Open(a: App, intent: Intent) {
    intent in a.sends && intent.key !in a.answers && intent.key !in a.done
  }

  ghost predicate Waiting(a: App, intent: Intent) {
    Open(a, intent) && intent.id in a.pending && a.pending[intent.id] == intent
  }

  /** What the loop of `resolvePending` still has to resend. */
  ghost predicate Queue(a: App, intents: seq<Intent>) {
    && (forall i :: 0 <= i < |intents| ==> Waiting(a, intents[i]))
    && (forall i, j :: 0 <= i < j < |intents| ==> intents[i].id != intents[j].id)
  }

  ghost predicate CallOk(a: App, call: Call) {
    match call
    case Sending(intent) => Open(a, intent) && (intent.id in a.pending ==> a.pending[intent.id] == intent)
    case Reloading(intent, true) => intent.key in a.answers && a.answers[intent.key] == Applied && intent.key !in a.done
    case Reloading(intent, false) => true
    case Resolving(intent, rest) => Queue(a, [intent] + rest)
    case ResolvePaused(rest) => Queue(a, rest)
  }

  ghost predicate PendingOk(a: App, id: IntentId) {
    id in a.pending ==> a.pending[id].id == id && Open(a, a.pending[id])
  }

  /** An intent sent without a definitive answer, and not dropped, is pending, or awaited by its own call. */
  ghost predicate Remembered(a: App, s: Intent) {
    s in a.sends && s.id !in a.dropped && s.key !in a.answers ==>
      (s.id in a.pending && a.pending[s.id] == s) || (exists c :: c in a.calls && a.calls[c] == Sending(s))
  }

  ghost predicate SendsOk(a: App) {
    && (forall s :: s in a.sends ==> s.key < a.nextKey)
    && (forall s, t :: s in a.sends && t in a.sends && s.key == t.key ==> s == t)
    && (forall id :: id in a.dropped ==> id.AcceptOffer?)
    && (forall s, t :: s in a.sends && t in a.sends && s.id == t.id && s.id !in a.dropped && s.key < t.key ==> s.key in a.answers)
  }

  ghost predicate ServerOk(a: App) {
    && (forall k :: k in a.server.applied || k in a.server.refused ==> k < a.nextKey)
    && (forall k :: k in a.answers ==> if a.answers[k] == Applied then k in a.server.applied else k in a.server.refused)
  }

  ghost predicate DoneOk(a: App) {
    && (forall i :: 0 <= i < |a.done| ==> a.done[i] in a.answers && a.answers[a.done[i]] == Applied)
    && (forall i, j :: 0 <= i < j < |a.done| ==> a.done[i] != a.done[j])
  }

  /** The flag is a lock: at most one call is suspended, and only while the flag is set. */
  ghost predicate Exclusive(a: App) {
    && (forall c :: c in a.calls ==> a.inFlight)
    && (forall c, d :: c in a.calls && d in a.calls ==> c == d)
  }

  ghost predicate Inv(a: App) {
    && Exclusive(a) && SendsOk(a) && ServerOk(a) && DoneOk(a)
    && (forall c :: c in a.calls ==> CallOk(a, a.calls[c]))
    && (forall id :: PendingOk(a, id))
    && (forall s :: Remembered(a, s))
  }

  // ------------------------------------------------------------ what the server's history shows

  /** The effect that a granted request stands for: its own, or the acceptance of the offer it names. */
  ghost predicate HasEffect(v: Server, s: Intent) {
    exists e :: e in v.effects && e.id == s.id && (s.id.Action? ==> e == s)
  }

  ghost predicate HandledOk(a: App, i: nat) {
    i in a.server.handled ==>
      && i < |a.sends|
      && (a.server.handled[i] ==> a.sends[i].key in a.server.applied && HasEffect(a.server, a.sends[i]))
      && (!a.server.handled[i] ==> a.sends[i].key in a.server.refused)
  }

  /** Some request of this key was granted, or was refused. */
  ghost predicate HandledAs(a: App, key: nat, granted: bool) {
    exists i :: i in a.server.handled && a.server.handled[i] == granted && i < |a.sends| && a.sends[i].key == key
  }

  ghost predicate EffectOk(a: App, i: nat) {
    i < |a.server.effects| ==>
      var e := a.server.effects[i];
      && e in a.sends && e.key in a.server.applied
      && (e.id.AcceptOffer? ==> OfferOf(a.server, e.id.offer) != Live)
  }

  /** Each key has at most one effect, and so has each offer. */
  ghost predicate EffectsApart(effects: seq<Intent>) {
    forall i, j :: 0 <= i < j < |effects| ==>
      effects[i].key != effects[j].key && (effects[i].id.AcceptOffer? ==> effects[i].id != effects[j].id)
  }

  ghost predicate OfferOk(v: Server, offer: string) {
    OfferOf(v, offer) == Held ==> exists e :: e in v.effects && e.id == AcceptOffer(offer)
  }

  ghost predicate History(a: App) {
    && (forall i :: HandledOk(a, i))
    && (forall k :: k in a.server.applied ==> HandledAs(a, k, true))
    && (forall k :: k in a.server.refused ==> HandledAs(a, k, false))
    && (forall i :: EffectOk(a, i))
    && EffectsApart(a.server.effects)
    && (forall offer :: OfferOk(a.server, offer))
  }
}
