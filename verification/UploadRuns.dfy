/**
 * Overlapping runs of one upload intent. Resuming and retrying can have several runs of
 * `runUpload` suspended at once on the same intent; a step is what one of them does between
 * two awaits. The server deduplicates the reservation by its key.
 */
module UploadRuns {
  import opened Text
  import opened Upload

  /** Where a run is suspended; `round` is the turn of its loop. */
  datatype Phase =
    | Reserving
    | PuttingFirst(round: nat)
    | AskingUrl(round: nat)
    | PuttingFresh(round: nat)
    | PutDone(round: nat)          // `putWithFallback` returned ok, the flag is not set yet
    | Finalizing(round: nat, key: nat)
    | Ended(outcome: Outcome)

  /** `puts` and `finalizes` are history: what this run sent. */
  datatype UploadRun = UploadRun(phase: Phase, puts: nat, finalizes: nat)

  datatype Entry =
    | SentReserve(key: nat)
    | GotReserve(reserveReply: ReserveReply)
    | SentPut(run: nat)
    | GotPut(run: nat, putReply: PutReply)
    | SentFinalize(run: nat, objectId: string, key: nat)
    | GotFinalize(run: nat, key: nat, finalizeReply: FinalizeReply)

  /** The intent's fields, the runs on it, and the log of everything sent and answered. */
  datatype Shared = Shared(
    server: string,
    reserveKey: nat,
    objectId: Option<string>,
    upload: Option<Presigned>,
    stored: bool,
    finalizeKey: nat,
    nextKey: nat,
    runs: map<nat, UploadRun>,
    log: seq<Entry>)

  function NewIntent(server: string, key: nat): Shared {
    Shared(server, key, None, None, false, key + 1, key + 2, map[], [])
  }

  datatype Step =
    | Begin(run: nat, good: bool)                              // `good`: the URL in hand is not about to expire
    | OnReserve(run: nat, reserveReply: ReserveReply, good: bool)
    | OnPut(run: nat, putReply: PutReply)
    | OnUrl(run: nat, freshReply: FreshReply)
    | AfterPut(run: nat)
    | OnFinalize(run: nat, finalizeReply: FinalizeReply, good: bool)

  predicate Enabled(s: Shared, step: Step) {
    match step
    case Begin(r, _) => r !in s.runs
    case OnReserve(r, reply, _) => r in s.runs && s.runs[r].phase.Reserving? && (reply.Reserved? ==> reply.objectId == s.server)
    case OnPut(r, _) => r in s.runs && (s.runs[r].phase.PuttingFirst? || s.runs[r].phase.PuttingFresh?)
    case OnUrl(r, _) => r in s.runs && s.runs[r].phase.AskingUrl?
    case AfterPut(r) => r in s.runs && s.runs[r].phase.PutDone?
    case OnFinalize(r, _, _) => r in s.runs && s.runs[r].phase.Finalizing?
  }

  function At(s: Shared, r: nat, phase: Phase): Shared
    requires r in s.runs
  {
    s.(runs := s.runs[r := s.runs[r].(phase := phase)])
  }

  function Logged(s: Shared, e: Entry): Shared {
    s.(log := s.log + [e])
  }

  function SendPut(s: Shared, r: nat, phase: Phase): Shared
    requires r in s.runs
  {
    Logged(s.(runs := s.runs[r := UploadRun(phase, s.runs[r].puts + 1, s.runs[r].finalizes)]), SentPut(r))
  }

  function SendFinalize(s: Shared, r: nat, round: nat): Shared
    requires r in s.runs && s.objectId.Some?
  {
    Logged(s.(runs := s.runs[r := UploadRun(Finalizing(round, s.finalizeKey), s.runs[r].puts, s.runs[r].finalizes + 1)]),
      SentFinalize(r, s.objectId.value, s.finalizeKey))
  }

  /** The top of the loop. */
  function Turn(s: Shared, r: nat, round: nat, good: bool): Shared
    requires r in s.runs
  {
    if round >= 2 then At(s, r, Ended(Failed(UPLOAD_MISSING)))
    else if s.objectId.None? then At(s, r, Ended(Failed(UPLOAD_FAILED)))
    else if s.stored then SendFinalize(s, r, round)
    else if s.upload.Some? && good then SendPut(s, r, PuttingFirst(round))
    else At(s, r, AskingUrl(round))
  }

  function Next(s: Shared, step: Step): Shared
    requires Enabled(s, step)
  {
    match step
    case Begin(r, good) =>
      var s1 := s.(runs := s.runs[r := UploadRun(Reserving, 0, 0)]);
      if s.objectId.None? then Logged(s1, SentReserve(s.reserveKey)) else Turn(s1, r, 0, good)
    case OnReserve(r, reply, good) =>
      var s1 := Logged(s, GotReserve(reply));
      (match reply
       case ReserveUnknown => At(s1, r, Ended(Unknown))
       case ReserveError(retryable, code) => At(s1, r, Ended(if retryable then Unknown else Failed(code)))
       case Reserved(o, upload, status) => Turn(s1.(objectId := Some(o), upload := Some(upload), stored := s.stored || status == AVAILABLE), r, 0, good))
    case OnPut(r, reply) =>
      var s1 := Logged(s, GotPut(r, reply));
      var round := s.runs[r].phase.round;
      if reply == PutOk then At(s1, r, PutDone(round))
      else if s.runs[r].phase.PuttingFirst? then At(s1, r, AskingUrl(round))
      else At(s1, r, Ended(if reply == PutUnknown then Unknown else Failed(UPLOAD_FAILED)))
    case OnUrl(r, reply) =>
      (match reply
       case FreshUnknown => At(s, r, Ended(Unknown))
       case FreshError(retryable) => At(s, r, Ended(if retryable then Unknown else Failed(UPLOAD_FAILED)))
       case FreshUrl(upload) => SendPut(s.(upload := Some(upload)), r, PuttingFresh(s.runs[r].phase.round)))
    case AfterPut(r) =>
      var s1 := s.(stored := true);
      if s.objectId.None? then At(s1, r, Ended(Failed(UPLOAD_FAILED))) else SendFinalize(s1, r, s.runs[r].phase.round)
    case OnFinalize(r, reply, good) =>
      var s1 := Logged(s, GotFinalize(r, s.runs[r].phase.key, reply));
      if SaysMissing(reply) then Turn(s1.(stored := false, finalizeKey := s.nextKey, nextKey := s.nextKey + 1), r, s.runs[r].phase.round + 1, good)
      else At(s1, r, Ended(Answered(reply, s.objectId)))
  }

  /** What a final answer of the server means. */
  function Answered(reply: FinalizeReply, objectId: Option<string>): Outcome {
    match reply
    case FinalizeUnknown => Unknown
    case FinalizeError(retryable, code, _) => if retryable then Unknown else Failed(code)
    case Finalized(status) =>
      if status == AVAILABLE && objectId.Some? then Available(objectId.value) else if status == REJECTED then Upload.Refused else Unknown
  }

  predicate Legal(s: Shared, steps: seq<Step>)
    decreases steps
  {
    steps == [] || (Enabled(s, steps[0]) && Legal(Next(s, steps[0]), steps[1..]))
  }

  function RunAll(s: Shared, steps: seq<Step>): Shared
    requires Legal(s, steps)
    decreases steps
  {
    if steps == [] then s else RunAll(Next(s, steps[0]), steps[1..])
  }

  // ------------------------------------------------------------ what a log says

  predicate Stocks(e: Entry) {
    (e.GotPut? && e.putReply == PutOk) || (e.GotReserve? && e.reserveReply.Reserved? && e.reserveReply.status == AVAILABLE)
  }

  predicate Retires(e: Entry) {
    e.GotFinalize? && SaysMissing(e.finalizeReply)
  }

  /** Some copy was stored, as far as the log can tell. */
  predicate EverStocked(log: seq<Entry>) {
    exists j :: 0 <= j < |log| && Stocks(log[j])
  }

  predicate IsRetired(log: seq<Entry>, key: nat) {
    exists j :: 0 <= j < |log| && Retires(log[j]) && log[j].key == key
  }

  /** May this be sent after that log? */
  predicate MaySend(log: seq<Entry>, e: Entry, reserveKey: nat, server: string) {
    && (e.SentReserve? ==> e.key == reserveKey)
    && (e.SentFinalize? ==> EverStocked(log) && !IsRetired(log, e.key) && e.objectId == server)
  }

  ghost predicate Lawful(log: seq<Entry>, reserveKey: nat, server: string) {
    forall i :: 0 <= i < |log| ==> MaySend(log[..i], log[i], reserveKey, server)
  }

  // ------------------------------------------------------------ the invariant

  /** How much a run may have sent by the phase it is in. */
  predicate Spent(run: UploadRun) {
    match run.phase
    case Reserving => run.puts == 0 && run.finalizes == 0
    case PuttingFirst(k) => k < 2 && run.puts <= 2 * k + 1 && run.finalizes <= k
    case AskingUrl(k) => k < 2 && run.puts <= 2 * k + 1 && run.finalizes <= k
    case PuttingFresh(k) => k < 2 && run.puts <= 2 * k + 2 && run.finalizes <= k
    case PutDone(k) => k < 2 && run.puts <= 2 * k + 2 && run.finalizes <= k
    case Finalizing(k, _) => k < 2 && run.puts <= 2 * k + 2 && run.finalizes <= k + 1
    case Ended(_) => run.puts <= 4 && run.finalizes <= 2
  }

  /** The server told this run that the object is available. */
  predicate ToldAvailable(log: seq<Entry>, r: nat) {
    exists j :: 0 <= j < |log| && log[j].GotFinalize? && log[j].run == r && log[j].finalizeReply == Finalized(AVAILABLE)
  }

  ghost predicate RunOk(s: Shared, r: nat) {
    r in s.runs ==>
      var run := s.runs[r];
      && Spent(run)
      && (run.phase.PutDone? ==> EverStocked(s.log))
      && (!run.phase.Reserving? && !run.phase.Ended? ==> s.objectId.Some?)
      && (run.phase.Finalizing? ==> run.phase.key < s.nextKey)
      && (run.phase.Ended? && run.phase.outcome.Available? ==> ToldAvailable(s.log, r) && run.phase.outcome.objectId == s.server)
  }

  ghost predicate FieldsOk(s: Shared) {
    && (s.objectId.Some? ==> s.objectId.value == s.server)
    && (s.stored ==> EverStocked(s.log))
    && s.finalizeKey < s.nextKey && !IsRetired(s.log, s.finalizeKey)
    && (forall j :: 0 <= j < |s.log| && Retires(s.log[j]) ==> s.log[j].key < s.nextKey)
  }

  ghost predicate Inv(s: Shared) {
    Lawful(s.log, s.reserveKey, s.server) && FieldsOk(s) && forall r :: RunOk(s, r)
  }

  /** More log never unstocks, and unretires nothing. */
  lemma LogGrows(log: seq<Entry>, e: Entry)
    ensures EverStocked(log) ==> EverStocked(log + [e])
    ensures Stocks(e) ==> EverStocked(log + [e])
    ensures forall key :: IsRetired(log + [e], key) <==> IsRetired(log, key) || (Retires(e) && e.key == key)
    ensures forall r :: ToldAvailable(log, r) ==> ToldAvailable(log + [e], r)
  {
    var more := log + [e];
    assert more[|log|] == e;
    if EverStocked(log) {
      var j :| 0 <= j < |log| && Stocks(log[j]);
      assert Stocks(more[j]);
    }
    forall key | IsRetired(log, key) ensures IsRetired(more, key) {
      var j :| 0 <= j < |log| && Retires(log[j]) && log[j].key == key;
      assert Retires(more[j]);
    }
    forall r | ToldAvailable(log, r) ensures ToldAvailable(more, r) {
      var j :| 0 <= j < |log| && log[j].GotFinalize? && log[j].run == r && log[j].finalizeReply == Finalized(AVAILABLE);
      assert more[j] == log[j];
    }
  }

  lemma LawfulGrows(log: seq<Entry>, e: Entry, reserveKey: nat, server: string)
    requires Lawful(log, reserveKey, server) && MaySend(log, e, reserveKey, server)
    ensures Lawful(log + [e], reserveKey, server)
  {
    var more := log + [e];
    forall i | 0 <= i < |more| ensures MaySend(more[..i], more[i], reserveKey, server) {
      if i < |log| {
        assert more[..i] == log[..i] && more[i] == log[i];
      } else {
        assert more[..i] == log;
      }
    }
  }

  /** Writing an allowed entry, and moving one run to a phase that it may be in. */
  lemma Writes(s: Shared, e: Entry)
    requires Inv(s) && MaySend(s.log, e, s.reserveKey, s.server) && !Retires(e)
    ensures Inv(Logged(s, e))
  {
    LogGrows(s.log, e);
    LawfulGrows(s.log, e, s.reserveKey, s.server);
    forall r ensures RunOk(Logged(s, e), r) { assert RunOk(s, r); }
  }

  lemma Moves(s: Shared, s': Shared, r: nat)
    requires Inv(s) && r in s'.runs && s' == s.(runs := s.runs[r := s'.runs[r]]) && RunOk(s', r)
    ensures Inv(s')
  {
    forall q ensures RunOk(s', q) { assert RunOk(s, q); }
  }

  lemma PutKeeps(s: Shared, r: nat, phase: Phase)
    requires Inv(s) && r in s.runs && s.objectId.Some? && Spent(UploadRun(phase, s.runs[r].puts + 1, s.runs[r].finalizes))
    requires phase.PuttingFirst? || phase.PuttingFresh?
    ensures Inv(SendPut(s, r, phase))
  {
    Moves(s, s.(runs := s.runs[r := UploadRun(phase, s.runs[r].puts + 1, s.runs[r].finalizes)]), r);
    Writes(s.(runs := s.runs[r := UploadRun(phase, s.runs[r].puts + 1, s.runs[r].finalizes)]), SentPut(r));
  }

  lemma FinalizeKeeps(s: Shared, r: nat, round: nat)
    requires Inv(s) && r in s.runs && s.objectId.Some? && s.stored
    requires Spent(UploadRun(Finalizing(round, s.finalizeKey), s.runs[r].puts, s.runs[r].finalizes + 1))
    ensures Inv(SendFinalize(s, r, round))
  {
    var s1 := s.(runs := s.runs[r := UploadRun(Finalizing(round, s.finalizeKey), s.runs[r].puts, s.runs[r].finalizes + 1)]);
    Moves(s, s1, r);
    Writes(s1, SentFinalize(r, s.objectId.value, s.finalizeKey));
  }

  lemma TurnKeeps(s: Shared, r: nat, round: nat, good: bool)
    requires Inv(s) && r in s.runs && round <= 2 && s.runs[r].puts <= 2 * round && s.runs[r].finalizes <= round
    ensures Inv(Turn(s, r, round, good))
  {
    if round < 2 && s.objectId.Some? && s.stored {
      FinalizeKeeps(s, r, round);
    } else if round < 2 && s.objectId.Some? && s.upload.Some? && good {
      PutKeeps(s, r, PuttingFirst(round));
    } else {
      Moves(s, Turn(s, r, round, good), r);
    }
  }

  /** Only the URL in hand or a set flag differs. */
  lemma FieldsChange(s: Shared, s': Shared)
    requires Inv(s) && s' == s.(objectId := s'.objectId, upload := s'.upload, stored := s'.stored)
    requires (s.objectId.Some? ==> s'.objectId.Some?) && (s'.objectId.Some? ==> s'.objectId.value == s.server) && (s'.stored ==> EverStocked(s.log))
    ensures Inv(s')
  {
    forall r ensures RunOk(s', r) { assert RunOk(s, r); }
  }

  lemma BeginKeeps(s: Shared, r: nat, good: bool)
    requires Inv(s) && Enabled(s, Begin(r, good))
    ensures Inv(Next(s, Begin(r, good)))
  {
    var s1 := s.(runs := s.runs[r := UploadRun(Reserving, 0, 0)]);
    Moves(s, s1, r);
    if s.objectId.None? {
      Writes(s1, SentReserve(s.reserveKey));
    } else {
      TurnKeeps(s1, r, 0, good);
    }
  }

  lemma ReserveKeeps(s: Shared, step: Step)
    requires Inv(s) && Enabled(s, step) && step.OnReserve?
    ensures Inv(Next(s, step))
  {
    var s1 := Logged(s, GotReserve(step.reserveReply));
    assert RunOk(s, step.run);
    Writes(s, GotReserve(step.reserveReply));
    LogGrows(s.log, GotReserve(step.reserveReply));
    match step.reserveReply
    case Reserved(o, upload, status) =>
      var s2 := s1.(objectId := Some(o), upload := Some(upload), stored := s.stored || status == AVAILABLE);
      FieldsChange(s1, s2);
      TurnKeeps(s2, step.run, 0, step.good);
    case _ => Moves(s1, Next(s, step), step.run);
  }

  lemma PutReplyKeeps(s: Shared, step: Step)
    requires Inv(s) && Enabled(s, step) && step.OnPut?
    ensures Inv(Next(s, step))
  {
    assert RunOk(s, step.run);
    Writes(s, GotPut(step.run, step.putReply));
    LogGrows(s.log, GotPut(step.run, step.putReply));
    Moves(Logged(s, GotPut(step.run, step.putReply)), Next(s, step), step.run);
  }

  lemma UrlKeeps(s: Shared, step: Step)
    requires Inv(s) && Enabled(s, step) && step.OnUrl?
    ensures Inv(Next(s, step))
  {
    assert RunOk(s, step.run);
    match step.freshReply
    case FreshUrl(upload) =>
      FieldsChange(s, s.(upload := Some(upload)));
      PutKeeps(s.(upload := Some(upload)), step.run, PuttingFresh(s.runs[step.run].phase.round));
    case _ => Moves(s, Next(s, step), step.run);
  }

  lemma AfterPutKeeps(s: Shared, step: Step)
    requires Inv(s) && Enabled(s, step) && step.AfterPut?
    ensures Inv(Next(s, step))
  {
    assert RunOk(s, step.run);
    FieldsChange(s, s.(stored := true));
    FinalizeKeeps(s.(stored := true), step.run, s.runs[step.run].phase.round);
  }

  /** UPLOAD_MISSING: the key is retired, a new one takes its place, the flag is cleared. */
  lemma MissingKeeps(s: Shared, r: nat, reply: FinalizeReply)
    requires Inv(s) && r in s.runs && s.runs[r].phase.Finalizing? && SaysMissing(reply)
    ensures var s1 := Logged(s, GotFinalize(r, s.runs[r].phase.key, reply));
      Inv(s1.(stored := false, finalizeKey := s.nextKey, nextKey := s.nextKey + 1))
  {
    var e := GotFinalize(r, s.runs[r].phase.key, reply);
    var s1 := Logged(s, e);
    var s2 := s1.(stored := false, finalizeKey := s.nextKey, nextKey := s.nextKey + 1);
    assert RunOk(s, r);
    LogGrows(s.log, e);
    LawfulGrows(s.log, e, s.reserveKey, s.server);
    forall q ensures RunOk(s2, q) { assert RunOk(s, q); }
    forall j | 0 <= j < |s2.log| && Retires(s2.log[j]) ensures s2.log[j].key < s.nextKey {
      if j < |s.log| { assert s2.log[j] == s.log[j]; }
    }
  }

  lemma FinalizeReplyKeeps(s: Shared, step: Step)
    requires Inv(s) && Enabled(s, step) && step.OnFinalize?
    ensures Inv(Next(s, step))
  {
    var r := step.run;
    var e := GotFinalize(r, s.runs[r].phase.key, step.finalizeReply);
    var s1 := Logged(s, e);
    assert RunOk(s, r);
    if SaysMissing(step.finalizeReply) {
      MissingKeeps(s, r, step.finalizeReply);
      TurnKeeps(s1.(stored := false, finalizeKey := s.nextKey, nextKey := s.nextKey + 1), r, s.runs[r].phase.round + 1, step.good);
    } else {
      Writes(s, e);
      assert s1.log[|s.log|] == e;
      Moves(s1, Next(s, step), r);
    }
  }

  lemma StepKeeps(s: Shared, step: Step)
    requires Inv(s) && Enabled(s, step)
    ensures Inv(Next(s, step)) && Next(s, step).reserveKey == s.reserveKey && Next(s, step).server == s.server
  {
    match step
    case Begin(r, good) => BeginKeeps(s, r, good);
    case OnReserve(_, _, _) => ReserveKeeps(s, step);
    case OnPut(_, _) => PutReplyKeeps(s, step);
    case OnUrl(_, _) => UrlKeeps(s, step);
    case AfterPut(_) => AfterPutKeeps(s, step);
    case OnFinalize(_, _, _) => FinalizeReplyKeeps(s, step);
  }

  lemma {:induction false} RunKeeps(s: Shared, steps: seq<Step>)
    requires Inv(s) && Legal(s, steps)
    ensures Inv(RunAll(s, steps)) && RunAll(s, steps).reserveKey == s.reserveKey && RunAll(s, steps).server == s.server
    decreases steps
  {
    if steps != [] {
      StepKeeps(s, steps[0]);
      RunKeeps(Next(s, steps[0]), steps[1..]);
    }
  }

  /**
   * Over every interleaving of any number of runs of one intent: every reservation carries
   * the one key; every finalize names the one object, follows a stored copy and carries a
   * key that was not answered UPLOAD_MISSING before; a run reports available only if the
   * server told it so; and no run sends more than 2 finalizes and 4 PUTs.
   */
  lemma OverlappingRunsLaw(server: string, key: nat, steps: seq<Step>)
    requires Legal(NewIntent(server, key), steps)
    ensures
      var s := RunAll(NewIntent(server, key), steps);
      && (forall i :: 0 <= i < |s.log| ==> MaySend(s.log[..i], s.log[i], key, server))
      && (forall r :: r in s.runs ==> s.runs[r].finalizes <= 2 && s.runs[r].puts <= 4)
      && (forall r :: r in s.runs && s.runs[r].phase.Ended? && s.runs[r].phase.outcome.Available? ==>
            ToldAvailable(s.log, r) && s.runs[r].phase.outcome.objectId == server)
  {
    var s0 := NewIntent(server, key);
    forall r ensures RunOk(s0, r) {}
    RunKeeps(s0, steps);
    var s := RunAll(s0, steps);
    forall r | r in s.runs
      ensures s.runs[r].finalizes <= 2 && s.runs[r].puts <= 4
      ensures s.runs[r].phase.Ended? && s.runs[r].phase.outcome.Available? ==> ToldAvailable(s.log, r) && s.runs[r].phase.outcome.objectId == server
    {
      assert RunOk(s, r);
    }
  }

  // ------------------------------------------------------------ how a run ends

  /** The exchange whose answer a step takes in. */
  function ExchangeOf(s: Shared, step: Step): Option<Event>
    requires Enabled(s, step)
  {
    match step
    case OnReserve(_, reply, _) => Some(Reserve(s.reserveKey, reply))
    case OnPut(_, reply) => Some(Put("", reply))
    case OnUrl(_, reply) => Some(FreshUploadUrl(s.server, reply))
    case OnFinalize(r, reply, _) => Some(Finalize(s.server, s.runs[r].phase.key, reply))
    case _ => None
  }

  /** A failure that the run still has an answer to: of its first PUT, or the first UPLOAD_MISSING. */
  predicate Recovers(s: Shared, step: Step)
    requires Enabled(s, step)
  {
    || (step.OnPut? && s.runs[step.run].phase.PuttingFirst?)
    || (step.OnFinalize? && SaysMissing(step.finalizeReply) && s.runs[step.run].phase.round == 0)
  }

  /**
   * However its siblings interfere, a run ends exactly as one that runs alone: when an answer
   * ends it, with the outcome that answer stands for; and no run moves another one.
   */
  lemma StepEnds(s: Shared, step: Step)
    requires Inv(s) && Enabled(s, step)
    ensures
      var s' := Next(s, step);
      && step.run in s'.runs
      && (s'.runs[step.run].phase.Ended? <==> ExchangeOf(s, step).Some? && Ending(ExchangeOf(s, step).value).Some? && !Recovers(s, step))
      && (s'.runs[step.run].phase.Ended? ==> Ending(ExchangeOf(s, step).value) == Some(s'.runs[step.run].phase.outcome))
      && forall r :: r in s.runs && r != step.run ==> r in s'.runs && s'.runs[r] == s.runs[r]
  {
    assert RunOk(s, step.run);
  }
}
