/** The operator's resumable evidence upload: reserve, PUT, finalize, against an unreliable server. */
module Upload {
  import opened Text

  datatype MediaStatus = AVAILABLE | REJECTED | PROCESSING
  datatype Presigned = Presigned(url: string)

  datatype ReserveReply = ReserveUnknown | ReserveError(retryable: bool, code: string) | Reserved(objectId: string, upload: Presigned, status: MediaStatus)
  datatype FreshReply = FreshUnknown | FreshError(retryable: bool) | FreshUrl(upload: Presigned)
  datatype PutReply = PutOk | PutFailed | PutUnknown
  datatype FinalizeReply = FinalizeUnknown | FinalizeError(retryable: bool, code: string, reason: string) | Finalized(status: MediaStatus)

  const UPLOAD_MISSING := "UPLOAD_MISSING"

  predicate SaysMissing(r: FinalizeReply) {
    r.FinalizeError? && (r.code == UPLOAD_MISSING || r.reason == UPLOAD_MISSING)
  }

  /** One exchange with the server or the object store, oldest first in an intent's log. */
  datatype Event =
    | Reserve(key: nat, reserveReply: ReserveReply)
    | FreshUploadUrl(objectId: string, freshReply: FreshReply)
    | Put(url: string, putReply: PutReply)
    | Finalize(objectId: string, key: nat, finalizeReply: FinalizeReply)

  datatype Outcome = Available(objectId: string) | Refused | Failed(code: string) | Unknown

  const UPLOAD_FAILED := "UPLOAD_FAILED"

  /**
   * What a run comes to whose last exchange this is. After a reservation, a fresh URL or a
   * PUT that succeeded no run ends.
   */
  function Ending(e: Event): Option<Outcome> {
    match e
    case Reserve(_, ReserveUnknown) => Some(Unknown)
    case Reserve(_, ReserveError(retryable, code)) => Some(if retryable then Unknown else Failed(code))
    case FreshUploadUrl(_, FreshUnknown) => Some(Unknown)
    case FreshUploadUrl(_, FreshError(retryable)) => Some(if retryable then Unknown else Failed(UPLOAD_FAILED))
    case Put(_, PutUnknown) => Some(Unknown)
    case Put(_, PutFailed) => Some(Failed(UPLOAD_FAILED))
    case Finalize(o, _, Finalized(AVAILABLE)) => Some(Available(o))
    case Finalize(_, _, Finalized(REJECTED)) => Some(Refused)
    case Finalize(_, _, FinalizeError(retryable, code, reason)) =>
      Some(if code == UPLOAD_MISSING || reason == UPLOAD_MISSING then Failed(UPLOAD_MISSING) else if retryable then Unknown else Failed(code))
    case Finalize(_, _, _) => Some(Unknown)
    case _ => None
  }

  /** The exchanges since `before` end in `r`; a PUT that ended them was made on a fresh URL. */
  ghost predicate EndsIn(before: seq<Event>, log: seq<Event>, r: Outcome) {
    && before <= log && |before| < |log| && Ending(log[|log| - 1]) == Some(r)
    && (log[|log| - 1].Put? ==> |before| + 1 < |log| && log[|log| - 2].FreshUploadUrl? && log[|log| - 2].freshReply == FreshUrl(Presigned(log[|log| - 1].url)))
  }

  /** The first exchange of storing: a PUT on the URL in hand, or else a fresh URL. */
  predicate StartsWith(e: Event, inHand: Option<Presigned>) {
    if inHand.Some? then e.Put? && e.url == inHand.value.url else e.FreshUploadUrl?
  }

  // ------------------------------------------------------------ what a log says

  predicate Stores(e: Event) {
    (e.Put? && e.putReply == PutOk) || (e.Reserve? && e.reserveReply.Reserved? && e.reserveReply.status == AVAILABLE)
  }

  predicate Misses(e: Event) {
    e.Finalize? && SaysMissing(e.finalizeReply)
  }

  /** The bytes are on the server as far as the log can tell. */
  predicate Stocked(log: seq<Event>) {
    log != [] && (Stores(log[|log| - 1]) || (!Misses(log[|log| - 1]) && Stocked(log[..|log| - 1])))
  }

  /** The reservation in force. */
  function ObjectOf(log: seq<Event>): Option<string> {
    if log == [] then None
    else if log[|log| - 1].Reserve? && log[|log| - 1].reserveReply.Reserved? then Some(log[|log| - 1].reserveReply.objectId)
    else ObjectOf(log[..|log| - 1])
  }

  /** Finalize keys the server answered with UPLOAD_MISSING. */
  function Retired(log: seq<Event>): set<nat> {
    if log == [] then {}
    else Retired(log[..|log| - 1]) + (if Misses(log[|log| - 1]) then {log[|log| - 1].key} else {})
  }

  /** May the client make this exchange after `log`? */
  predicate Allowed(log: seq<Event>, e: Event, reserveKey: nat) {
    match e
    case Reserve(key, _) => key == reserveKey && ObjectOf(log).None?
    case FreshUploadUrl(o, _) => ObjectOf(log) == Some(o)
    case Put(_, _) => ObjectOf(log).Some?
    case Finalize(o, key, _) => ObjectOf(log) == Some(o) && Stocked(log) && key !in Retired(log)
  }

  predicate Protocol(log: seq<Event>, reserveKey: nat) {
    log == [] || (Protocol(log[..|log| - 1], reserveKey) && Allowed(log[..|log| - 1], log[|log| - 1], reserveKey))
  }

  // ------------------------------------------------------------ the protocol law, by position

  lemma {:induction false} ProtocolAt(log: seq<Event>, reserveKey: nat, i: nat)
    requires Protocol(log, reserveKey) && i < |log|
    ensures Allowed(log[..i], log[i], reserveKey)
    decreases |log|
  {
    if i < |log| - 1 {
      ProtocolAt(log[..|log| - 1], reserveKey, i);
      assert log[..|log| - 1][..i] == log[..i];
    }
  }

  lemma {:induction false} StockedHasStore(log: seq<Event>) returns (j: nat)
    requires Stocked(log)
    ensures j < |log| && Stores(log[j]) && forall k :: j < k < |log| ==> !Misses(log[k])
    decreases |log|
  {
    if Stores(log[|log| - 1]) {
      j := |log| - 1;
    } else {
      j := StockedHasStore(log[..|log| - 1]);
    }
  }

  lemma {:induction false} MissRetires(log: seq<Event>, i: nat)
    requires i < |log| && Misses(log[i])
    ensures log[i].key in Retired(log)
    decreases |log|
  {
    if i < |log| - 1 { MissRetires(log[..|log| - 1], i); }
  }

  lemma {:induction false} ReservationStands(log: seq<Event>, reserveKey: nat, i: nat)
    requires Protocol(log, reserveKey) && i < |log| && log[i].Reserve? && log[i].reserveReply.Reserved?
    ensures ObjectOf(log) == Some(log[i].reserveReply.objectId)
    decreases |log|
  {
    if i < |log| - 1 { ReservationStands(log[..|log| - 1], reserveKey, i); }
  }

  /**
   * Every finalize was preceded by a stored copy, with no UPLOAD_MISSING in between; it
   * names the one reserved object, and never a key that was answered UPLOAD_MISSING. All
   * reservations carry the same key and at most one of them succeeded.
   */
  lemma UploadLaw(log: seq<Event>, reserveKey: nat, i: nat)
    requires Protocol(log, reserveKey) && i < |log|
    ensures log[i].Finalize? ==>
      && (exists j :: 0 <= j < i && Stores(log[j]) && forall k :: j < k < i ==> !Misses(log[k]))
      && (forall j :: 0 <= j < i && Misses(log[j]) ==> log[j].key != log[i].key)
      && ObjectOf(log) == Some(log[i].objectId)
    ensures log[i].Reserve? ==> log[i].key == reserveKey
    ensures log[i].Reserve? ==> forall j :: 0 <= j < i && log[j].Reserve? ==> !log[j].reserveReply.Reserved?
  {
    ProtocolAt(log, reserveKey, i);
    ProtocolPrefix(log, reserveKey, i);
    if log[i].Finalize? {
      var j := StockedHasStore(log[..i]);
      assert Stores(log[j]) && forall k :: j < k < i ==> log[..i][k] == log[k];
      forall j | 0 <= j < i && Misses(log[j]) ensures log[j].key != log[i].key {
        MissRetires(log[..i], j);
      }
      ObjectKept(log, reserveKey, i);
    }
    if log[i].Reserve? {
      forall j | 0 <= j < i && log[j].Reserve? ensures !log[j].reserveReply.Reserved? {
        if log[j].reserveReply.Reserved? {
          ReservationStands(log[..i], reserveKey, j);
          assert false;
        }
      }
    }
  }

  lemma {:induction false} ProtocolPrefix(log: seq<Event>, reserveKey: nat, i: nat)
    requires Protocol(log, reserveKey) && i <= |log|
    ensures Protocol(log[..i], reserveKey)
    decreases |log|
  {
    if i == |log| {
      assert log[..i] == log;
    } else {
      ProtocolPrefix(log[..|log| - 1], reserveKey, i);
      assert log[..|log| - 1][..i] == log[..i];
    }
  }

  lemma {:induction false} ObjectKept(log: seq<Event>, reserveKey: nat, i: nat)
    requires Protocol(log, reserveKey) && i <= |log| && ObjectOf(log[..i]).Some?
    ensures ObjectOf(log) == ObjectOf(log[..i])
    decreases |log|
  {
    if i == |log| {
      assert log[..i] == log;
    } else {
      assert log[..|log| - 1][..i] == log[..i];
      ObjectKept(log[..|log| - 1], reserveKey, i);
    }
  }

  // ------------------------------------------------------------ the intent

  /** What the client has to know of its log. */
  datatype Digest = Digest(legal: bool, reserved: Option<string>, stocked: bool, retired: set<nat>, finalizes: nat, puts: nat)

  function Summary(log: seq<Event>, reserveKey: nat): Digest {
    if log == [] then Digest(true, None, false, {}, 0, 0)
    else Extended(Summary(log[..|log| - 1], reserveKey), log[|log| - 1], reserveKey)
  }

  function Extended(d: Digest, e: Event, reserveKey: nat): Digest {
    var legal := match e
      case Reserve(key, _) => key == reserveKey && d.reserved.None?
      case FreshUploadUrl(o, _) => d.reserved == Some(o)
      case Put(_, _) => d.reserved.Some?
      case Finalize(o, key, _) => d.reserved == Some(o) && d.stocked && key !in d.retired;
    Digest(d.legal && legal,
           if e.Reserve? && e.reserveReply.Reserved? then Some(e.reserveReply.objectId) else d.reserved,
           Stores(e) || (!Misses(e) && d.stocked),
           if Misses(e) then d.retired + {e.key} else d.retired,
           d.finalizes + (if e.Finalize? then 1 else 0),
           d.puts + (if e.Put? then 1 else 0))
  }

  /** A legal digest is a protocol log. */
  lemma {:induction false} LegalIsProtocol(log: seq<Event>, reserveKey: nat)
    ensures var d := Summary(log, reserveKey);
      && d.reserved == ObjectOf(log) && d.stocked == Stocked(log) && d.retired == Retired(log)
      && (d.legal <==> Protocol(log, reserveKey))
    decreases |log|
  {
    if log != [] { LegalIsProtocol(log[..|log| - 1], reserveKey); }
  }

  /** `tried` is history and `seen` its digest; `nextKey` is the source of fresh idempotency keys. */
  class UploadIntent {
    const reserveKey: nat
    var finalizeKey: nat
    var objectId: Option<string>
    var upload: Option<Presigned>
    var stored: bool
    var nextKey: nat
    var tried: seq<Event>
    ghost var seen: Digest

    ghost predicate Tracked()
      reads this
    {
      seen == Summary(tried, reserveKey)
    }

    ghost predicate Coherent()
      reads this
    {
      && seen.legal && objectId == seen.reserved && finalizeKey !in seen.retired
      && finalizeKey < nextKey && forall k :: k in seen.retired ==> k < nextKey
    }

    ghost predicate Valid()
      reads this
    {
      Tracked() && Coherent() && stored == seen.stocked
    }

    lemma ValidIsProtocol()
      requires Valid()
      ensures Protocol(tried, reserveKey) && objectId == ObjectOf(tried) && stored == Stocked(tried) && finalizeKey !in Retired(tried)
    {
      LegalIsProtocol(tried, reserveKey);
    }

    constructor (key: nat)
      ensures Valid() && tried == [] && reserveKey == key
    {
      reserveKey, finalizeKey, nextKey := key, key + 1, key + 2;
      objectId, upload, stored, tried := None, None, false, [];
      seen := Digest(true, None, false, {}, 0, 0);
    }

    method Record(e: Event)
      requires Tracked()
      modifies this`tried, this`seen
      ensures Tracked() && tried == old(tried) + [e] && seen == Extended(old(seen), e, reserveKey)
    {
      tried := tried + [e];
      seen := Extended(seen, e, reserveKey);
      assert tried[..|tried| - 1] == old(tried);
    }

    /** A fresh URL for the reserved object, and a PUT on it. */
    method PutOnFreshUrl() returns (r: PutReply)
      requires Tracked() && Coherent() && !seen.stocked && objectId.Some?
      modifies this`upload, this`tried, this`seen
      ensures Tracked() && Coherent() && (r == PutOk <==> seen.stocked)
      ensures seen.retired == old(seen.retired) && seen.finalizes == old(seen.finalizes) && seen.puts <= old(seen.puts) + 1
      ensures old(tried) < tried && tried[|old(tried)|].FreshUploadUrl? && !tried[|tried| - 1].Finalize?
      ensures r != PutOk ==> EndsIn(old(tried), tried, if r == PutUnknown then Unknown else Failed(UPLOAD_FAILED))
    {
      var again: FreshReply := *;
      Record(FreshUploadUrl(objectId.value, again));
      if again.FreshUnknown? { return PutUnknown; }
      if again.FreshError? { return if again.retryable then PutUnknown else PutFailed; }
      upload := Some(again.upload);
      r := *;
      Record(Put(again.upload.url, r));
    }

    /** A PUT on the URL in hand if it is still `good`, else or on failure one on a fresh URL. */
    method PutWithFallback(good: bool) returns (r: PutReply)
      requires Valid() && !stored
      modifies this`upload, this`tried, this`seen
      ensures Tracked() && Coherent() && (r == PutOk <==> seen.stocked)
      ensures old(tried) <= tried && seen.retired == old(seen.retired)
      ensures seen.finalizes == old(seen.finalizes) && seen.puts <= old(seen.puts) + 2
      ensures r == PutOk ==> |tried| > |old(tried)| && !tried[|tried| - 1].Finalize?
      ensures |tried| > |old(tried)| ==> !tried[|tried| - 1].Finalize?
      ensures objectId.Some? ==> |tried| > |old(tried)| && StartsWith(tried[|old(tried)|], if good then old(upload) else None)
      ensures r != PutOk && objectId.Some? ==> EndsIn(old(tried), tried, if r == PutUnknown then Unknown else Failed(UPLOAD_FAILED))
    {
      if objectId.None? { return PutFailed; }
      if upload.Some? && good {
        var first: PutReply := *;
        Record(Put(upload.value.url, first));
        if first == PutOk { return PutOk; }
      }
      r := PutOnFreshUrl();
    }

    /** Did this exchange, made in the present run, settle the upload this way? */
    ghost predicate EndedWith(before: nat, status: MediaStatus)
      reads this
    {
      before < |tried| && tried[|tried| - 1].Finalize? && tried[|tried| - 1].finalizeReply == Finalized(status)
    }

    /** The reservation part of a run; an outcome ends the run here. */
    method ReserveOnce() returns (r: Option<Outcome>)
      requires Valid()
      modifies this`objectId, this`upload, this`stored, this`tried, this`seen
      ensures Valid() && old(tried) <= tried && (old(objectId).Some? ==> objectId == old(objectId))
      ensures seen.finalizes == old(seen.finalizes) && seen.puts == old(seen.puts)
      ensures r.None? ==> objectId.Some?
      ensures r.Some? ==> EndsIn(old(tried), tried, r.value)
      ensures |tried| > |old(tried)| ==> !tried[|tried| - 1].Finalize?
    {
      if objectId.Some? { return None; }
      var reply: ReserveReply := *;
      Record(Reserve(reserveKey, reply));
      if reply.ReserveUnknown? { return Some(Unknown); }
      if reply.ReserveError? { return Some(if reply.retryable then Unknown else Failed(reply.code)); }
      objectId, upload := Some(reply.objectId), Some(reply.upload);
      if reply.status == AVAILABLE { stored := true; }
      return None;
    }

    /** One round of the loop: store if needed, then finalize; no outcome means UPLOAD_MISSING. */
    method Round() returns (r: Option<Outcome>)
      requires Valid() && objectId.Some?
      modifies this
      ensures Valid() && old(tried) <= tried && objectId == old(objectId)
      ensures seen.finalizes <= old(seen.finalizes) + 1 && seen.puts <= old(seen.puts) + 2
      ensures r.None? ==> |tried| > |old(tried)| && Misses(tried[|tried| - 1]) && seen.finalizes == old(seen.finalizes) + 1
      ensures r.Some? ==> EndsIn(old(tried), tried, r.value) && !Misses(tried[|tried| - 1])
      ensures r.Some? ==> (r.value.Available? <==> EndedWith(|old(tried)|, AVAILABLE)) && (r.value.Refused? <==> EndedWith(|old(tried)|, REJECTED))
      ensures r.Some? && r.value.Available? ==> Some(r.value.objectId) == objectId
    {
      if !stored {
        var good: bool := *;
        var put := PutWithFallback(good);
        if put == PutUnknown { return Some(Unknown); }
        if put == PutFailed { return Some(Failed(UPLOAD_FAILED)); }
        stored := true;
      }
      var reply: FinalizeReply := *;
      Record(Finalize(objectId.value, finalizeKey, reply));
      if reply.FinalizeUnknown? { return Some(Unknown); }
      if SaysMissing(reply) {
        stored := false;
        finalizeKey, nextKey := nextKey, nextKey + 1;
        return None;
      }
      if reply.FinalizeError? { return Some(if reply.retryable then Unknown else Failed(reply.code)); }
      if reply.status == AVAILABLE { return Some(Available(objectId.value)); }
      if reply.status == REJECTED { return Some(Refused); }
      return Some(Unknown);
    }

    /**
     * One run of the upload, whatever the server answers. It goes on until an exchange ends
     * it, and its outcome is what that exchange says: success exactly when it was the
     * server's AVAILABLE for the reserved object. Only a second UPLOAD_MISSING ends a run.
     */
    method RunUpload() returns (r: Outcome)
      requires Valid()
      modifies this
      ensures Valid() && old(tried) <= tried && (old(objectId).Some? ==> objectId == old(objectId))
      ensures seen.finalizes <= old(seen.finalizes) + 2 && seen.puts <= old(seen.puts) + 4
      ensures r.Available? ==> Some(r.objectId) == objectId
      ensures r.Available? <==> EndedWith(|old(tried)|, AVAILABLE)
      ensures r.Refused? <==> EndedWith(|old(tried)|, REJECTED)
      ensures EndsIn(old(tried), tried, r)
      ensures Misses(tried[|tried| - 1]) ==> seen.finalizes == old(seen.finalizes) + 2
    {
      var early := ReserveOnce();
      if early.Some? { return early.value; }
      for attempt := 0 to 2
        invariant Valid() && old(tried) <= tried && objectId.Some? && (old(objectId).Some? ==> objectId == old(objectId))
        invariant seen.finalizes == old(seen.finalizes) + attempt && seen.puts <= old(seen.puts) + 2 * attempt
        invariant |tried| > |old(tried)| ==> !tried[|tried| - 1].Finalize? || Misses(tried[|tried| - 1])
        invariant attempt > 0 ==> |tried| > |old(tried)| && Misses(tried[|tried| - 1])
      {
        var out := Round();
        if out.Some? { return out.value; }
      }
      return Failed(UPLOAD_MISSING);
    }

    /** Any number of resumed runs keep to one protocol log. */
    method Resume(runs: nat)
      requires Valid()
      modifies this
      ensures Valid() && old(tried) <= tried && (old(objectId).Some? ==> objectId == old(objectId))
      ensures seen.finalizes <= old(seen.finalizes) + 2 * runs && seen.puts <= old(seen.puts) + 4 * runs
    {
      for i := 0 to runs
        invariant Valid() && old(tried) <= tried && (old(objectId).Some? ==> objectId == old(objectId))
        invariant seen.finalizes <= old(seen.finalizes) + 2 * i && seen.puts <= old(seen.puts) + 4 * i
      {
        var _ := RunUpload();
      }
    }
  }
}
