/** The durable outbox table, its lease-guarded statements, and the relay pass over it. */
module Outbox {
  import opened Text
  import opened Subscriber
  import Publisher

  /**
   * One `outbox_message` row. `publishedAs` is the publication mark; it also records, as
   * history, the lease attempt whose confirmed publication set it.
   */
  datatype Row = Row(
    eventId: string,
    body: Body,
    attempts: nat,
    lockedBy: Option<string>,
    lockedUntil: int,
    publishedAs: Option<nat>,
    dead: bool)

  type Rows = map<nat, Row>

  /** One SQL statement against the table. A lease names the rows the statement may pick. */
  datatype StoreOp =
    | Lease(worker: string, ids: set<nat>, now: int, leaseMs: nat, maxAttempts: nat)
    | MarkPublished(id: nat, worker: string, attempt: nat)
    | MarkFailed(id: nat, worker: string, maxAttempts: nat)

  predicate Leasable(r: Row, now: int, maxAttempts: nat) {
    r.publishedAs.None? && !r.dead && (r.lockedBy.None? || r.lockedUntil < now) && r.attempts < maxAttempts
  }

  /** The lease guard `locked_by = $worker AND published_at IS NULL`. */
  predicate Holds(rows: Rows, id: nat, worker: string) {
    id in rows && rows[id].lockedBy == Some(worker) && rows[id].publishedAs.None?
  }

  function Leased(r: Row, op: StoreOp): Row
    requires op.Lease?
  {
    r.(lockedBy := Some(op.worker), lockedUntil := op.now + op.leaseMs, attempts := r.attempts + 1)
  }

  function Apply(rows: Rows, op: StoreOp): (rows': Rows)
    ensures rows'.Keys == rows.Keys
  {
    match op
    case Lease(w, ids, now, leaseMs, max) =>
      map id | id in rows :: if id in ids && Leasable(rows[id], now, max) then Leased(rows[id], op) else rows[id]
    case MarkPublished(id, w, attempt) =>
      if Holds(rows, id, w) then rows[id := rows[id].(publishedAs := Some(attempt), lockedBy := None)] else rows
    case MarkFailed(id, w, max) =>
      if Holds(rows, id, w) then rows[id := rows[id].(lockedBy := None, dead := rows[id].attempts >= max)] else rows
  }

  function RunOps(rows: Rows, ops: seq<StoreOp>): (rows': Rows)
    ensures rows'.Keys == rows.Keys
    decreases ops
  {
    if ops == [] then rows else RunOps(Apply(rows, ops[0]), ops[1..])
  }

  lemma {:induction false} RunOpsConcat(rows: Rows, a: seq<StoreOp>, b: seq<StoreOp>)
    ensures RunOps(rows, a + b) == RunOps(RunOps(rows, a), b)
    decreases a
  {
    if a == [] {
      assert a + b == b;
    } else {
      assert (a + b)[0] == a[0] && (a + b)[1..] == a[1..] + b;
      RunOpsConcat(Apply(rows, a[0]), a[1..], b);
    }
  }

  // ------------------------------------------------------------ lease safety

  /** A published row is never changed again, whoever runs what. */
  lemma {:induction false} PublishedForever(rows: Rows, ops: seq<StoreOp>, id: nat)
    requires id in rows && rows[id].publishedAs.Some?
    ensures RunOps(rows, ops)[id] == rows[id]
    decreases ops
  {
    if ops != [] {
      PublishedForever(Apply(rows, ops[0]), ops[1..], id);
    }
  }

  /**
   * A worker that lost a row's lease cannot touch it: whatever any number of workers did
   * since, and as long as it has not leased this row again, its mark is refused and the
   * row is left to its current owner.
   */
  lemma {:induction false} LostLeaseStaysLost(rows: Rows, ops: seq<StoreOp>, id: nat, w: string, mark: StoreOp)
    requires id in rows && rows[id].lockedBy != Some(w)
    requires forall i :: 0 <= i < |ops| && ops[i].Lease? && ops[i].worker == w ==> id !in ops[i].ids
    requires !mark.Lease? && mark.id == id && mark.worker == w
    ensures !Holds(RunOps(rows, ops), id, w)
    ensures Apply(RunOps(rows, ops), mark) == RunOps(rows, ops)
    decreases ops
  {
    if ops != [] {
      assert forall i :: 0 <= i < |ops[1..]| ==> ops[1..][i] == ops[i + 1];
      LostLeaseStaysLost(Apply(rows, ops[0]), ops[1..], id, w, mark);
    }
  }

  /** A lease statement that picks this row. */
  predicate Picks(rows: Rows, op: StoreOp, id: nat)
    requires id in rows
  {
    op.Lease? && id in op.ids && Leasable(rows[id], op.now, op.maxAttempts)
  }

  function LeasesOf(rows: Rows, ops: seq<StoreOp>, id: nat): nat
    requires id in rows
    decreases ops
  {
    if ops == [] then 0
    else (if Picks(rows, ops[0], id) then 1 else 0) + LeasesOf(Apply(rows, ops[0]), ops[1..], id)
  }

  /** With one attempt ceiling for all workers, a row is leased at most that often, and is parked only then. */
  lemma {:induction false} AttemptsAreBounded(rows: Rows, ops: seq<StoreOp>, id: nat, max: nat)
    requires id in rows && rows[id].attempts <= max && (rows[id].dead ==> rows[id].attempts == max)
    requires forall i :: 0 <= i < |ops| ==> (ops[i].Lease? ==> ops[i].maxAttempts == max) && (ops[i].MarkFailed? ==> ops[i].maxAttempts == max)
    ensures var r := RunOps(rows, ops)[id];
      r.attempts == rows[id].attempts + LeasesOf(rows, ops, id) <= max && (r.dead ==> r.attempts == max)
    decreases ops
  {
    if ops != [] {
      assert forall i :: 0 <= i < |ops[1..]| ==> ops[1..][i] == ops[i + 1];
      AttemptsAreBounded(Apply(rows, ops[0]), ops[1..], id, max);
    }
  }

  /** A mark of this row in the name of its holder. */
  predicate HolderMarks(r: Row, id: nat, op: StoreOp) {
    !op.Lease? && op.id == id && r.lockedBy == Some(op.worker)
  }

  predicate SameCeiling(ops: seq<StoreOp>, max: nat) {
    forall i :: 0 <= i < |ops| && ops[i].Lease? ==> ops[i].maxAttempts == max
  }

  /** Once its last attempt is given back, nobody holds a row again. */
  lemma {:induction false} GivenBackForever(rows: Rows, ops: seq<StoreOp>, id: nat, max: nat)
    requires id in rows && rows[id].attempts >= max && rows[id].lockedBy.None? && SameCeiling(ops, max)
    ensures RunOps(rows, ops)[id].lockedBy.None?
    decreases ops
  {
    if ops != [] {
      assert forall i :: 0 <= i < |ops[1..]| ==> ops[1..][i] == ops[i + 1];
      GivenBackForever(Apply(rows, ops[0]), ops[1..], id, max);
    }
  }

  /**
   * The last attempt is spent by the lease, and only a mark in the holder's name ends it:
   * an unpublished row that is held with no attempt left stays exactly as it is, neither
   * published nor parked nor released, if and only if its holder's mark never comes.
   */
  lemma {:induction false} AbandonedIff(rows: Rows, ops: seq<StoreOp>, id: nat, max: nat)
    requires id in rows && rows[id].attempts >= max && rows[id].publishedAs.None? && rows[id].lockedBy.Some? && SameCeiling(ops, max)
    ensures RunOps(rows, ops)[id] == rows[id] <==> forall i :: 0 <= i < |ops| ==> !HolderMarks(rows[id], id, ops[i])
    decreases ops
  {
    if ops != [] {
      var rest := ops[1..];
      assert forall i :: 0 <= i < |rest| ==> rest[i] == ops[i + 1];
      if HolderMarks(rows[id], id, ops[0]) {
        GivenBackForever(Apply(rows, ops[0]), rest, id, max);
      } else {
        AbandonedIff(Apply(rows, ops[0]), rest, id, max);
        assert forall i :: 0 <= i < |ops| ==> i == 0 || ops[i] == rest[i - 1];
      }
    }
  }

  /**
   * A row that is neither published nor parked can be taken by some later lease if and only
   * if it has an attempt left; a lease that takes it while it is held comes after its expiry.
   */
  lemma RecoverableIff(rows: Rows, id: nat, max: nat)
    requires id in rows && rows[id].publishedAs.None? && !rows[id].dead
    ensures (exists op: StoreOp :: op.Lease? && op.maxAttempts == max && Apply(rows, op)[id] != rows[id]) <==> rows[id].attempts < max
    ensures forall op: StoreOp :: op.Lease? && rows[id].lockedBy.Some? && Apply(rows, op)[id] != rows[id] ==> op.now > rows[id].lockedUntil
  {
    if rows[id].attempts < max {
      var op := Lease("", {id}, rows[id].lockedUntil + 1, 0, max);
      assert Apply(rows, op)[id].attempts == rows[id].attempts + 1;
      assert op.Lease? && op.maxAttempts == max && Apply(rows, op)[id] != rows[id];
    }
  }

  // ------------------------------------------------------------ one relay pass

  datatype RelayPass = RelayPass(leased: nat, published: nat, failed: nat, leaseLost: nat)

  /** A leased record, how its publication settled, and what other workers did meanwhile. */
  datatype Item = Item(id: nat, attempt: nat, result: Publisher.Outcome, others: seq<StoreOp>)

  function OwnMark(w: string, max: nat, item: Item): StoreOp {
    if item.result == Publisher.Resolved then MarkPublished(item.id, w, item.attempt) else MarkFailed(item.id, w, max)
  }

  /** The statements the table sees during the loop: interference, then the pass's own mark, per record. */
  function PassTrace(w: string, max: nat, items: seq<Item>): seq<StoreOp> {
    if items == [] then []
    else PassTrace(w, max, items[..|items| - 1]) + items[|items| - 1].others + [OwnMark(w, max, items[|items| - 1])]
  }

  /** Was the pass still holding the lease when it marked record `i`? */
  predicate HeldAt(rows: Rows, w: string, max: nat, items: seq<Item>, i: nat)
    requires i < |items|
  {
    Holds(RunOps(rows, PassTrace(w, max, items[..i]) + items[i].others), items[i].id, w)
  }

  /** One more record: `ok` is how its publication settled, `held` whether its mark matched. */
  function Counted(t: RelayPass, ok: bool, held: bool): RelayPass {
    RelayPass(t.leased + 1, t.published + (if ok && held then 1 else 0), t.failed + (if ok then 0 else 1),
              t.leaseLost + (if held then 0 else 1))
  }

  /** The records a pass published, saw refused, and lost the lease of. */
  function Tally(rows: Rows, w: string, max: nat, items: seq<Item>): (t: RelayPass)
    ensures t.leased == |items|
    ensures t.published + t.failed <= t.leased <= t.published + t.failed + t.leaseLost
    ensures t.published + t.leaseLost <= t.leased
  {
    if items == [] then RelayPass(0, 0, 0, 0)
    else
      var last := |items| - 1;
      Counted(Tally(rows, w, max, items[..last]), items[last].result == Publisher.Resolved, HeldAt(rows, w, max, items, last))
  }

  /** One more record: where the table is, and what the counters become. */
  lemma PassExtends(rows0: Rows, w: string, max: nat, items: seq<Item>, i: nat)
    requires i < |items|
    ensures
      var before := RunOps(RunOps(rows0, PassTrace(w, max, items[..i])), items[i].others);
      && RunOps(rows0, PassTrace(w, max, items[..i + 1])) == Apply(before, OwnMark(w, max, items[i]))
      && Tally(rows0, w, max, items[..i + 1])
         == Counted(Tally(rows0, w, max, items[..i]), items[i].result == Publisher.Resolved, Holds(before, items[i].id, w))
  {
    var upTo := items[..i + 1];
    assert upTo[..i] == items[..i] && upTo[i] == items[i];
    var trace := PassTrace(w, max, items[..i]);
    RunOpsConcat(rows0, trace, items[i].others);
    RunOpsConcat(rows0, trace + items[i].others, [OwnMark(w, max, items[i])]);
    assert [OwnMark(w, max, items[i])][1..] == [];
  }

  class OutboxTable {
    var rows: Rows

    constructor (rows: Rows)
      ensures this.rows == rows
    {
      this.rows := rows;
    }

    /** Runs one statement; `owned` is whether a mark matched its row. */
    method Perform(op: StoreOp) returns (owned: bool)
      modifies this
      ensures rows == Apply(old(rows), op)
      ensures owned <==> (!op.Lease? && Holds(old(rows), op.id, op.worker))
    {
      owned := !op.Lease? && Holds(rows, op.id, op.worker);
      rows := Apply(rows, op);
    }

    method PerformAll(ops: seq<StoreOp>)
      modifies this
      ensures rows == RunOps(old(rows), ops)
    {
      for i := 0 to |ops|
        invariant rows == RunOps(old(rows), ops[..i])
      {
        assert ops[..i + 1] == ops[..i] + [ops[i]];
        RunOpsConcat(old(rows), ops[..i], [ops[i]]);
        var _ := Perform(ops[i]);
      }
      assert ops[..|ops|] == ops;
    }
  }

  class OutboxRelay {
    const workerId: string
    const maxAttempts: nat

    constructor (workerId: string, maxAttempts: nat)
      ensures this.workerId == workerId && this.maxAttempts == maxAttempts
    {
      this.workerId, this.maxAttempts := workerId, maxAttempts;
    }

    /** Whatever others did while the record was being published, then this worker's own mark. */
    method MarkOne(table: OutboxTable, item: Item) returns (owned: bool)
      modifies table
      ensures table.rows == Apply(RunOps(old(table.rows), item.others), OwnMark(workerId, maxAttempts, item))
      ensures owned <==> Holds(RunOps(old(table.rows), item.others), item.id, workerId)
    {
      table.PerformAll(item.others);
      owned := table.Perform(OwnMark(workerId, maxAttempts, item));
    }

    /**
     * The loop of `runPass` over the leased records, stopping before record `abortAt`.
     * `published` counts exactly the records confirmed and marked under a held lease,
     * `failed` the refused publications, `leaseLost` the marks that found the lease gone.
     */
    method RunPass(table: OutboxTable, items: seq<Item>, abortAt: nat) returns (pass: RelayPass)
      modifies table
      ensures
        var n := if abortAt < |items| then abortAt else |items|;
        && table.rows == RunOps(old(table.rows), PassTrace(workerId, maxAttempts, items[..n]))
        && pass == Tally(old(table.rows), workerId, maxAttempts, items[..n]).(leased := |items|)
      ensures pass.published + pass.failed <= pass.leased
      ensures abortAt >= |items| ==> pass.leased <= pass.published + pass.failed + pass.leaseLost
    {
      var published, failed, leaseLost := 0, 0, 0;
      ghost var rows0 := table.rows;
      for i := 0 to |items|
        invariant i <= abortAt
        invariant table.rows == RunOps(rows0, PassTrace(workerId, maxAttempts, items[..i]))
        invariant RelayPass(i, published, failed, leaseLost) == Tally(rows0, workerId, maxAttempts, items[..i])
      {
        if i == abortAt { break; }
        PassExtends(rows0, workerId, maxAttempts, items, i);
        var owned := MarkOne(table, items[i]);
        published, failed, leaseLost := Count(items[i].result, owned, published, failed, leaseLost);
      }
      pass := RelayPass(|items|, published, failed, leaseLost);
    }

    /** The counters after one record. */
    method Count(result: Publisher.Outcome, owned: bool, published: nat, failed: nat, leaseLost: nat) returns (p: nat, f: nat, l: nat)
      ensures forall n: nat :: RelayPass(n + 1, p, f, l) == Counted(RelayPass(n, published, failed, leaseLost), result == Publisher.Resolved, owned)
    {
      p, f, l := published, failed, leaseLost;
      if result != Publisher.Resolved {
        f := f + 1;
        if !owned { l := l + 1; }
      } else if owned {
        p := p + 1;
      } else {
        l := l + 1;
      }
    }
  }
}
