/** What a lease is worth: who may change a leased row, until when, and what ends the lease. */
module OutboxLeases {
  import opened Text
  import opened Outbox

  /** A lease statement over this row that comes after the row's lease has run out. */
  predicate Overdue(r: Row, id: nat, op: StoreOp) {
    op.Lease? && id in op.ids && r.lockedUntil < op.now && !r.dead && r.attempts < op.maxAttempts
  }

  /** The row is out of this holder's hands: given back, or leased again. */
  predicate PastAttempt(r: Row, n: nat) {
    (r.lockedBy.None? && n <= r.attempts) || n < r.attempts
  }

  lemma {:induction false} PastForGood(rows: Rows, ops: seq<StoreOp>, id: nat, n: nat)
    requires id in rows && PastAttempt(rows[id], n)
    ensures PastAttempt(RunOps(rows, ops)[id], n)
    decreases ops
  {
    if ops != [] {
      PastForGood(Apply(rows, ops[0]), ops[1..], id, n);
    }
  }

  /**
   * Lease exclusivity, exactly. Whatever any number of workers do, an unpublished row that
   * is held stays as it is, with its holder, its expiry and its attempts, if and only if no
   * mark comes in its holder's name and no lease comes after its expiry.
   */
  lemma {:induction false} HeldIff(rows: Rows, ops: seq<StoreOp>, id: nat)
    requires id in rows && rows[id].publishedAs.None? && rows[id].lockedBy.Some?
    ensures RunOps(rows, ops)[id] == rows[id] <==>
            forall i :: 0 <= i < |ops| ==> !HolderMarks(rows[id], id, ops[i]) && !Overdue(rows[id], id, ops[i])
    decreases ops
  {
    if ops != [] {
      var rest := ops[1..];
      assert forall i :: 0 <= i < |rest| ==> rest[i] == ops[i + 1];
      if HolderMarks(rows[id], id, ops[0]) || Overdue(rows[id], id, ops[0]) {
        PastForGood(Apply(rows, ops[0]), rest, id, rows[id].attempts);
      } else {
        assert Apply(rows, ops[0])[id] == rows[id];
        HeldIff(Apply(rows, ops[0]), rest, id);
        assert forall i :: 0 <= i < |ops| ==> i == 0 || ops[i] == rest[i - 1];
      }
    }
  }

  /**
   * One lease from its statement to its mark. A lease that took the row gives it to its
   * worker until `now + leaseMs` and costs one attempt; through any statements without a
   * mark in that worker's name and without a lease past that instant the row stays so; then
   * the worker's mark finds its lease, and publishes the row, or gives it back, or parks it
   * if this was its last attempt.
   */
  lemma LeaseLife(rows: Rows, lease: StoreOp, ops: seq<StoreOp>, mark: StoreOp, id: nat)
    requires id in rows && lease.Lease? && Apply(rows, lease)[id] != rows[id]
    requires forall i :: 0 <= i < |ops| ==>
      if ops[i].Lease? then ops[i].now <= lease.now + lease.leaseMs else ops[i].id != id || ops[i].worker != lease.worker
    requires !mark.Lease? && mark.id == id && mark.worker == lease.worker
    ensures
      var leased := rows[id].(lockedBy := Some(lease.worker), lockedUntil := lease.now + lease.leaseMs, attempts := rows[id].attempts + 1);
      var held := RunOps(Apply(rows, lease), ops);
      && Apply(rows, lease)[id] == leased && held[id] == leased && Holds(held, id, lease.worker)
      && Apply(held, mark)[id] ==
         if mark.MarkPublished? then leased.(publishedAs := Some(mark.attempt), lockedBy := None)
         else leased.(lockedBy := None, dead := leased.attempts >= mark.maxAttempts)
  {
    HeldIff(Apply(rows, lease), ops, id);
  }

  /** Which rows a lease takes: the picked ones with an attempt left that are pending, and that nobody holds any more. */
  lemma TakesIff(rows: Rows, lease: StoreOp, id: nat)
    requires id in rows && lease.Lease?
    ensures
      Apply(rows, lease)[id] != rows[id] <==>
        && id in lease.ids && rows[id].attempts < lease.maxAttempts && !rows[id].dead && rows[id].publishedAs.None?
        && (rows[id].lockedBy.Some? ==> lease.now > rows[id].lockedUntil)
    ensures rows[id].lockedBy.Some? && rows[id].lockedBy != Some(lease.worker) ==>
      (Apply(rows, lease)[id].lockedBy != rows[id].lockedBy <==> Apply(rows, lease)[id] != rows[id])
  {
    if Apply(rows, lease)[id] != rows[id] {
      assert Apply(rows, lease)[id].attempts == rows[id].attempts + 1;
    }
  }

  // ------------------------------------------------------------ how a row ends

  /** Statement `i` is a mark of the row, and comes while its worker holds the row unpublished. */
  predicate MarksAt(rows: Rows, ops: seq<StoreOp>, id: nat, i: nat)
    requires i < |ops|
  {
    !ops[i].Lease? && ops[i].id == id && Holds(RunOps(rows, ops[..i]), id, ops[i].worker)
  }

  lemma {:induction false} EndsForGood(rows: Rows, ops: seq<StoreOp>, id: nat)
    requires id in rows && (rows[id].dead || rows[id].publishedAs.Some?) && (rows[id].dead ==> rows[id].lockedBy.None?)
    ensures RunOps(rows, ops)[id] == rows[id]
    decreases ops
  {
    if ops != [] {
      assert Apply(rows, ops[0])[id] == rows[id];
      EndsForGood(Apply(rows, ops[0]), ops[1..], id);
    }
  }

  /** Splitting a run at statement `i`. */
  lemma RunSplits(rows: Rows, ops: seq<StoreOp>, i: nat)
    requires i < |ops|
    ensures RunOps(rows, ops) == RunOps(Apply(RunOps(rows, ops[..i]), ops[i]), ops[i + 1..])
  {
    assert ops == ops[..i] + ops[i..];
    RunOpsConcat(rows, ops[..i], ops[i..]);
    assert ops[i..][0] == ops[i] && ops[i..][1..] == ops[i + 1..];
  }

  /** A statement that ends a row is its holder's mark: a publication, or a failure of the last attempt. */
  lemma EndingStatement(rows: Rows, op: StoreOp, id: nat)
    requires id in rows && !rows[id].dead && rows[id].publishedAs.None?
    ensures Apply(rows, op)[id].publishedAs.Some? <==> op.MarkPublished? && op.id == id && Holds(rows, id, op.worker)
    ensures Apply(rows, op)[id].publishedAs.Some? ==> Apply(rows, op)[id].publishedAs == Some(op.attempt) && !Apply(rows, op)[id].dead
    ensures Apply(rows, op)[id].dead <==> op.MarkFailed? && op.id == id && Holds(rows, id, op.worker) && rows[id].attempts >= op.maxAttempts
    ensures Apply(rows, op)[id].dead ==> Apply(rows, op)[id].lockedBy.None?
  {
  }

  /** A row that has ended ended at some statement. */
  lemma {:induction false} EndedAt(rows: Rows, ops: seq<StoreOp>, id: nat) returns (i: nat)
    requires id in rows && !rows[id].dead && rows[id].publishedAs.None?
    requires RunOps(rows, ops)[id].dead || RunOps(rows, ops)[id].publishedAs.Some?
    ensures i < |ops|
    ensures var r := RunOps(rows, ops[..i])[id]; !r.dead && r.publishedAs.None?
    ensures RunOps(rows, ops)[id] == Apply(RunOps(rows, ops[..i]), ops[i])[id]
    decreases ops
  {
    var next := Apply(rows, ops[0]);
    EndingStatement(rows, ops[0], id);
    if next[id].dead || next[id].publishedAs.Some? {
      EndsForGood(next, ops[1..], id);
      i := 0;
    } else {
      var j := EndedAt(next, ops[1..], id);
      i := j + 1;
      assert ops[..i][0] == ops[0] && ops[..i][1..] == ops[1..][..j] && ops[1..][j] == ops[i];
    }
  }

  /** Until a statement ends the row, the row is pending. */
  lemma {:induction false} PendingBefore(rows: Rows, ops: seq<StoreOp>, id: nat, i: nat)
    requires id in rows && !rows[id].dead && rows[id].publishedAs.None? && i < |ops| && MarksAt(rows, ops, id, i)
    ensures !RunOps(rows, ops[..i])[id].dead
    decreases i
  {
    var r := RunOps(rows, ops[..i])[id];
    if r.dead || r.publishedAs.Some? {
      var j := EndedAt(rows, ops[..i], id);
      EndingStatement(RunOps(rows, ops[..i][..j]), ops[..i][j], id);
    }
  }

  /**
   * How a pending row ends, over every history of statements. It is published by attempt `n`
   * if and only if its holder's publication mark for `n` came; it is parked if and only if
   * its holder's failure mark came with no attempt left.
   */
  lemma EndsIff(rows: Rows, ops: seq<StoreOp>, id: nat, n: nat)
    requires id in rows && !rows[id].dead && rows[id].publishedAs.None?
    ensures RunOps(rows, ops)[id].publishedAs == Some(n) <==>
            exists i :: 0 <= i < |ops| && MarksAt(rows, ops, id, i) && ops[i].MarkPublished? && ops[i].attempt == n
    ensures RunOps(rows, ops)[id].dead <==>
            exists i :: 0 <= i < |ops| && MarksAt(rows, ops, id, i) && ops[i].MarkFailed? && RunOps(rows, ops[..i])[id].attempts >= ops[i].maxAttempts
  {
    var r := RunOps(rows, ops)[id];
    if r.dead || r.publishedAs.Some? {
      var i := EndedAt(rows, ops, id);
      EndingStatement(RunOps(rows, ops[..i]), ops[i], id);
      assert MarksAt(rows, ops, id, i);
    }
    forall i | 0 <= i < |ops| && MarksAt(rows, ops, id, i) &&
               (ops[i].MarkPublished? || (ops[i].MarkFailed? && RunOps(rows, ops[..i])[id].attempts >= ops[i].maxAttempts))
      ensures r == Apply(RunOps(rows, ops[..i]), ops[i])[id]
    {
      PendingBefore(rows, ops, id, i);
      EndingStatement(RunOps(rows, ops[..i]), ops[i], id);
      RunSplits(rows, ops, i);
      EndsForGood(Apply(RunOps(rows, ops[..i]), ops[i]), ops[i + 1..], id);
    }
  }
}
