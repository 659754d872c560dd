/** Leases in the whole system: a live process keeps its records until its lease runs out, and exactly when it does. */
module DeliveryLeases {
  import opened Text
  import opened Subscriber
  import opened Outbox
  import opened OutboxLeases
  import opened Delivery
  import opened DeliveryRuns
  import DeliveryStuck
  import Publisher

  /** A process named `w` marks the row. */
  predicate MarksIt(s: Sys, step: Step, id: nat, w: string) {
    && step.Mark? && step.p in s.procs && s.procs[step.p].workerId == w
    && s.procs[step.p].todo != [] && s.procs[step.p].todo[0].row == id
  }

  predicate Unmarked(s: Sys, steps: seq<Step>, id: nat, w: string)
    requires Legal(s, steps)
    decreases steps
  {
    steps == [] || (!MarksIt(s, steps[0], id, w) && Unmarked(Next(s, steps[0]), steps[1..], id, w))
  }

  /** Only a lease and a mark touch a row; a batch takes a held row if and only if it picks it, and then it is overdue. */
  lemma RowStep(s: Sys, step: Step, id: nat)
    requires id in s.rows && Enabled(s, step)
    ensures id in Next(s, step).rows && s.now <= Next(s, step).now
    ensures !step.LeaseBatch? && !step.Mark? ==> Next(s, step).rows[id] == s.rows[id]
    ensures step.LeaseBatch? && id !in step.picks ==> Next(s, step).rows[id] == s.rows[id]
    ensures step.LeaseBatch? && id in step.picks ==>
      && s.rows[id].publishedAs.None? && (s.rows[id].lockedBy.Some? ==> s.rows[id].lockedUntil < s.now)
      && Next(s, step).rows[id].attempts == s.rows[id].attempts + 1
    ensures step.Mark? && !(s.rows[id].lockedBy.Some? && MarksIt(s, step, id, s.rows[id].lockedBy.value)) ==> Next(s, step).rows[id] == s.rows[id]
    ensures step.Mark? && s.rows[id].publishedAs.None? && s.rows[id].lockedBy.Some? && MarksIt(s, step, id, s.rows[id].lockedBy.value) ==>
      Next(s, step).rows[id].lockedBy.None? && Next(s, step).rows[id].attempts == s.rows[id].attempts
  {
  }

  lemma PastStep(s: Sys, step: Step, id: nat, n: nat)
    requires id in s.rows && Enabled(s, step) && PastAttempt(s.rows[id], n)
    ensures id in Next(s, step).rows && PastAttempt(Next(s, step).rows[id], n)
  {
    RowStep(s, step, id);
  }

  lemma {:induction false} PastForGood(s: Sys, steps: seq<Step>, id: nat, n: nat)
    requires Legal(s, steps) && id in s.rows && PastAttempt(s.rows[id], n)
    ensures id in Run(s, steps).rows && PastAttempt(Run(s, steps).rows[id], n)
    decreases steps
  {
    if steps != [] {
      PastStep(s, steps[0], id, n);
      PastForGood(Next(s, steps[0]), steps[1..], id, n);
    }
  }

  lemma {:induction false} ClockRises(s: Sys, steps: seq<Step>)
    requires Legal(s, steps)
    ensures s.now <= Run(s, steps).now
    decreases steps
  {
    if steps != [] {
      ClockRises(Next(s, steps[0]), steps[1..]);
    }
  }

  /**
   * Lease exclusivity in the system. In every run that ends before the lease runs out, an
   * unpublished row that is held stays exactly as it is if and only if no process of its
   * holder's name marks it: no other worker can lease it, publish it, park it or give it back.
   */
  lemma {:induction false} LeaseHoldsIff(s: Sys, steps: seq<Step>, id: nat, w: string)
    requires Legal(s, steps) && Holds(s.rows, id, w) && Run(s, steps).now <= s.rows[id].lockedUntil
    ensures id in Run(s, steps).rows
    ensures Run(s, steps).rows[id] == s.rows[id] <==> Unmarked(s, steps, id, w)
    decreases steps
  {
    if steps != [] {
      var s', rest := Next(s, steps[0]), steps[1..];
      ClockRises(s', rest);
      RowStep(s, steps[0], id);
      if MarksIt(s, steps[0], id, w) {
        PastForGood(s', rest, id, s.rows[id].attempts);
      } else {
        LeaseHoldsIff(s', rest, id, w);
      }
    }
  }

  // ------------------------------------------------------------ who can mark it

  /** The process has a record of this row. */
  ghost predicate Has(s: Sys, p: nat, id: nat) {
    p in s.procs && exists i :: 0 <= i < |s.procs[p].todo| && s.procs[p].todo[i].row == id
  }

  /** Another process of the same name has a record of this row. */
  ghost predicate Namesake(s: Sys, p: nat, id: nat) {
    p in s.procs && exists q :: q != p && q in s.procs && s.procs[q].workerId == s.procs[p].workerId && Has(s, q, id)
  }

  ghost predicate OneEach(s: Sys, p: nat) {
    p in s.procs && forall i, j :: 0 <= i < j < |s.procs[p].todo| ==> s.procs[p].todo[i].row != s.procs[p].todo[j].row
  }

  /** While the lease runs no process gets a record of the row that had none. */
  lemma HasStep(s: Sys, step: Step, q: nat, id: nat)
    requires Enabled(s, step) && id in s.rows && s.rows[id].lockedBy.Some? && s.now <= s.rows[id].lockedUntil
    requires q in s.procs && !Has(s, q, id)
    ensures q in Next(s, step).procs && !Has(Next(s, step), q, id) && Next(s, step).procs[q].workerId == s.procs[q].workerId
  {
    var s' := Next(s, step);
    RowStep(s, step, id);
    if step.LeaseBatch? && q == step.p {
      assert forall i :: 0 <= i < |s'.procs[q].todo| ==> s'.procs[q].todo[i].row == step.picks[i];
    } else if step.Mark? && q == step.p {
      assert forall i :: 0 <= i < |s'.procs[q].todo| ==> s'.procs[q].todo[i] == s.procs[q].todo[i + 1];
    }
  }

  lemma NewProcHasNothing(s: Sys, step: Step, q: nat, id: nat)
    requires Enabled(s, step) && q !in s.procs
    ensures !Has(Next(s, step), q, id)
  {
  }

  lemma NamesakeStep(s: Sys, step: Step, p: nat, id: nat)
    requires Enabled(s, step) && id in s.rows && s.rows[id].lockedBy.Some? && s.now <= s.rows[id].lockedUntil
    requires p in s.procs && !Namesake(s, p, id)
    ensures p in Next(s, step).procs && Next(s, step).procs[p].workerId == s.procs[p].workerId && !Namesake(Next(s, step), p, id)
  {
    var s' := Next(s, step);
    assert s'.procs[p].workerId == s.procs[p].workerId;
    forall q | q != p && q in s'.procs && s'.procs[q].workerId == s'.procs[p].workerId ensures !Has(s', q, id) {
      if q in s.procs {
        assert s'.procs[q].workerId == s.procs[q].workerId && !Has(s, q, id);
        HasStep(s, step, q, id);
      } else {
        NewProcHasNothing(s, step, q, id);
      }
    }
  }

  lemma OneEachStep(s: Sys, step: Step, p: nat)
    requires Enabled(s, step) && OneEach(s, p)
    ensures OneEach(Next(s, step), p)
  {
    var s' := Next(s, step);
    if step.LeaseBatch? && p == step.p {
      assert forall i :: 0 <= i < |s'.procs[p].todo| ==> s'.procs[p].todo[i].row == step.picks[i];
    } else if step.Mark? && p == step.p {
      assert forall i :: 0 <= i < |s'.procs[p].todo| ==> s'.procs[p].todo[i] == s.procs[p].todo[i + 1];
    }
  }

  /** An attempt that a process is done with never comes back to it: a later lease is a later attempt. */
  ghost predicate Done(s: Sys, p: nat, t: Tag) {
    p in s.procs && t !in s.procs[p].todo && t.row in s.rows && t.attempt <= s.rows[t.row].attempts
  }

  lemma DoneStep(s: Sys, step: Step, p: nat, t: Tag)
    requires Enabled(s, step) && Done(s, p, t)
    ensures Done(Next(s, step), p, t)
  {
    var s' := Next(s, step);
    RowStep(s, step, t.row);
    if step.LeaseBatch? && p == step.p {
      assert forall i :: 0 <= i < |s'.procs[p].todo| ==>
        s'.procs[p].todo[i] == Tag(step.picks[i], s.rows[step.picks[i]].attempts + 1);
    }
  }

  lemma {:induction false} DoneForGood(s: Sys, steps: seq<Step>, p: nat, t: Tag)
    requires Legal(s, steps) && Done(s, p, t)
    ensures Done(Run(s, steps), p, t)
    decreases steps
  {
    if steps != [] {
      DoneStep(s, steps[0], p, t);
      DoneForGood(Next(s, steps[0]), steps[1..], p, t);
    }
  }

  /** Its own mark takes the record from the process. */
  lemma OwnMarkIsDone(s: Sys, step: Step, p: nat, t: Tag)
    requires Enabled(s, step) && step.Mark? && step.p == p && OneEach(s, p) && t in s.procs[p].todo
    requires t.row in s.rows && t.attempt <= s.rows[t.row].attempts && s.procs[p].todo[0].row == t.row
    ensures Done(Next(s, step), p, t)
  {
    var s' := Next(s, step);
    RowStep(s, step, t.row);
    assert forall i :: 0 <= i < |s'.procs[p].todo| ==> s'.procs[p].todo[i] == s.procs[p].todo[i + 1];
  }

  /** A leased record: the row is held in the process's name for this attempt, and no namesake has it. */
  ghost predicate Mine(s: Sys, p: nat, t: Tag) {
    && OneEach(s, p) && t in s.procs[p].todo && Holds(s.rows, t.row, s.procs[p].workerId)
    && t.attempt == s.rows[t.row].attempts && !Namesake(s, p, t.row)
  }

  /** One step before the expiry: the process is done with the record, or nothing about it changed. */
  lemma MineStep(s: Sys, step: Step, p: nat, t: Tag)
    requires Enabled(s, step) && Mine(s, p, t) && s.now <= s.rows[t.row].lockedUntil
    ensures Done(Next(s, step), p, t) || (Mine(Next(s, step), p, t) && Next(s, step).rows[t.row] == s.rows[t.row])
  {
    var s', id := Next(s, step), t.row;
    var w := s.procs[p].workerId;
    RowStep(s, step, id);
    if MarksIt(s, step, id, w) {
      assert step.p == p by {
        if step.p != p { assert Has(s, step.p, id); }
      }
      OwnMarkIsDone(s, step, p, t);
    } else {
      assert s'.rows[id] == s.rows[id];
      OneEachStep(s, step, p);
      NamesakeStep(s, step, p, id);
    }
  }

  lemma {:induction false} MineRun(s: Sys, steps: seq<Step>, p: nat, t: Tag)
    requires Legal(s, steps) && Mine(s, p, t) && Run(s, steps).now <= s.rows[t.row].lockedUntil
    requires p in Run(s, steps).procs && t in Run(s, steps).procs[p].todo
    ensures Mine(Run(s, steps), p, t) && Run(s, steps).rows[t.row] == s.rows[t.row]
    decreases steps
  {
    if steps != [] {
      var s' := Next(s, steps[0]);
      ClockRises(s, steps);
      MineStep(s, steps[0], p, t);
      if Done(s', p, t) { DoneForGood(s', steps[1..], p, t); }
      MineRun(s', steps[1..], p, t);
    }
  }

  /** What a batch gives a process, and until when. */
  lemma LeasedIsMine(s: Sys, step: Step, id: nat)
    requires Enabled(s, step) && step.LeaseBatch? && id in step.picks && !Namesake(s, step.p, id)
    ensures var t := Next(s, step);
      Mine(t, step.p, Tag(id, s.rows[id].attempts + 1)) && t.rows[id].lockedUntil == s.now + step.leaseMs
  {
    var t := Next(s, step);
    RowStep(s, step, id);
    assert forall i :: 0 <= i < |t.procs[step.p].todo| ==> t.procs[step.p].todo[i] == Tag(step.picks[i], s.rows[step.picks[i]].attempts + 1);
    var i :| 0 <= i < |step.picks| && step.picks[i] == id;
    assert t.procs[step.p].todo[i] == Tag(id, s.rows[id].attempts + 1);
    forall q | q != step.p && q in t.procs && t.procs[q].workerId == t.procs[step.p].workerId ensures !Has(t, q, id) {
      assert t.procs[q] == s.procs[q] && !Has(s, q, id);
    }
  }

  /** In every run from the batch on, until the lease runs out: a process that still has the record finds the row as leased. */
  ghost predicate LeaseIsGood(s: Sys, step: Step, id: nat)
    requires Enabled(s, step) && step.LeaseBatch? && id in step.picks
  {
    forall t :: ReachesBy(Next(s, step), t, AnyStep) && t.now <= s.now + step.leaseMs && step.p in t.procs
                && Tag(id, s.rows[id].attempts + 1) in t.procs[step.p].todo ==>
      id in t.rows && t.rows[id] == Next(s, step).rows[id]
  }

  /** What a batch does to a row it picked, and the process's record of it. */
  lemma PickedRow(s: Sys, step: Step, id: nat)
    requires Enabled(s, step) && step.LeaseBatch? && id in step.picks
    ensures var u := Next(s, step);
      && u.rows[id] == s.rows[id].(lockedBy := Some(s.procs[step.p].workerId), lockedUntil := s.now + step.leaseMs, attempts := s.rows[id].attempts + 1)
      && Holds(u.rows, id, s.procs[step.p].workerId)
      && Tag(id, s.rows[id].attempts + 1) in u.procs[step.p].todo
  {
    var i :| 0 <= i < |step.picks| && step.picks[i] == id;
    assert Next(s, step).procs[step.p].todo[i] == Tag(id, s.rows[id].attempts + 1);
  }

  /** A namesake that still has the row among its records can end the lease. */
  lemma NamesakeEndsIt(s: Sys, step: Step, id: nat)
    requires Inv(s) && Enabled(s, step) && step.LeaseBatch? && id in step.picks && Namesake(s, step.p, id)
    ensures !LeaseIsGood(s, step, id)
  {
    PickedRow(s, step, id);
    var q :| q != step.p && q in s.procs && s.procs[q].workerId == s.procs[step.p].workerId && Has(s, q, id);
    AwaitsSent(s, q);
    BatchKeepsOthers(s, step, q);
    NamesakeMarks(Next(s, step), q, id, step.p);
  }

  lemma AwaitsSent(s: Sys, q: nat)
    requires Inv(s) && q in s.procs
    ensures s.procs[q].awaiting.Some? ==> s.procs[q].awaiting.value < |s.procs[q].chan.pubs|
  {
    assert ProcOk(s, q);
  }

  lemma BatchKeepsOthers(s: Sys, step: Step, q: nat)
    requires Enabled(s, step) && step.LeaseBatch? && q in s.procs && q != step.p
    ensures q in Next(s, step).procs && Next(s, step).procs[q] == s.procs[q]
    ensures step.p in Next(s, step).procs && Next(s, step).procs[step.p].workerId == s.procs[step.p].workerId
  {
  }

  lemma NamesakeMarks(u: Sys, q: nat, id: nat, p: nat)
    requires q in u.procs && Has(u, q, id) && Holds(u.rows, id, u.procs[q].workerId) && p in u.procs && p != q
    requires u.procs[q].awaiting.Some? ==> u.procs[q].awaiting.value < |u.procs[q].chan.pubs|
    ensures exists t :: ReachesBy(u, t, AnyStep) && t.now == u.now && p in t.procs && t.procs[p] == u.procs[p] && id in t.rows && t.rows[id] != u.rows[id]
  {
    var i := DeliveryStuck.FirstWith(u.procs[q].todo, id);
    var t := DeliveryStuck.HolderCanMark(u, id, 0, q, i);
    ByAny(u, t, DeliveryStuck.Under(0));
  }

  /**
   * The exact condition. A process holds what it leased until the lease runs out, whatever
   * the rest of the system does, if and only if no other process under its worker id still
   * had the row among its records when the lease was taken.
   */
  lemma LeaseIsGoodIff(s: Sys, step: Step, id: nat)
    requires Inv(s) && Enabled(s, step) && step.LeaseBatch? && id in step.picks
    ensures LeaseIsGood(s, step, id) <==> !Namesake(s, step.p, id)
  {
    if Namesake(s, step.p, id) {
      NamesakeEndsIt(s, step, id);
    } else {
      var u, tag := Next(s, step), Tag(id, s.rows[id].attempts + 1);
      LeasedIsMine(s, step, id);
      forall t | ReachesBy(u, t, AnyStep) && t.now <= s.now + step.leaseMs && step.p in t.procs && tag in t.procs[step.p].todo
        ensures id in t.rows && t.rows[id] == u.rows[id]
      {
        var steps :| Legal(u, steps) && All(steps, AnyStep) && Run(u, steps) == t;
        MineRun(u, steps, step.p, tag);
      }
    }
  }

  /**
   * Nobody can take the row before its lease runs out, and any idle process can at any
   * instant after: a batch of it that picks a pending held row with an attempt left is
   * enabled if and only if the time is past the lease.
   */
  lemma TakeoverIff(s: Sys, p: nat, id: nat, leaseMs: nat, max: nat)
    requires p in s.procs && s.procs[p].alive && s.procs[p].todo == [] && s.procs[p].awaiting.None?
    requires id in s.rows && s.rows[id].publishedAs.None? && !s.rows[id].dead && s.rows[id].lockedBy.Some? && s.rows[id].attempts < max
    ensures Enabled(s, LeaseBatch(p, [id], leaseMs, max)) <==> s.now > s.rows[id].lockedUntil
    ensures s.now > s.rows[id].lockedUntil ==> Holds(Next(s, LeaseBatch(p, [id], leaseMs, max)).rows, id, s.procs[p].workerId)
  {
    if Enabled(s, LeaseBatch(p, [id], leaseMs, max)) {
      assert [id][0] == id && id in [id];
      PickedRow(s, LeaseBatch(p, [id], leaseMs, max), id);
    }
  }
}
