/** Rows that are neither published nor parked, for ever: when, exactly, and that they happen. */
module DeliveryStuck {
  import opened Text
  import opened Subscriber
  import opened Outbox
  import opened Delivery
  import opened DeliveryRuns
  import Publisher

  /** All relays are configured with the same ceiling. */
  predicate Ceiling(step: Step, max: nat) {
    (step.LeaseBatch? ==> step.maxAttempts == max) && (step.Mark? ==> step.maxAttempts == max)
  }

  function Under(max: nat): Step -> bool {
    step => Ceiling(step, max)
  }

  /** A live process in the holder's name still has the row among its records. */
  ghost predicate AttendedBy(s: Sys, id: nat, p: nat) {
    && p in s.procs && id in s.rows && s.rows[id].lockedBy == Some(s.procs[p].workerId)
    && exists i :: 0 <= i < |s.procs[p].todo| && s.procs[p].todo[i].row == id
  }

  ghost predicate Attended(s: Sys, id: nat) {
    exists p :: AttendedBy(s, id, p)
  }

  /** An unpublished row, held, with no attempt left. */
  ghost predicate LastAttempt(s: Sys, id: nat, max: nat) {
    id in s.rows && s.rows[id].publishedAs.None? && s.rows[id].lockedBy.Some? && s.rows[id].attempts >= max
  }

  lemma LeaseLeavesIt(s: Sys, step: Step, id: nat, max: nat)
    requires LastAttempt(s, id, max) && Enabled(s, step) && step.LeaseBatch? && step.maxAttempts == max && !Attended(s, id)
    ensures var s' := Next(s, step); s'.rows[id] == s.rows[id] && !Attended(s', id)
  {
    var s' := Next(s, step);
    assert id !in step.picks;
    forall p ensures !AttendedBy(s', id, p) {
      assert !AttendedBy(s, id, p);
      if p == step.p {
        assert forall i :: 0 <= i < |s'.procs[p].todo| ==> s'.procs[p].todo[i].row == step.picks[i];
      }
    }
  }

  lemma MarkLeavesIt(s: Sys, step: Step, id: nat, max: nat)
    requires LastAttempt(s, id, max) && Enabled(s, step) && step.Mark? && !Attended(s, id)
    ensures var s' := Next(s, step); s'.rows[id] == s.rows[id] && !Attended(s', id)
  {
    var s' := Next(s, step);
    assert !AttendedBy(s, id, step.p);
    assert s.procs[step.p].todo[0].row == id ==> s.rows[id].lockedBy != Some(s.procs[step.p].workerId);
    forall p ensures !AttendedBy(s', id, p) {
      assert !AttendedBy(s, id, p);
      if p == step.p {
        assert forall i :: 0 <= i < |s'.procs[p].todo| ==> s'.procs[p].todo[i] == s.procs[p].todo[i + 1];
      }
    }
  }

  lemma OthersLeaveIt(s: Sys, step: Step, id: nat)
    requires id in s.rows && Enabled(s, step) && !step.LeaseBatch? && !step.Mark? && !Attended(s, id)
    ensures var s' := Next(s, step); id in s'.rows && s'.rows[id] == s.rows[id] && !Attended(s', id)
  {
    var s' := Next(s, step);
    forall p ensures !AttendedBy(s', id, p) { assert !AttendedBy(s, id, p); }
  }

  lemma {:induction false} UnattendedStays(s: Sys, steps: seq<Step>, id: nat, max: nat)
    requires LastAttempt(s, id, max) && !Attended(s, id) && Legal(s, steps) && All(steps, Under(max))
    ensures id in Run(s, steps).rows && Run(s, steps).rows[id] == s.rows[id]
    decreases steps
  {
    if steps != [] {
      assert Ceiling(steps[0], max);
      assert forall i :: 0 <= i < |steps[1..]| ==> steps[1..][i] == steps[i + 1];
      if steps[0].LeaseBatch? {
        LeaseLeavesIt(s, steps[0], id, max);
      } else if steps[0].Mark? {
        MarkLeavesIt(s, steps[0], id, max);
      } else {
        OthersLeaveIt(s, steps[0], id);
      }
      UnattendedStays(Next(s, steps[0]), steps[1..], id, max);
    }
  }

  // ------------------------------------------------------------ an attended row can always be ended

  /** Can some run change the row? */
  ghost predicate CanChange(s: Sys, id: nat, max: nat)
    requires id in s.rows
  {
    exists t :: ReachesBy(s, t, Under(max)) && id in t.rows && t.rows[id] != s.rows[id]
  }

  /** The process's first record gets an outcome: a timeout, or the loss of the channel. */
  lemma HeadSettles(s: Sys, p: nat, max: nat) returns (t: Sys)
    requires p in s.procs && s.procs[p].todo != [] && (s.procs[p].awaiting.Some? ==> s.procs[p].awaiting.value < |s.procs[p].chan.pubs|)
    ensures ReachesBy(s, t, Under(max)) && t.rows == s.rows && p in t.procs && Verdict(t.procs[p]).Some?
    ensures t.procs[p] == s.procs[p].(chan := t.procs[p].chan) && t == s.(procs := s.procs[p := t.procs[p]])
  {
    var q := s.procs[p];
    StayBy(s, Under(max));
    t := s;
    if q.awaiting.Some? {
      var e := Broker(p, Publisher.Timeout(q.awaiting.value));
      HopBy(s, e, Under(max));
      t := Next(s, e);
    } else if !q.chan.closed {
      var e := Broker(p, Publisher.Close);
      HopBy(s, e, Under(max));
      t := Next(s, e);
    }
  }

  /** Marking the first record touches its row only, and this process only. */
  lemma MarkHead(s: Sys, p: nat, id: nat, max: nat)
    requires p in s.procs && Verdict(s.procs[p]).Some? && Holds(s.rows, id, s.procs[p].workerId)
    ensures var t := Next(s, Mark(p, max));
      && t.now == s.now && id in t.rows && p in t.procs && t.procs[p] == s.procs[p].(todo := s.procs[p].todo[1..], awaiting := None)
      && (forall q :: q in s.procs && q != p ==> q in t.procs && t.procs[q] == s.procs[q])
      && (t.rows[id] == s.rows[id] <==> s.procs[p].todo[0].row != id)
  {
  }

  /** The process works through its records up to the row's, in no time and leaving the other processes alone. */
  lemma {:induction false} HolderCanMark(s: Sys, id: nat, max: nat, p: nat, i: nat) returns (t: Sys)
    requires p in s.procs && Holds(s.rows, id, s.procs[p].workerId)
    requires i < |s.procs[p].todo| && s.procs[p].todo[i].row == id && forall j :: 0 <= j < i ==> s.procs[p].todo[j].row != id
    requires s.procs[p].awaiting.Some? ==> s.procs[p].awaiting.value < |s.procs[p].chan.pubs|
    ensures ReachesBy(s, t, Under(max)) && id in t.rows && t.rows[id] != s.rows[id]
    ensures t.now == s.now && forall q :: q in s.procs && q != p ==> q in t.procs && t.procs[q] == s.procs[q]
    decreases i
  {
    var u := HeadSettles(s, p, max);
    t := Next(u, Mark(p, max));
    OnwardBy(s, u, Mark(p, max), Under(max));
    MarkHead(u, p, id, max);
    if i > 0 {
      var v := t;
      t := HolderCanMark(v, id, max, p, i - 1);
      ChainBy(s, v, t, Under(max));
    }
  }

  lemma {:induction false} FirstWith(todo: seq<Tag>, id: nat) returns (i: nat)
    requires exists j :: 0 <= j < |todo| && todo[j].row == id
    ensures i < |todo| && todo[i].row == id && forall j :: 0 <= j < i ==> todo[j].row != id
  {
    if todo[0].row == id {
      i := 0;
    } else {
      var j :| 0 <= j < |todo| && todo[j].row == id;
      assert todo[1..][j - 1] == todo[j];
      var k := FirstWith(todo[1..], id);
      i := k + 1;
      assert forall m :: 0 < m < i ==> todo[m] == todo[1..][m - 1];
    }
  }

  /**
   * The exact condition. An unpublished row that is held with no attempt left stays as it
   * is in every run, never published, parked or leased, if and only if no live process in
   * its holder's name still has it among its records.
   */
  lemma StuckIff(s: Sys, id: nat, max: nat)
    requires Inv(s) && LastAttempt(s, id, max)
    ensures CanChange(s, id, max) <==> Attended(s, id)
  {
    if !Attended(s, id) {
      forall t | ReachesBy(s, t, Under(max)) ensures id in t.rows && t.rows[id] == s.rows[id] {
        var steps :| Legal(s, steps) && All(steps, Under(max)) && Run(s, steps) == t;
        UnattendedStays(s, steps, id, max);
      }
    } else {
      var p :| AttendedBy(s, id, p);
      assert ProcOk(s, p);
      var i := FirstWith(s.procs[p].todo, id);
      var t := HolderCanMark(s, id, max, p, i);
    }
  }

  // ------------------------------------------------------------ and it happens

  /** After `n` workers leased the row and died, one after the other. */
  ghost predicate Dying(s: Sys, n: nat) {
    && s.wiring == PublisherPerPass && s.rows.Keys == {0} && s.rows[0].attempts == n
    && s.rows[0].publishedAs.None? && !s.rows[0].dead && (n > 0 ==> s.rows[0].lockedBy.Some?)
    && (n == 0 ==> s.rows[0].lockedBy.None?)
    && (forall p :: p in s.procs ==> p < n && s.procs[p].todo == [])
  }

  /** A new worker that leases the row. */
  lemma LeaseTheRow(s: Sys, n: nat, max: nat)
    requires s.rows.Keys == {0} && Leasable(s.rows[0], s.now, max) && n in s.procs && s.procs[n] == Fresh("w")
    ensures Enabled(s, LeaseBatch(n, [0], 30000, max))
    ensures var t := Next(s, LeaseBatch(n, [0], 30000, max));
      && t.wiring == s.wiring && t.rows.Keys == {0} && t.rows[0] == s.rows[0].(lockedBy := Some("w"), lockedUntil := s.now + 30000, attempts := s.rows[0].attempts + 1)
      && t.procs.Keys == s.procs.Keys && (forall p :: p in s.procs && p != n ==> t.procs[p] == s.procs[p])
  {
    assert 0 in [0] && 0 in (set i | i in [0]);
  }

  /** Waiting until the row's lease, if any, has run out. */
  lemma LeaseRunsOut(s: Sys, n: nat) returns (wait: nat)
    requires Dying(s, n)
    ensures var t := Next(s, Tick(wait)); Dying(t, n) && t.procs == s.procs && forall max: nat :: n < max ==> Leasable(t.rows[0], t.now, max)
  {
    wait := if s.rows[0].lockedUntil < s.now then 0 else s.rows[0].lockedUntil - s.now + 1;
  }

  /** A new worker appears, leases the row and dies. */
  lemma LeasesAndDies(s: Sys, n: nat, max: nat) returns (t: Sys)
    requires Dying(s, n) && n < max && Leasable(s.rows[0], s.now, max)
    ensures Dying(t, n + 1) && ReachesBy(s, t, Under(max))
  {
    var s2 := Next(s, Spawn(n, "w"));
    HopBy(s, Spawn(n, "w"), Under(max));
    LeaseTheRow(s2, n, max);
    var s3 := Next(s2, LeaseBatch(n, [0], 30000, max));
    OnwardBy(s, s2, LeaseBatch(n, [0], 30000, max), Under(max));
    t := DiesThen(s, s3, n, max);
  }

  lemma DiesThen(s: Sys, s3: Sys, n: nat, max: nat) returns (t: Sys)
    requires ReachesBy(s, s3, Under(max)) && n in s3.procs
    requires s3.wiring == PublisherPerPass && s3.rows.Keys == {0} && s3.rows[0].attempts == n + 1
    requires s3.rows[0].publishedAs.None? && !s3.rows[0].dead && s3.rows[0].lockedBy.Some?
    requires forall p :: p in s3.procs && p != n ==> p < n && s3.procs[p].todo == []
    ensures Dying(t, n + 1) && ReachesBy(s, t, Under(max))
  {
    OnwardBy(s, s3, Die(n), Under(max));
    t := Next(s3, Die(n));
  }

  lemma OneMoreDies(s: Sys, n: nat, max: nat) returns (t: Sys)
    requires Dying(s, n) && n < max
    ensures Dying(t, n + 1) && ReachesBy(s, t, Under(max))
  {
    var wait := LeaseRunsOut(s, n);
    var s1 := Next(s, Tick(wait));
    HopBy(s, Tick(wait), Under(max));
    t := LeasesAndDies(s1, n, max);
    ChainBy(s, s1, t, Under(max));
  }

  lemma {:induction false} AllDie(body: Body, n: nat, max: nat) returns (t: Sys)
    requires n <= max
    ensures Dying(t, n) && ReachesBy(Empty(PublisherPerPass), t, Under(max))
    decreases n
  {
    if n == 0 {
      t := Next(Empty(PublisherPerPass), Produce(0, "e", body));
      HopBy(Empty(PublisherPerPass), Produce(0, "e", body), Under(max));
    } else {
      var s := AllDie(body, n - 1, max);
      t := OneMoreDies(s, n - 1, max);
      ChainBy(Empty(PublisherPerPass), s, t, Under(max));
    }
  }

  /**
   * For every attempt ceiling there is a run of the shipped relay after which a row is
   * neither published nor parked, and stays so in every continuation.
   */
  lemma StuckRowIsReachable(body: Body, max: nat) returns (s: Sys)
    requires max > 0
    ensures ReachesBy(Empty(PublisherPerPass), s, Under(max))
    ensures LastAttempt(s, 0, max) && !s.rows[0].dead && !CanChange(s, 0, max)
  {
    s := AllDie(body, max, max);
    forall p ensures !AttendedBy(s, 0, p) {}
    forall t | ReachesBy(s, t, Under(max)) ensures 0 in t.rows && t.rows[0] == s.rows[0] {
      var steps :| Legal(s, steps) && All(steps, Under(max)) && Run(s, steps) == t;
      UnattendedStays(s, steps, 0, max);
    }
  }
}
