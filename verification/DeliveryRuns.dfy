/** Putting runs of the delivery system together. */
module DeliveryRuns {
  import opened Delivery

  lemma {:induction false} RunConcat(s: Sys, a: seq<Step>, b: seq<Step>)
    requires Legal(s, a) && Legal(Run(s, a), b)
    ensures Legal(s, a + b) && Run(s, a + b) == Run(Run(s, a), b)
    decreases a
  {
    if a == [] {
      assert a + b == b;
    } else {
      assert (a + b)[0] == a[0] && (a + b)[1..] == a[1..] + b;
      RunConcat(Next(s, a[0]), a[1..], b);
    }
  }

  lemma OneStep(s: Sys, step: Step)
    requires Enabled(s, step)
    ensures Legal(s, [step]) && Run(s, [step]) == Next(s, step)
  {
    assert [step][1..] == [];
    assert Legal(Next(s, step), [step][1..]);
  }

  // ------------------------------------------------------------ runs of a kind of step

  ghost predicate All(steps: seq<Step>, kind: Step -> bool) {
    forall i :: 0 <= i < |steps| ==> kind(steps[i])
  }

  ghost predicate ReachesBy(s: Sys, s': Sys, kind: Step -> bool) {
    exists steps :: Legal(s, steps) && All(steps, kind) && Run(s, steps) == s'
  }

  lemma StayBy(s: Sys, kind: Step -> bool)
    ensures ReachesBy(s, s, kind)
  {
    assert Legal(s, []) && All([], kind) && Run(s, []) == s;
  }

  lemma HopBy(s: Sys, step: Step, kind: Step -> bool)
    requires Enabled(s, step) && kind(step)
    ensures ReachesBy(s, Next(s, step), kind)
  {
    OneStep(s, step);
    assert All([step], kind);
  }

  lemma ChainBy(a: Sys, b: Sys, c: Sys, kind: Step -> bool)
    requires ReachesBy(a, b, kind) && ReachesBy(b, c, kind)
    ensures ReachesBy(a, c, kind)
  {
    var x :| Legal(a, x) && All(x, kind) && Run(a, x) == b;
    var y :| Legal(b, y) && All(y, kind) && Run(b, y) == c;
    RunConcat(a, x, y);
    assert All(x + y, kind);
  }

  lemma OnwardBy(a: Sys, b: Sys, step: Step, kind: Step -> bool)
    requires ReachesBy(a, b, kind) && Enabled(b, step) && kind(step)
    ensures ReachesBy(a, Next(b, step), kind)
  {
    HopBy(b, step, kind);
    ChainBy(a, b, Next(b, step), kind);
  }

  predicate AnyStep(step: Step) {
    true
  }

  lemma ByAny(a: Sys, b: Sys, kind: Step -> bool)
    requires ReachesBy(a, b, kind)
    ensures ReachesBy(a, b, AnyStep)
  {
    var x :| Legal(a, x) && All(x, kind) && Run(a, x) == b;
    assert All(x, AnyStep);
  }
}
