/** A list of numbered ids that a confirmation pushes a new id onto, and what leaves it for good. */
module OrderLists {
  import opened Text
  import opened Records
  import opened Booking
  import opened BookingProofs

  /** Pushing again and again. */
  function Iterate(push: Ledger -> Ledger, l: Ledger, m: nat): Ledger
    decreases m
  {
    if m == 0 then l else Iterate(push, push(l), m - 1)
  }

  ghost predicate ListOk(l: Ledger) {
    Distinct(l.ids) && |l.ids| <= ORDER_HISTORY_LIMIT
  }

  /** The least number ahead of the counter that is free goes to the front; the eightieth id falls out. */
  ghost predicate PushesTo(name: nat -> Text, l: Ledger, l': Ledger) {
    && ListOk(l') && l'.sequence > l.sequence
    && name(l'.sequence) !in l.ids && l'.ids == Newest(name(l'.sequence), l.ids, ORDER_HISTORY_LIMIT)
    && (forall k: nat :: l.sequence < k < l'.sequence ==> name(k) in l.ids)
  }

  ghost predicate PushesAt(push: Ledger -> Ledger, name: nat -> Text, l: Ledger) {
    ListOk(l) ==> PushesTo(name, l, push(l))
  }

  ghost predicate Pushes(push: Ledger -> Ledger, name: nat -> Text) {
    forall l :: PushesAt(push, name, l)
  }

  ghost predicate Injective(name: nat -> Text) {
    forall m: nat, n: nat :: name(m) == name(n) ==> m == n
  }

  /** The id carries a number ahead of the counter. */
  ghost predicate Ahead(name: nat -> Text, id: Text, sequence: nat) {
    exists k: nat :: k > sequence && id == name(k)
  }

  lemma {:induction false} IterateAdds(push: Ledger -> Ledger, l: Ledger, a: nat, b: nat)
    ensures Iterate(push, l, a + b) == Iterate(push, Iterate(push, l, a), b)
    decreases a
  {
    if a > 0 {
      IterateAdds(push, push(l), a - 1, b);
    }
  }

  lemma IterateOnce(push: Ledger -> Ledger, l: Ledger)
    ensures Iterate(push, l, 1) == push(l)
  {
    assert Iterate(push, push(l), 0) == push(l);
  }

  lemma {:induction false} SequenceGrows(push: Ledger -> Ledger, name: nat -> Text, l: Ledger, m: nat)
    requires Pushes(push, name) && ListOk(l)
    ensures Iterate(push, l, m).sequence >= l.sequence + m && ListOk(Iterate(push, l, m))
    decreases m
  {
    if m > 0 {
      assert PushesAt(push, name, l);
      SequenceGrows(push, name, push(l), m - 1);
    }
  }

  /** The id at position `i` moves down by one, or is gone from the last position. */
  lemma PushMoves(name: nat -> Text, l: Ledger, l': Ledger, i: nat)
    requires ListOk(l) && PushesTo(name, l, l') && i < |l.ids|
    ensures if i + 1 < ORDER_HISTORY_LIMIT then i + 1 < |l'.ids| && l'.ids[i + 1] == l.ids[i] else l.ids[i] !in l'.ids
  {
    var id := name(l'.sequence);
    var all := [id] + l.ids;
    assert all[i + 1] == l.ids[i];
    if i + 1 == ORDER_HISTORY_LIMIT {
      DistinctCons(id, l.ids);
      assert forall j :: 0 <= j < |l'.ids| ==> l'.ids[j] == all[j] && all[j] != all[i + 1];
    }
  }

  lemma {:induction false} MovesDown(push: Ledger -> Ledger, name: nat -> Text, l: Ledger, i: nat, m: nat)
    requires Pushes(push, name) && ListOk(l) && i < |l.ids| && i + m < ORDER_HISTORY_LIMIT
    ensures i + m < |Iterate(push, l, m).ids| && Iterate(push, l, m).ids[i + m] == l.ids[i]
    decreases m
  {
    if m > 0 {
      assert PushesAt(push, name, l);
      PushMoves(name, l, push(l), i);
      MovesDown(push, name, push(l), i + 1, m - 1);
    }
  }

  /** After exactly 80 - i pushes the id at position `i` has left the list. */
  lemma LeavesList(push: Ledger -> Ledger, name: nat -> Text, l: Ledger, i: nat)
    requires Pushes(push, name) && ListOk(l) && i < |l.ids|
    ensures i < ORDER_HISTORY_LIMIT && l.ids[i] !in Iterate(push, l, ORDER_HISTORY_LIMIT - i).ids
  {
    var m := ORDER_HISTORY_LIMIT - 1 - i;
    var last := Iterate(push, l, m);
    MovesDown(push, name, l, i, m);
    SequenceGrows(push, name, l, m);
    assert PushesAt(push, name, last);
    PushMoves(name, last, push(last), ORDER_HISTORY_LIMIT - 1);
    IterateAdds(push, l, m, 1);
    IterateOnce(push, last);
  }

  lemma PushAdds(name: nat -> Text, l: Ledger, l': Ledger, id: Text)
    requires PushesTo(name, l, l') && id !in l.ids && id in l'.ids
    ensures id == name(l'.sequence)
  {
    assert id in [name(l'.sequence)] + l.ids;
  }

  /** An id that was not listed and is listed later carries a number given out since. */
  lemma {:induction false} ListedSince(push: Ledger -> Ledger, name: nat -> Text, l: Ledger, m: nat, id: Text)
    requires Pushes(push, name) && ListOk(l) && id !in l.ids && id in Iterate(push, l, m).ids
    ensures Ahead(name, id, l.sequence)
    decreases m
  {
    if m > 0 {
      assert PushesAt(push, name, l);
      if id in push(l).ids {
        PushAdds(name, l, push(l), id);
      } else {
        ListedSince(push, name, push(l), m - 1, id);
        var k: nat :| k > push(l).sequence && id == name(k);
        assert k > l.sequence;
      }
    }
  }

  /** A free number ahead of the counter is given out in the end. */
  lemma {:induction false} ComesUp(push: Ledger -> Ledger, name: nat -> Text, l: Ledger, k: nat) returns (m: nat)
    requires Pushes(push, name) && Injective(name) && ListOk(l) && name(k) !in l.ids && l.sequence < k
    ensures name(k) in Iterate(push, l, m).ids
    decreases k - l.sequence
  {
    var l' := push(l);
    assert PushesAt(push, name, l);
    if l'.sequence == k {
      m := 1;
      IterateOnce(push, l);
      assert l'.ids[0] == name(k);
    } else {
      assert l'.sequence < k;
      if name(k) in l'.ids {
        PushAdds(name, l, l', name(k));
        assert false;
      }
      m := ComesUp(push, name, l', k);
      m := m + 1;
    }
  }

  /** While no number short of `k` is listed, the counter counts. */
  lemma {:induction false} Counts(push: Ledger -> Ledger, name: nat -> Text, l: Ledger, k: nat, m: nat)
    requires Pushes(push, name) && Injective(name) && ListOk(l) && l.sequence + m < k
    requires forall n: nat :: l.sequence < n < k ==> name(n) !in l.ids
    ensures Iterate(push, l, m).sequence == l.sequence + m
    decreases m
  {
    if m > 0 {
      var l' := push(l);
      assert PushesAt(push, name, l);
      assert name(l.sequence + 1) !in l.ids;
      assert l'.sequence == l.sequence + 1;
      forall n: nat | l'.sequence < n < k ensures name(n) !in l'.ids {
        if name(n) in l'.ids { PushAdds(name, l, l', name(n)); }
      }
      Counts(push, name, l', k, m - 1);
    }
  }

  /** Every push uses up a number, so one that is at most `m` ahead is passed after `m` pushes. */
  lemma PassedAfter(push: Ledger -> Ledger, name: nat -> Text, l: Ledger, id: Text, k: nat, m: nat)
    requires Pushes(push, name) && Injective(name) && ListOk(l) && id == name(k) && k <= l.sequence + m
    ensures !Ahead(name, id, Iterate(push, l, m).sequence)
  {
    SequenceGrows(push, name, l, m);
  }

  lemma AheadAfter(push: Ledger -> Ledger, name: nat -> Text, l: Ledger, id: Text, k: nat, m: nat)
    requires Pushes(push, name) && Injective(name) && ListOk(l) && id == name(k) && k > l.sequence + m
    requires forall n: nat :: l.sequence < n < k ==> name(n) !in l.ids
    ensures Ahead(name, id, Iterate(push, l, m).sequence)
  {
    Counts(push, name, l, k, m);
  }

  /** Listed after it was pushed out means listed again, with a number that was still ahead then. */
  lemma GoneAndBack(push: Ledger -> Ledger, name: nat -> Text, l: Ledger, i: nat, m: nat)
    requires Pushes(push, name) && ListOk(l) && i < |l.ids| && m >= ORDER_HISTORY_LIMIT - i && l.ids[i] in Iterate(push, l, m).ids
    ensures Ahead(name, l.ids[i], Iterate(push, l, ORDER_HISTORY_LIMIT - i).sequence)
  {
    var m0 := ORDER_HISTORY_LIMIT - i;
    LeavesList(push, name, l, i);
    SequenceGrows(push, name, l, m0);
    IterateAdds(push, l, m0, m - m0);
    ListedSince(push, name, Iterate(push, l, m0), m - m0, l.ids[i]);
  }

  // ------------------------------------------------------------ runs that push

  /** The listed order ids and the last number used. Only a confirmation changes either. */
  function OrderLedger(s: Session): Ledger {
    Ledger(OrderIds(s.orders), s.orderSequence)
  }

  /** A step leaves the ledger alone or pushes onto it once, and the generation counts the pushes. */
  ghost predicate StepsBy(push: Ledger -> Ledger, s: Session, t: Session) {
    || (t.draftGeneration == s.draftGeneration && OrderLedger(t) == OrderLedger(s))
    || (t.draftGeneration == s.draftGeneration + 1 && OrderLedger(t) == push(OrderLedger(s)))
  }

  /** Running commands one after the other. */
  function RunBy(step: (Session, Command) -> Session, s: Session, commands: seq<Command>): Session
    decreases commands
  {
    if commands == [] then s else RunBy(step, step(s, commands[0]), commands[1..])
  }

  lemma {:induction false} RunByConcat(step: (Session, Command) -> Session, s: Session, a: seq<Command>, b: seq<Command>)
    ensures RunBy(step, s, a + b) == RunBy(step, RunBy(step, s, a), b)
    decreases a
  {
    if a == [] {
      assert a + b == b;
    } else {
      assert (a + b)[0] == a[0] && (a + b)[1..] == a[1..] + b;
      RunByConcat(step, step(s, a[0]), a[1..], b);
    }
  }

  /** Every step keeps the invariant, which lists ids once, and does no more to them than push. */
  ghost predicate OnlyPushes(step: (Session, Command) -> Session, inv: Session -> bool, push: Ledger -> Ledger) {
    && (forall s, c :: PushesOnceAt(step, inv, push, s, c))
    && (forall s :: inv(s) ==> ListOk(OrderLedger(s)))
  }

  ghost predicate PushesOnceAt(step: (Session, Command) -> Session, inv: Session -> bool, push: Ledger -> Ledger, s: Session, c: Command) {
    inv(s) ==> inv(step(s, c)) && StepsBy(push, s, step(s, c))
  }

  /** From every state some commands push exactly once. */
  ghost predicate CanPush(step: (Session, Command) -> Session, inv: Session -> bool) {
    forall s :: inv(s) ==> exists commands :: RunBy(step, s, commands).draftGeneration == s.draftGeneration + 1
  }

  /** A run does to the listed ids what its confirmations do. */
  lemma {:induction false} RunIterates(step: (Session, Command) -> Session, inv: Session -> bool, push: Ledger -> Ledger, s: Session, commands: seq<Command>)
    requires inv(s) && OnlyPushes(step, inv, push)
    ensures var t := RunBy(step, s, commands);
      inv(t) && t.draftGeneration >= s.draftGeneration && OrderLedger(t) == Iterate(push, OrderLedger(s), t.draftGeneration - s.draftGeneration)
    decreases commands
  {
    if commands != [] {
      assert PushesOnceAt(step, inv, push, s, commands[0]);
      RunIterates(step, inv, push, step(s, commands[0]), commands[1..]);
    }
  }

  lemma {:induction false} PushTimes(step: (Session, Command) -> Session, inv: Session -> bool, push: Ledger -> Ledger, s: Session, m: nat) returns (commands: seq<Command>)
    requires inv(s) && OnlyPushes(step, inv, push) && CanPush(step, inv)
    ensures inv(RunBy(step, s, commands)) && OrderLedger(RunBy(step, s, commands)) == Iterate(push, OrderLedger(s), m)
    decreases m
  {
    if m == 0 {
      commands := [];
    } else {
      var one :| RunBy(step, s, one).draftGeneration == s.draftGeneration + 1;
      RunIterates(step, inv, push, s, one);
      IterateOnce(push, OrderLedger(s));
      var rest := PushTimes(step, inv, push, RunBy(step, s, one), m - 1);
      commands := one + rest;
      RunByConcat(step, s, one, rest);
    }
  }

  /** The order stays in place, or moves down by one with the generation. */
  ghost predicate Shifts(s: Session, t: Session, i: nat)
    requires i < |s.orders|
  {
    || (t.draftGeneration == s.draftGeneration && t.orders == s.orders)
    || (t.draftGeneration == s.draftGeneration + 1 && (i + 1 < ORDER_HISTORY_LIMIT ==> i + 1 < |t.orders| && t.orders[i + 1] == s.orders[i]))
  }

  ghost predicate ShiftsAt(step: (Session, Command) -> Session, inv: Session -> bool, s: Session, c: Command, i: nat) {
    inv(s) && i < |s.orders| ==> inv(step(s, c)) && Shifts(s, step(s, c), i)
  }

  ghost predicate AllShift(step: (Session, Command) -> Session, inv: Session -> bool) {
    forall s, c, i: nat :: ShiftsAt(step, inv, s, c, i)
  }

  /** Until it is pushed out, an order stays in the list as it is, one place further down per confirmation. */
  lemma {:induction false} RunShifts(step: (Session, Command) -> Session, inv: Session -> bool, push: Ledger -> Ledger,
                                     s: Session, commands: seq<Command>, i: nat)
    requires inv(s) && AllShift(step, inv) && OnlyPushes(step, inv, push) && i < |s.orders|
    requires i + (RunBy(step, s, commands).draftGeneration - s.draftGeneration) < ORDER_HISTORY_LIMIT
    ensures var t := RunBy(step, s, commands);
      var at := i + (t.draftGeneration - s.draftGeneration);
      0 <= at < |t.orders| && t.orders[at] == s.orders[i]
    decreases commands
  {
    if commands != [] {
      var t := step(s, commands[0]);
      assert ShiftsAt(step, inv, s, commands[0], i);
      RunIterates(step, inv, push, t, commands[1..]);
      RunShifts(step, inv, push, t, commands[1..], if t.draftGeneration == s.draftGeneration then i else i + 1);
    }
  }

  /** Where the order is now, or nowhere: then what carries its id has a number that was ahead when it left. */
  lemma KeptOrAhead(step: (Session, Command) -> Session, inv: Session -> bool, push: Ledger -> Ledger, name: nat -> Text,
                    s: Session, commands: seq<Command>, i: nat, after: Order) returns (at: Option<nat>)
    requires inv(s) && AllShift(step, inv) && OnlyPushes(step, inv, push) && Pushes(push, name)
    requires i < |s.orders| <= ORDER_HISTORY_LIMIT && after in RunBy(step, s, commands).orders && after.id == s.orders[i].id
    ensures at.Some? ==> at.value < |RunBy(step, s, commands).orders| && RunBy(step, s, commands).orders[at.value] == s.orders[i]
    ensures at.None? ==> Ahead(name, s.orders[i].id, Iterate(push, OrderLedger(s), ORDER_HISTORY_LIMIT - i).sequence)
  {
    var t, l := RunBy(step, s, commands), OrderLedger(s);
    RunIterates(step, inv, push, s, commands);
    var m := t.draftGeneration - s.draftGeneration;
    if i + m < ORDER_HISTORY_LIMIT {
      RunShifts(step, inv, push, s, commands, i);
      at := Some(i + m);
    } else {
      var j :| 0 <= j < |t.orders| && t.orders[j] == after;
      assert OrderIds(t.orders)[j] == l.ids[i];
      GoneAndBack(push, name, l, i, m);
      at := None;
    }
  }

  /** A run takes the id off the list, and a continuation lists it again. */
  ghost predicate ReturnsBy(step: (Session, Command) -> Session, s: Session, id: Text, first: seq<Command>, rest: seq<Command>) {
    id !in OrderLedger(RunBy(step, s, first)).ids && id in OrderLedger(RunBy(step, RunBy(step, s, first), rest)).ids
  }

  lemma ReturnsOnlyIfAhead(step: (Session, Command) -> Session, inv: Session -> bool, push: Ledger -> Ledger, name: nat -> Text,
                           s: Session, i: nat, first: seq<Command>, rest: seq<Command>)
    requires inv(s) && OnlyPushes(step, inv, push) && Pushes(push, name)
    requires i < |OrderLedger(s).ids| && ReturnsBy(step, s, OrderLedger(s).ids[i], first, rest)
    ensures i < ORDER_HISTORY_LIMIT && Ahead(name, OrderLedger(s).ids[i], Iterate(push, OrderLedger(s), ORDER_HISTORY_LIMIT - i).sequence)
  {
    var l, t := OrderLedger(s), RunBy(step, s, first);
    var u := RunBy(step, t, rest);
    RunIterates(step, inv, push, s, first);
    RunIterates(step, inv, push, t, rest);
    var m1, m2 := t.draftGeneration - s.draftGeneration, u.draftGeneration - t.draftGeneration;
    IterateAdds(push, l, m1, m2);
    if m1 < ORDER_HISTORY_LIMIT - i {
      MovesDown(push, name, l, i, m1);
      assert false;
    }
    GoneAndBack(push, name, l, i, m1 + m2);
  }

  lemma ReturnsIfAhead(step: (Session, Command) -> Session, inv: Session -> bool, push: Ledger -> Ledger, name: nat -> Text, s: Session, i: nat)
    returns (first: seq<Command>, rest: seq<Command>)
    requires inv(s) && OnlyPushes(step, inv, push) && CanPush(step, inv) && Pushes(push, name) && Injective(name)
    requires i < |OrderLedger(s).ids| <= ORDER_HISTORY_LIMIT
    requires Ahead(name, OrderLedger(s).ids[i], Iterate(push, OrderLedger(s), ORDER_HISTORY_LIMIT - i).sequence)
    ensures ReturnsBy(step, s, OrderLedger(s).ids[i], first, rest)
  {
    var l, m0 := OrderLedger(s), ORDER_HISTORY_LIMIT - i;
    var k: nat :| k > Iterate(push, l, m0).sequence && l.ids[i] == name(k);
    LeavesList(push, name, l, i);
    SequenceGrows(push, name, l, m0);
    first := PushTimes(step, inv, push, s, m0);
    var m := ComesUp(push, name, Iterate(push, l, m0), k);
    rest := PushTimes(step, inv, push, RunBy(step, s, first), m);
  }
}

/** When the id of an order that left the list can be given out again, exactly. */
module BookingOrders {
  import opened Text
  import opened Scheduling
  import opened BookingDraft
  import opened Records
  import opened Booking
  import opened BookingProofs
  import opened OrderLists

  /** What one confirmation does to them. */
  function Advance(l: Ledger): Ledger {
    var n := NextNumber(l.ids, l.sequence);
    Ledger(Newest(OrderId(n), l.ids, ORDER_HISTORY_LIMIT), n)
  }

  lemma AdvancePushes(l: Ledger)
    requires ListOk(l)
    ensures PushesTo(OrderId, l, Advance(l))
  {
    NewestDistinct(OrderId(NextNumber(l.ids, l.sequence)), l.ids);
  }

  lemma OrderIdInjective()
    ensures Injective(OrderId)
  {
    forall m: nat, n: nat | OrderId(m) == OrderId(n) ensures m == n {
      NumberedInjective(ORDER_PREFIX, m, n);
    }
  }

  // ------------------------------------------------------------ runs of commands

  function Do(s: Session, c: Command): Session {
    Apply(s, c).state
  }

  lemma {:induction false} RunIsRunBy(s: Session, commands: seq<Command>)
    ensures Run(s, commands) == RunBy(Do, s, commands)
    decreases commands
  {
    if commands != [] {
      RunIsRunBy(Do(s, commands[0]), commands[1..]);
    }
  }

  lemma AcceptedAdvances(s: Session, c: ConfirmCommand)
    requires Accepts(s, c)
    ensures OrderLedger(Accepted(s, c).state) == Advance(OrderLedger(s)) && Accepted(s, c).state.draftGeneration == s.draftGeneration + 1
  {
    MadeOrderName(s, c);
    NewestIds(MadeOrder(s, c), s.orders);
  }

  lemma ConfirmAdvances(s: Session, c: ConfirmCommand)
    requires ReceiptsOk(s)
    ensures StepsBy(Advance, s, ConfirmBooking(s, c).state)
  {
    CreatedIff(s, c);
    if Accepts(s, c) {
      ConfirmAccepts(s, c);
      AcceptedAdvances(s, c);
    } else {
      OnlyCreationRecords(s, c);
    }
  }

  lemma StepAdvances(s: Session, c: Command)
    requires ReceiptsOk(s)
    ensures StepsBy(Advance, s, Apply(s, c).state)
  {
    if c.Confirm? {
      ConfirmAdvances(s, c.confirm);
    } else if !ChangesBooks(c) {
      DraftCommandsKeepBooks(s, c);
    }
  }

  lemma CommandsOnlyPush()
    ensures OnlyPushes(Do, Inv, Advance)
  {
    forall s, c ensures PushesOnceAt(Do, Inv, Advance, s, c) {
      if Inv(s) {
        ApplyKeeps(s, c);
        StepAdvances(s, c);
      }
    }
    forall s | Inv(s) ensures ListOk(OrderLedger(s)) {}
  }

  lemma AllAdvancesPush()
    ensures Pushes(Advance, OrderId)
  {
    forall l ensures PushesAt(Advance, OrderId, l) {
      if ListOk(l) { AdvancePushes(l); }
    }
  }

  lemma {:induction false} RunConcat(s: Session, a: seq<Command>, b: seq<Command>)
    ensures Run(s, a + b) == Run(Run(s, a), b)
    decreases a
  {
    if a == [] {
      assert a + b == b;
    } else {
      assert (a + b)[0] == a[0] && (a + b)[1..] == a[1..] + b;
      RunConcat(Apply(s, a[0]).state, a[1..], b);
    }
  }

  function EditCommands(es: seq<Edit>): (cs: seq<Command>)
    ensures |cs| == |es| && forall i :: 0 <= i < |es| ==> cs[i] == EditDraft(es[i])
  {
    seq(|es|, i requires 0 <= i < |es| => EditDraft(es[i]))
  }

  function EditedAll(d: Draft, es: seq<Edit>): Draft
    decreases es
  {
    if es == [] then d else EditedAll(Edited(d, es[0]), es[1..])
  }

  lemma {:induction false} EditsRun(s: Session, es: seq<Edit>)
    requires Inv(s)
    ensures var t := Run(s, EditCommands(es)); Inv(t) && SameBooks(s, t) && t.draft == EditedAll(s.draft, es)
    decreases es
  {
    if es != [] {
      var t := Apply(s, EditDraft(es[0])).state;
      ApplyKeeps(s, EditDraft(es[0]));
      DraftCommandsKeepBooks(s, EditDraft(es[0]));
      assert EditCommands(es)[1..] == EditCommands(es[1..]);
      EditsRun(t, es[1..]);
    }
  }

  const AT := Instant(0, 0)
  const QUOTE := Quoted(Finite(0.0), Finite(1.0))

  const QUICK := [SelectVehicleType(Sedan), ChangePlate([]), SelectCare(Exterior, []), ChooseSample(SampleHome), ChooseEarliest(AT), FillDemo, SelectPayment(Cash)]

  lemma QuickEdits(d: Draft)
    ensures EditedAll(d, QUICK) == QuickDraft(d, AT)
  {
    var d1 := Edited(d, QUICK[0]);
    var d2 := Edited(d1, QUICK[1]);
    var d3 := Edited(d2, QUICK[2]);
    var d4 := Edited(d3, QUICK[3]);
    var d5 := Edited(d4, QUICK[4]);
    var d6 := Edited(d5, QUICK[5]);
    var d7 := Edited(d6, QUICK[6]);
    LastEdits(d7, []);
    LastEdits(d6, QUICK[6..]);
    LastEdits(d5, QUICK[5..]);
    LastEdits(d4, QUICK[4..]);
    LastEdits(d3, QUICK[3..]);
    LastEdits(d2, QUICK[2..]);
    LastEdits(d1, QUICK[1..]);
    LastEdits(d, QUICK);
  }

  lemma LastEdits(d: Draft, es: seq<Edit>)
    ensures EditedAll(d, es) == if es == [] then d else EditedAll(Edited(d, es[0]), es[1..])
  {
  }

  lemma AcceptedCounts(t: Session, c: ConfirmCommand)
    requires Accepts(t, c)
    ensures Accepted(t, c).state.draftGeneration == t.draftGeneration + 1
  {
  }

  lemma ApplyChanges(t: Session, c: Command)
    requires ChangesBooks(c)
    ensures Apply(t, c) == ChangeBooks(t, c)
  {
  }

  lemma ConfirmChanges(t: Session, c: Command)
    requires c.Confirm?
    ensures ChangeBooks(t, c).state == ConfirmBooking(t, c.confirm).state
  {
  }

  lemma Confirms(t: Session, c: Command)
    requires c.Confirm? && ReceiptsOk(t) && Accepts(t, c.confirm)
    ensures Apply(t, c).state.draftGeneration == t.draftGeneration + 1
  {
    ApplyChanges(t, c);
    ConfirmChanges(t, c);
    ConfirmAccepts(t, c.confirm);
    AcceptedCounts(t, c.confirm);
  }

  lemma QuickRun(s: Session)
    requires Inv(s)
    ensures var t := Run(s, EditCommands(QUICK)); Inv(t) && t.draftGeneration == s.draftGeneration && Confirmable(t.draft, AT)
  {
    EditsRun(s, QUICK);
    QuickEdits(s.draft);
    QuickDraftConfirmable(s.draft, AT);
  }

  /** One journey from any session: seven edits and a confirmation make one order. */
  lemma OneJourney(s: Session) returns (commands: seq<Command>)
    requires Inv(s)
    ensures Run(s, commands).draftGeneration == s.draftGeneration + 1
  {
    var edits := EditCommands(QUICK);
    var t := Run(s, edits);
    QuickRun(s);
    AcceptsNow(t, AT, QUOTE, []);
    var last := Confirm(ConfirmNow(t, AT, QUOTE, []));
    Confirms(t, last);
    commands := edits + [last];
    RunConcat(s, edits, [last]);
    OneCommand(t, last);
  }

  lemma OneCommand(s: Session, c: Command)
    ensures Run(s, [c]) == Apply(s, c).state
  {
    assert [c][1..] == [];
    assert Run(Apply(s, c).state, []) == Apply(s, c).state;
  }

  lemma AlwaysAnotherOrder()
    ensures CanPush(Do, Inv)
  {
    forall s | Inv(s) ensures exists commands :: RunBy(Do, s, commands).draftGeneration == s.draftGeneration + 1 {
      var commands := OneJourney(s);
      RunIsRunBy(s, commands);
    }
  }

  // ------------------------------------------------------------ the exact condition

  /** Some run takes the id off the list, and some continuation lists it again. */
  ghost predicate Returns(s: Session, id: Text) {
    exists first, rest :: GoesAndReturns(s, id, first, rest)
  }

  ghost predicate GoesAndReturns(s: Session, id: Text, first: seq<Command>, rest: seq<Command>) {
    id !in OrderIds(Run(s, first).orders) && id in OrderIds(Run(Run(s, first), rest).orders)
  }

  lemma ReturnsEither(s: Session, id: Text, first: seq<Command>, rest: seq<Command>)
    ensures GoesAndReturns(s, id, first, rest) <==> ReturnsBy(Do, s, id, first, rest)
  {
    RunIsRunBy(s, first);
    RunIsRunBy(Run(s, first), rest);
  }

  /** When the order at position `i` falls out of the list, its number is still ahead of the counter. */
  ghost predicate StillAhead(s: Session, i: nat)
    requires i < |s.orders| <= ORDER_HISTORY_LIMIT
  {
    Ahead(OrderId, s.orders[i].id, Iterate(Advance, OrderLedger(s), ORDER_HISTORY_LIMIT - i).sequence)
  }

  /**
   * The exact condition. An order that is listed can leave the list and have its id given
   * out again if and only if its number is still ahead of the counter after the 80 - i
   * confirmations that push it out; a number the counter has passed by then, or had passed
   * before, never comes back. Sessions the app starts with list no number ahead.
   */
  lemma OrderIdReturnsIff(s: Session, i: nat)
    requires Inv(s) && i < |s.orders|
    ensures Returns(s, s.orders[i].id) <==> StillAhead(s, i)
  {
    CommandsOnlyPush();
    AllAdvancesPush();
    OrderIdInjective();
    AlwaysAnotherOrder();
    if Returns(s, s.orders[i].id) {
      var first, rest :| GoesAndReturns(s, s.orders[i].id, first, rest);
      ReturnsEither(s, s.orders[i].id, first, rest);
      ReturnsOnlyIfAhead(Do, Inv, Advance, OrderId, s, i, first, rest);
    }
    if StillAhead(s, i) {
      var first, rest := ReturnsIfAhead(Do, Inv, Advance, OrderId, s, i);
      ReturnsEither(s, s.orders[i].id, first, rest);
    }
  }

  /**
   * A bound to check beforehand: an order whose number is at most 80 - i ahead of the
   * counter never returns, since every confirmation uses up a number. An order with the
   * very next number is ahead of the counter and still never returns.
   */
  lemma TooCloseToReturn(s: Session, i: nat, k: nat)
    requires Inv(s) && i < |s.orders| && s.orders[i].id == OrderId(k) && k <= s.orderSequence + (ORDER_HISTORY_LIMIT - i)
    ensures !Returns(s, s.orders[i].id)
  {
    CloseIsPassed(s, i, k);
    OrderIdReturnsIff(s, i);
  }

  lemma CloseIsPassed(s: Session, i: nat, k: nat)
    requires OrdersOk(s) && i < |s.orders| && s.orders[i].id == OrderId(k) && k <= s.orderSequence + (ORDER_HISTORY_LIMIT - i)
    ensures !StillAhead(s, i)
  {
    AllAdvancesPush();
    OrderIdInjective();
    LedgerListed(s);
    PassedAfter(Advance, OrderId, OrderLedger(s), s.orders[i].id, k, ORDER_HISTORY_LIMIT - i);
  }

  /** The condition in closed form, when no other listed number lies between the counter and this one. */
  lemma LoneNumberReturnsIff(s: Session, i: nat, k: nat)
    requires Inv(s) && i < |s.orders| && s.orders[i].id == OrderId(k)
    requires forall n: nat :: s.orderSequence < n < k ==> OrderId(n) !in OrderIds(s.orders)
    ensures Returns(s, s.orders[i].id) <==> k > s.orderSequence + (ORDER_HISTORY_LIMIT - i)
  {
    if k > s.orderSequence + (ORDER_HISTORY_LIMIT - i) {
      LoneNumberStaysAhead(s, i, k);
      OrderIdReturnsIff(s, i);
    } else {
      TooCloseToReturn(s, i, k);
    }
  }

  lemma LoneNumberStaysAhead(s: Session, i: nat, k: nat)
    requires OrdersOk(s) && i < |s.orders| && s.orders[i].id == OrderId(k) && k > s.orderSequence + (ORDER_HISTORY_LIMIT - i)
    requires forall n: nat :: s.orderSequence < n < k ==> OrderId(n) !in OrderIds(s.orders)
    ensures StillAhead(s, i)
  {
    AllAdvancesPush();
    OrderIdInjective();
    LedgerListed(s);
    AheadAfter(Advance, OrderId, OrderLedger(s), s.orders[i].id, k, ORDER_HISTORY_LIMIT - i);
  }

  lemma LedgerListed(s: Session)
    requires OrdersOk(s)
    ensures ListOk(OrderLedger(s))
  {
  }

  /** In particular an id whose number is not ahead of the counter is never given out again. */
  lemma OrderIdNeverReissued(s: Session, first: seq<Command>, rest: seq<Command>, id: Text)
    requires Inv(s) && id in OrderIds(s.orders) && id !in OrderIds(Run(s, first).orders) && !Beyond(id, s.orderSequence)
    ensures id !in OrderIds(Run(Run(s, first), rest).orders)
  {
    RunKeeps(s, first);
    RunKeeps(Run(s, first), rest);
    UnlistedStaysUnlisted(s, Run(s, first), Run(Run(s, first), rest), id);
  }

  lemma UnlistedStaysUnlisted(s: Session, t: Session, u: Session, id: Text)
    requires OrdersFollow(s, t) && OrdersFollow(t, u) && id !in OrderIds(t.orders) && !Beyond(id, s.orderSequence)
    ensures id !in OrderIds(u.orders)
  {
    forall i | 0 <= i < |u.orders| ensures OrderIds(u.orders)[i] != id {
      assert u.orders[i] in u.orders;
      if u.orders[i] in t.orders {
        var j :| 0 <= j < |t.orders| && t.orders[j] == u.orders[i];
        assert OrderIds(t.orders)[j] == u.orders[i].id;
      } else {
        var n: nat :| t.orderSequence < n <= u.orderSequence && u.orders[i].id == OrderId(n);
        assert n > s.orderSequence;
      }
    }
  }

  // ------------------------------------------------------------ snapshots

  lemma NewestShifts(o: Order, orders: seq<Order>, i: nat)
    requires i < |orders| && i + 1 < ORDER_HISTORY_LIMIT
    ensures var r := Newest(o, orders, ORDER_HISTORY_LIMIT); i + 1 < |r| && r[i + 1] == orders[i]
  {
    assert ([o] + orders)[i + 1] == orders[i];
  }

  lemma AcceptedShifts(s: Session, c: ConfirmCommand, i: nat)
    requires Accepts(s, c) && i < |s.orders|
    ensures Shifts(s, Accepted(s, c).state, i)
  {
    if i + 1 < ORDER_HISTORY_LIMIT {
      NewestShifts(MadeOrder(s, c), s.orders, i);
    }
  }

  lemma StepShifts(s: Session, c: Command, i: nat)
    requires ReceiptsOk(s) && i < |s.orders|
    ensures Shifts(s, Apply(s, c).state, i)
  {
    if c.Confirm? {
      CreatedIff(s, c.confirm);
      if Accepts(s, c.confirm) {
        ConfirmAccepts(s, c.confirm);
        AcceptedShifts(s, c.confirm, i);
      } else {
        OnlyCreationRecords(s, c.confirm);
      }
    } else if !ChangesBooks(c) {
      DraftCommandsKeepBooks(s, c);
    }
  }

  lemma CommandsShift()
    ensures AllShift(Do, Inv)
  {
    forall s, c, i: nat ensures ShiftsAt(Do, Inv, s, c, i) {
      if Inv(s) && i < |s.orders| {
        ApplyKeeps(s, c);
        StepShifts(s, c, i);
      }
    }
  }

  lemma SameOrderAt(t: Session, at: nat, after: Order)
    requires OrdersOk(t) && at < |t.orders| && after in t.orders && after.id == t.orders[at].id
    ensures after == t.orders[at]
  {
    var j :| 0 <= j < |t.orders| && t.orders[j] == after;
    assert OrderIds(t.orders)[j] == after.id && OrderIds(t.orders)[at] == after.id;
  }

  /**
   * A listed order is never changed, over any run and from any session: whatever is listed
   * under its id later is the very same order, unless its id is one that can return.
   */
  lemma SnapshotsNeverChange(s: Session, commands: seq<Command>, i: nat, after: Order)
    requires Inv(s) && i < |s.orders| && after in Run(s, commands).orders && after.id == s.orders[i].id
    ensures after == s.orders[i] || Returns(s, s.orders[i].id)
  {
    CommandsOnlyPush();
    AllAdvancesPush();
    CommandsShift();
    RunIsRunBy(s, commands);
    RunKeeps(s, commands);
    var at := KeptOrAhead(Do, Inv, Advance, OrderId, s, commands, i, after);
    if at.Some? {
      SameOrderAt(Run(s, commands), at.value, after);
    } else {
      OrderIdReturnsIff(s, i);
    }
  }
}
