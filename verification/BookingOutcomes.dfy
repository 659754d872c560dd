/** What every confirmation comes to, and what submitting a step does: exactly, and for every session. */
module BookingOutcomes {
  import opened Text
  import opened Scheduling
  import opened BookingDraft
  import opened Records
  import opened Booking
  import opened BookingProofs

  /** What step `k` asks of a draft that is to be confirmed: a known size and package come first. */
  predicate Asked(d: Draft, k: int, now: Instant) {
    if k == 0 then IsKnownVehicle(d.vehicleType) && (IsKnownPackage(d.service) ==> Met(d, 0, now))
    else if k == 1 then IsKnownPackage(d.service)
    else Met(d, k, now)
  }

  /** The first step at which something is missing. */
  ghost predicate FirstMissing(d: Draft, now: Instant, k: int) {
    0 <= k < REVIEW_STEP && !Asked(d, k, now) && forall j :: 0 <= j < k ==> Asked(d, j, now)
  }

  /** A receipt of this key is kept. */
  ghost predicate Remembered(s: Session, r: Receipt, key: nat) {
    r in s.receipts && r.key == key
  }

  ghost predicate IsNew(s: Session, c: ConfirmCommand) {
    forall i :: 0 <= i < |s.receipts| ==> s.receipts[i].key != c.key
  }

  /** The command confirms the draft of this generation as it stands. */
  ghost predicate IsCurrent(s: Session, c: ConfirmCommand) {
    IsNew(s, c) && c.key == s.draftGeneration && c.fingerprint == DraftFingerprint(s.draft)
  }

  lemma MissingStep(d: Draft, now: Instant, k: int)
    ensures FirstMissing(d, now, k) <==> ConfirmStep(d, now) == k < REVIEW_STEP
    ensures ConfirmStep(d, now) <= REVIEW_STEP && (ConfirmStep(d, now) == REVIEW_STEP ==> IsKnownMethod(d.paymentMethod))
  {
    var step := ConfirmStep(d, now);
    EntryIsFurthest(d, Whole(REVIEW_STEP), now);
    if step < REVIEW_STEP {
      StepIsMissing(d, now, step);
      if FirstMissing(d, now, k) {
        assert k < step ==> Asked(d, k, now);
        assert step < k ==> Asked(d, step, now);
      }
    } else {
      assert forall j :: 0 <= j < REVIEW_STEP ==> Met(d, j, now);
      assert Met(d, 5, now) && Met(d, 0, now);
      assert 0 <= k < REVIEW_STEP ==> Met(d, k, now);
    }
  }

  lemma StepIsMissing(d: Draft, now: Instant, step: int)
    requires step == ConfirmStep(d, now) < REVIEW_STEP
    ensures FirstMissing(d, now, step)
  {
    EntryIsFurthest(d, Whole(REVIEW_STEP), now);
    if IsKnownVehicle(d.vehicleType) && IsKnownPackage(d.service) {
      forall j | 0 <= j < step ensures Asked(d, j, now) {
        assert Met(d, j, now);
      }
    }
  }

  /** A refusal leads to its step, and nothing but the step shown and the edit mode changes. */
  ghost predicate LeadsTo(s: Session, r: ConfirmResult, k: int) {
    r.outcome == Refused(k) && r.intent == Some(GoStep(k)) && r.state == s.(reviewEditing := false, draftStep := Whole(k))
  }

  /** A command for the current draft is decided by the first step that is missing. */
  lemma CurrentIsDecided(s: Session, c: ConfirmCommand)
    requires IsCurrent(s, c)
    ensures ConfirmStep(s.draft, c.now) >= REVIEW_STEP ==> s.draft.slot.Some?
    ensures ConfirmBooking(s, c) == Decide(s, c, ConfirmStep(s.draft, c.now))
  {
    ReviewMeansSlot(s.draft, c.now);
    assert FindReceipt(s.receipts, c.key).None?;
  }

  lemma RefusedAt(s: Session, c: ConfirmCommand, k: int)
    requires IsCurrent(s, c) && FirstMissing(s.draft, c.now, k)
    ensures LeadsTo(s, ConfirmBooking(s, c), k)
  {
    MissingStep(s.draft, c.now, k);
    CurrentIsDecided(s, c);
    DecideAt(s, c, k);
  }

  lemma DecideAt(s: Session, c: ConfirmCommand, k: int)
    requires k < REVIEW_STEP
    ensures LeadsTo(s, Decide(s, c, k), k)
  {
  }

  /** Nothing is missing, and the catalog does not answer: nothing changes. */
  lemma FailedAt(s: Session, c: ConfirmCommand)
    requires IsCurrent(s, c) && Confirmable(s.draft, c.now) && (!IsValidQuote(c.quote) || (s.draft.saveVehicle && c.sizeName.None?))
    ensures ConfirmBooking(s, c) == ConfirmResult(s, None, Failed)
  {
    ConfirmableIffReview(s.draft, c.now);
    CurrentIsDecided(s, c);
    DecideFails(s, c, ConfirmStep(s.draft, c.now));
  }

  lemma DecideFails(s: Session, c: ConfirmCommand, step: int)
    requires step >= REVIEW_STEP && s.draft.slot.Some? && IsKnownMethod(s.draft.paymentMethod)
    requires !IsValidQuote(c.quote) || (s.draft.saveVehicle && c.sizeName.None?)
    ensures Decide(s, c, step) == ConfirmResult(s, None, Failed)
  {
  }

  lemma StaleAt(s: Session, c: ConfirmCommand)
    requires IsNew(s, c) && (c.key != s.draftGeneration || c.fingerprint != DraftFingerprint(s.draft))
    ensures ConfirmBooking(s, c) == ConfirmResult(s, None, Stale)
  {
    assert FindReceipt(s.receipts, c.key).None?;
  }

  lemma RememberedAt(s: Session, c: ConfirmCommand, r: Receipt)
    requires ReceiptsOk(s) && Remembered(s, r, c.key)
    ensures ConfirmBooking(s, c) == ConfirmResult(s, None, if r.fingerprint == c.fingerprint then Replay(r.orderId) else Conflict)
  {
    var i :| 0 <= i < |s.receipts| && s.receipts[i] == r;
    var found := FindReceipt(s.receipts, c.key);
    assert found.Some?;
    var j :| 0 <= j < |s.receipts| && s.receipts[j] == found.value;
    assert i == j;
  }

  /**
   * Every confirmation, exactly. A key whose receipt is kept is answered from the receipt: a
   * replay for the same payload, a conflict for another. A new key is stale unless it
   * confirms the current draft as it stands; then it is refused at the first step at which
   * something is missing, and leads there; it fails if nothing is missing and the catalog
   * does not answer; and otherwise it creates an order. But for the step shown and the edit
   * mode of a refusal, only a creation changes anything.
   */
  lemma EveryOutcome(s: Session, c: ConfirmCommand, x: Receipt, k: int)
    requires ReceiptsOk(s)
    ensures
      var r := ConfirmBooking(s, c);
      && (Remembered(s, x, c.key) ==> r == ConfirmResult(s, None, if x.fingerprint == c.fingerprint then Replay(x.orderId) else Conflict))
      && (r.outcome.Replay? || r.outcome.Conflict? <==> !IsNew(s, c))
      && (r.outcome == Stale <==> IsNew(s, c) && !IsCurrent(s, c))
      && (r.outcome == Refused(k) <==> IsCurrent(s, c) && FirstMissing(s.draft, c.now, k))
      && (r.outcome == Refused(k) ==> LeadsTo(s, r, k))
      && (r.outcome == Failed <==> IsCurrent(s, c) && Confirmable(s.draft, c.now) && (!IsValidQuote(c.quote) || (s.draft.saveVehicle && c.sizeName.None?)))
      && (r.outcome == Stale || r.outcome == Failed ==> r.state == s && r.intent == None)
      && (r.outcome.Created? <==> IsNew(s, c) && Accepts(s, c))
  {
    if Remembered(s, x, c.key) { RememberedAt(s, c, x); }
    if !IsNew(s, c) {
      var i :| 0 <= i < |s.receipts| && s.receipts[i].key == c.key;
      RememberedAt(s, c, s.receipts[i]);
    } else if !IsCurrent(s, c) {
      StaleAt(s, c);
    } else {
      CurrentOutcome(s, c, k);
    }
  }

  lemma CurrentOutcome(s: Session, c: ConfirmCommand, k: int)
    requires ReceiptsOk(s) && IsCurrent(s, c)
    ensures
      var r := ConfirmBooking(s, c);
      && !r.outcome.Replay? && !r.outcome.Conflict? && !r.outcome.Stale?
      && (r.outcome == Refused(k) <==> FirstMissing(s.draft, c.now, k)) && (r.outcome == Refused(k) ==> LeadsTo(s, r, k))
      && (r.outcome == Failed <==> Confirmable(s.draft, c.now) && (!IsValidQuote(c.quote) || (s.draft.saveVehicle && c.sizeName.None?)))
      && (r.outcome == Failed ==> r.state == s && r.intent == None)
      && (r.outcome.Created? <==> Accepts(s, c))
  {
    var step := ConfirmStep(s.draft, c.now);
    MissingStep(s.draft, c.now, step);
    MissingStep(s.draft, c.now, k);
    ConfirmableIffReview(s.draft, c.now);
    if step < REVIEW_STEP {
      RefusedAt(s, c, step);
    } else if !IsValidQuote(c.quote) || (s.draft.saveVehicle && c.sizeName.None?) {
      FailedAt(s, c);
    } else {
      CreatedIff(s, c);
    }
  }

  // ------------------------------------------------------------ submitting a step

  /** Submitting a step outside Review's edit loop moves on by one if its input is complete, and else does nothing. */
  lemma SubmitMovesOn(s: Session, k: int, now: Instant)
    requires !s.reviewEditing
    ensures
      var t := Apply(s, Submit(k, now));
      if Met(s.draft, k, now) then
        t.intent == Some(GoStep(k + 1)) && t.state == s.(draft := s.draft.(touched := true), draftStep := Whole(k + 1))
      else t == Transition(s, None)
  {
  }

  /** The mark that a draft was touched is nothing the steps ask for. */
  lemma TouchedAsks(d: Draft, now: Instant, step: int)
    requires Furthest(d.(touched := true), REVIEW_STEP, now, step)
    ensures Furthest(d, REVIEW_STEP, now, step)
  {
    forall j | 0 <= j < step ensures Met(d, j, now) {
      assert Met(d.(touched := true), j, now);
    }
  }

  lemma SubmitInEdit(s: Session, k: int, now: Instant)
    requires s.reviewEditing && Met(s.draft, k, now)
    ensures
      var t := Apply(s, Submit(k, now));
      var step := ResolveEntryStep(s.draft.(touched := true), Whole(REVIEW_STEP), now);
      && t.intent == Some(GoStep(step)) && !t.state.reviewEditing && t.state.draft == s.draft.(touched := true) && t.state.draftStep == Whole(step)
  {
  }

  /** In the edit loop, submitting a complete step goes to the furthest step allowed towards Review and ends the loop. */
  lemma SubmitEndsEdit(s: Session, k: int, now: Instant)
    requires s.reviewEditing && Met(s.draft, k, now)
    ensures
      var t := Apply(s, Submit(k, now));
      && t.intent.Some? && t.intent.value.GoStep? && !t.state.reviewEditing && t.state.draft == s.draft.(touched := true)
      && Furthest(s.draft, REVIEW_STEP, now, t.intent.value.step) && t.state.draftStep == Whole(t.intent.value.step)
  {
    SubmitInEdit(s, k, now);
    EntryIsFurthest(s.draft.(touched := true), Whole(REVIEW_STEP), now);
    TouchedAsks(s.draft, now, ResolveEntryStep(s.draft.(touched := true), Whole(REVIEW_STEP), now));
  }

  /** A draft that was touched is resumed, at the furthest step allowed up to where it was left; another one is not. */
  lemma ResumeIff(s: Session, now: Instant)
    ensures
      var t := ResumeBooking(s, now);
      && (t.intent.Some? <==> s.draft.touched) && (!s.draft.touched ==> t.state == s)
      && (s.draft.touched ==>
            && t.state == s.(mode := Standard, reviewEditing := false) && t.intent.value.GoStep?
            && Furthest(s.draft, Clamped(s.draftStep), now, t.intent.value.step))
  {
    EntryIsFurthest(s.draft, s.draftStep, now);
  }

  /** Repeating opens the journey on a copy of the order in repeat mode, with the times collapsed; an unlisted order changes nothing. */
  lemma RepeatOpens(s: Session, id: Text, now: Instant, offered: Option<Slot>)
    ensures
      var t := RepeatOrder(s, id, now, offered);
      if id in OrderIds(s.orders) then
        && t.state == s.(draft := t.state.draft, mode := RepeatMode, showAllTimes := false, reviewEditing := false)
        && t.intent.Some? && t.intent.value.GoStep? && Furthest(t.state.draft, REVIEW_STEP, now, t.intent.value.step)
      else t == Transition(s, None)
  {
    var found := FindOrder(s.orders, id);
    if id in OrderIds(s.orders) {
      var i :| 0 <= i < |s.orders| && OrderIds(s.orders)[i] == id;
      assert s.orders[i].id == id && found.Some?;
      EntryIsFurthest(DraftFromOrder(s.orders[found.value], now, offered), Whole(REVIEW_STEP), now);
    }
  }

  /** The steps that Review's edit loop may be entered for. */
  predicate EditableStep(n: Number) {
    n in {Finite(0.0), Finite(1.0), Finite(2.0), Finite(3.0), Finite(4.0), Finite(5.0)}
  }

  lemma TargetIff(n: Number)
    ensures IsReviewEditTarget(n) <==> EditableStep(n)
  {
    if IsReviewEditTarget(n) { WholeUpToFive(n.value); }
  }

  lemma WholeUpToFive(x: real)
    requires x == x.Floor as real && 0.0 <= x <= 5.0
    ensures x == 0.0 || x == 1.0 || x == 2.0 || x == 3.0 || x == 4.0 || x == 5.0
  {
    var n := x.Floor;
    assert 0 <= n <= 5;
  }

  /** Review's edit loop is entered for a whole step before Review only, at a step allowed; any other target changes nothing. */
  lemma ReviewEditOpens(s: Session, target: Number, now: Instant)
    ensures
      var t := OpenReviewEdit(s, target, now);
      if EditableStep(target) then
        && t.state == s.(reviewEditing := true)
        && t.intent.Some? && t.intent.value.GoStep? && Furthest(s.draft, Clamped(target), now, t.intent.value.step)
      else t == Transition(s, None)
  {
    TargetIff(target);
    EntryIsFurthest(s.draft, target, now);
  }

  /** Leaving it goes towards Review, to the furthest step allowed. */
  lemma ReviewEditLeaves(s: Session, now: Instant)
    ensures
      var t := LeaveReviewEdit(s, now);
      && t.state == s.(reviewEditing := false)
      && t.intent.Some? && t.intent.value.GoStep? && Furthest(s.draft, REVIEW_STEP, now, t.intent.value.step)
  {
    EntryIsFurthest(s.draft, Whole(REVIEW_STEP), now);
  }
}
