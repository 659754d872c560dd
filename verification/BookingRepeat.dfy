/** Entering the journey, repeating an order, and booking the copy again. */
module BookingRepeat {
  import opened Text
  import opened Scheduling
  import opened BookingDraft
  import opened Records
  import opened Booking
  import opened BookingProofs

  // ------------------------------------------------------------ entering, repeating and reviewing

  /** The step a transition sends the customer to is one the guard lets them enter at that instant. */
  ghost predicate EntersAllowed(t: Transition, now: Instant) {
    t.intent.Some? ==> t.intent.value.GoStep? && ResolveEntryStep(t.state.draft, Whole(t.intent.value.step), now) == t.intent.value.step
  }

  // Where resuming, repeating and Review's edit loop send the customer is allowed at that instant.

  lemma ResumeEntersAllowed(s: Session, now: Instant)
    ensures EntersAllowed(ResumeBooking(s, now), now)
  {
    EntryIsFixpoint(s.draft, s.draftStep, now);
  }

  lemma RepeatEntersAllowed(s: Session, id: Text, now: Instant, offered: Option<Slot>)
    ensures EntersAllowed(RepeatOrder(s, id, now, offered), now)
  {
    EntryIsFixpoint(RepeatOrder(s, id, now, offered).state.draft, Whole(REVIEW_STEP), now);
  }

  lemma OpenEditEntersAllowed(s: Session, target: Number, now: Instant)
    ensures EntersAllowed(OpenReviewEdit(s, target, now), now)
  {
    EntryIsFixpoint(s.draft, target, now);
  }

  lemma LeaveEditEntersAllowed(s: Session, now: Instant)
    ensures EntersAllowed(LeaveReviewEdit(s, now), now)
  {
    EntryIsFixpoint(s.draft, Whole(REVIEW_STEP), now);
  }

  /** Submitting any step while editing from Review. */
  lemma SubmitEntersAllowed(s: Session, k: int, now: Instant)
    requires s.reviewEditing
    ensures EntersAllowed(CompleteReviewEdit(SubmitStep(s, k, now), now), now)
  {
    CompleteEntersAllowed(SubmitStep(s, k, now), now);
  }

  lemma CompleteEntersAllowed(t: Transition, now: Instant)
    requires t.state.reviewEditing && (t.intent.Some? ==> t.intent.value.GoStep?)
    ensures EntersAllowed(CompleteReviewEdit(t, now), now)
  {
    EntryIsFixpoint(t.state.draft, Whole(REVIEW_STEP), now);
  }

  /** Filling in a car and contact details never replaces any that the draft has. */
  lemma FilledNeverReplaces(s: Session, service: Option<CarePackage>, now: Instant, d: Draft)
    requires d == DraftWithCurrentSchedule(PrefillAddress(s.draft, s.addresses), now)
    ensures
      var e := StartDraft(s, service, now);
      && (!DescribesNoCar(s.draft) ==> e.vehicleType == d.vehicleType && e.carId == d.carId && e.carName == d.carName && e.plate == d.plate && e.color == d.color)
      && (s.draft.contactName != [] ==> e.contactName == s.draft.contactName)
      && (s.draft.contactPhone != [] ==> e.contactPhone == s.draft.contactPhone)
      && e.address == d.address && e.addressLabel == d.addressLabel && e.locationNote == d.locationNote && e.place == d.place
      && e.slot == d.slot && e.scheduleDay == d.scheduleDay
  {
  }

  lemma PrefillNeverReplaces(d: Draft, addresses: seq<Record<AddressFields>>)
    ensures var e := PrefillAddress(d, addresses);
      && e == d.(address := e.address, addressLabel := e.addressLabel, locationNote := e.locationNote, place := e.place)
      && (d.address != [] ==> e == d)
  {
  }

  /** Starting fills in what is missing and never replaces a car, an address, a contact or a slot that is still offered. */
  lemma StartNeverReplaces(s: Session, service: Option<CarePackage>, now: Instant)
    requires DraftOk(s.draft)
    ensures
      var d, e := s.draft, StartDraft(s, service, now);
      && (!DescribesNoCar(d) ==> e.vehicleType == d.vehicleType && e.carId == d.carId && e.carName == d.carName && e.plate == d.plate && e.color == d.color)
      && (d.address != [] ==> e.address == d.address && e.addressLabel == d.addressLabel && e.locationNote == d.locationNote && e.place == d.place)
      && (d.contactName != [] ==> e.contactName == d.contactName) && (d.contactPhone != [] ==> e.contactPhone == d.contactPhone)
      && (HasAvailableSlot(d, now) ==> e.slot == d.slot && e.scheduleDay == d.scheduleDay)
      && e.scheduleDay.Some? && IsScheduleDay(now, e.scheduleDay.value)
  {
    PrefillNeverReplaces(s.draft, s.addresses);
    ScheduleIsCurrent(PrefillAddress(s.draft, s.addresses), now);
    FilledNeverReplaces(s, service, now, DraftWithCurrentSchedule(PrefillAddress(s.draft, s.addresses), now));
  }

  lemma ScheduleIsCurrent(d: Draft, now: Instant)
    requires DraftOk(d)
    ensures var e := DraftWithCurrentSchedule(d, now);
      && e == d.(scheduleDay := e.scheduleDay, slot := e.slot)
      && (d.slot.Some? && IsSlotAvailable(now, d.slot.value) ==> e == d)
      && e.scheduleDay.Some? && IsScheduleDay(now, e.scheduleDay.value)
  {
    DefaultDayIsOffered(now);
  }

  lemma DefaultDayIsOffered(now: Instant)
    ensures IsScheduleDay(now, DefaultScheduleDay(now))
  {
    EarliestSlotIsLeast(now);
  }

  lemma FindListed(s: Session, o: Order)
    requires OrdersOk(s) && o in s.orders
    ensures FindOrder(s.orders, o.id).Some? && s.orders[FindOrder(s.orders, o.id).value] == o
  {
    var i :| 0 <= i < |s.orders| && s.orders[i] == o;
    assert OrderIds(s.orders)[i] == o.id;
    var found := FindOrder(s.orders, o.id);
    assert found.Some?;
    assert OrderIds(s.orders)[found.value] == o.id;
  }

  /** Repeating a listed order copies the very order. */
  lemma RepeatCopies(t: Session, o: Order, now: Instant, offered: Option<Slot>)
    requires OrdersOk(t) && o in t.orders
    ensures RepeatOrder(t, o.id, now, offered).state.draft == DraftFromOrder(o, now, offered)
    ensures RepeatOrder(t, o.id, now, offered).intent == Some(GoStep(ResolveEntryStep(DraftFromOrder(o, now, offered), Whole(REVIEW_STEP), now)))
  {
    FindListed(t, o);
  }

  /** After any run, an order whose number is not ahead of the counter and whose id is listed is listed itself. */
  lemma StillListed(s: Session, between: seq<Command>, o: Order)
    requires Inv(s) && o in s.orders && !Beyond(o.id, s.orderSequence) && o.id in OrderIds(Run(s, between).orders)
    ensures Inv(Run(s, between)) && o in Run(s, between).orders
  {
    var t := Run(s, between);
    RunKeeps(s, between);
    var i :| 0 <= i < |t.orders| && OrderIds(t.orders)[i] == o.id;
    SameIdSameOrder(s, t, o, t.orders[i]);
  }

  lemma CopiedPlate(d: Draft, id: Text, carId: Option<Text>, at: Instant, quote: Quote, now: Instant)
    requires IsPlateAcceptable(d.plate) && IsKnownMethod(d.paymentMethod) && quote.Quoted? && d.slot.Some?
    ensures var e := DraftFromOrder(ConfirmedOrder(d, id, carId, at, quote), now, EarliestSlot(now));
      && e.plate == ConfirmedPlate(d.plate) && ConfirmedPlate(e.plate) == e.plate
      && (IsPlateAcceptable(e.plate) <==> |ConfirmedPlate(d.plate)| != 1)
  {
    ConfirmedPlateShape(d.plate);
    ConfirmedPlateAccepted(d.plate);
  }

  lemma CopiedContact(d: Draft, id: Text, carId: Option<Text>, at: Instant, quote: Quote, now: Instant)
    requires IsContactAcceptable(d) && |d.contactName| <= CONTACT_NAME_MAX_LENGTH && IsKnownMethod(d.paymentMethod) && quote.Quoted? && d.slot.Some?
    ensures var e := DraftFromOrder(ConfirmedOrder(d, id, carId, at, quote), now, EarliestSlot(now));
      && IsContactAcceptable(e)
      && e.contactName == ConfirmedName(d.contactName) && ConfirmedName(e.contactName) == e.contactName
      && e.contactPhone == ConfirmedPhone(d.contactPhone) && ConfirmedPhone(e.contactPhone) == e.contactPhone
  {
    ConfirmedNameStable(d.contactName);
    ConfirmedPhoneStable(d.contactPhone);
  }

  lemma CopiedPlace(d: Draft, id: Text, carId: Option<Text>, at: Instant, quote: Quote, now: Instant)
    requires IsLocationComplete(d) && IsKnownMethod(d.paymentMethod) && quote.Quoted? && d.slot.Some?
    ensures var e := DraftFromOrder(ConfirmedOrder(d, id, carId, at, quote), now, EarliestSlot(now));
      && IsLocationComplete(e) && e.place == d.place
      && e.address == Trim(d.address) && Trim(e.address) == e.address
      && e.addressLabel == Trim(d.addressLabel) && Trim(e.addressLabel) == e.addressLabel
      && e.locationNote == Trim(d.locationNote) && Trim(e.locationNote) == e.locationNote
  {
    TrimIdempotent(d.address);
    TrimIdempotent(d.addressLabel);
    TrimIdempotent(d.locationNote);
  }

  lemma CopiedChoices(d: Draft, id: Text, carId: Option<Text>, at: Instant, quote: Quote, now: Instant)
    requires IsKnownVehicle(d.vehicleType) && IsKnownPackage(d.service) && IsKnownMethod(d.paymentMethod) && quote.Quoted? && d.slot.Some?
    ensures var e := DraftFromOrder(ConfirmedOrder(d, id, carId, at, quote), now, EarliestSlot(now));
      && e.vehicleType == d.vehicleType && e.service == d.service && e.paymentMethod == d.paymentMethod
      && e.slot == EarliestSlot(now) && HasAvailableSlot(e, now)
  {
    EarliestSlotIsLeast(now);
  }

  /** With everything else in place the guard depends on the plate alone. */
  lemma PlateDecides(e: Draft, now: Instant)
    requires IsLocationComplete(e) && HasAvailableSlot(e, now) && IsContactAcceptable(e) && IsKnownMethod(e.paymentMethod)
    ensures ResolveEntryStep(e, Whole(REVIEW_STEP), now) == if IsPlateAcceptable(e.plate) then REVIEW_STEP else 0
  {
  }

  /** The draft copied from an order that was made from a confirmable draft. */
  lemma CopyIsConfirmable(d: Draft, id: Text, carId: Option<Text>, at: Instant, quote: Quote, now: Instant)
    requires Confirmable(d, at) && quote.Quoted? && |d.contactName| <= CONTACT_NAME_MAX_LENGTH
    ensures var e := DraftFromOrder(ConfirmedOrder(d, id, carId, at, quote), now, EarliestSlot(now));
      && IsKnownVehicle(e.vehicleType) && IsKnownPackage(e.service) && IsKnownMethod(e.paymentMethod)
      && IsLocationComplete(e) && HasAvailableSlot(e, now) && IsContactAcceptable(e)
      && (IsPlateAcceptable(e.plate) <==> |ConfirmedPlate(d.plate)| != 1)
  {
    CopiedPlate(d, id, carId, at, quote, now);
    CopiedContact(d, id, carId, at, quote, now);
    CopiedPlace(d, id, carId, at, quote, now);
    CopiedChoices(d, id, carId, at, quote, now);
  }

  /**
   * Repeating an order that a confirmation made, after any run that still lists it and at
   * any instant, goes straight to Review with the earliest slot; only a plate that
   * confirmation collapsed to one character sends the customer to the first step.
   */
  lemma RepeatAfterConfirm(s: Session, c: ConfirmCommand, between: seq<Command>, now: Instant)
    requires Inv(s) && ConfirmBooking(s, c).outcome.Created?
    requires ConfirmBooking(s, c).outcome.orderId in OrderIds(Run(ConfirmBooking(s, c).state, between).orders)
    ensures
      var first := ConfirmBooking(s, c);
      RepeatOrder(Run(first.state, between), first.outcome.orderId, now, EarliestSlot(now)).intent
        == Some(GoStep(if |ConfirmedPlate(s.draft.plate)| == 1 then 0 else REVIEW_STEP))
  {
    CreatedIff(s, c);
    ConfirmAccepts(s, c);
    AcceptedKeeps(s, c);
    MadeOrderListed(s, c);
    StillListed(Accepted(s, c).state, between, MadeOrder(s, c));
    RepeatCopies(Run(Accepted(s, c).state, between), MadeOrder(s, c), now, EarliestSlot(now));
    MadeCopyIsConfirmable(s, c, now);
  }

  lemma NotBeyondItself(n: nat)
    ensures !Beyond(OrderId(n), n)
  {
    forall k: nat | k > n ensures OrderId(k) != OrderId(n) {
      if OrderId(k) == OrderId(n) { NumberedInjective(ORDER_PREFIX, k, n); }
    }
  }

  lemma MadeOrderListed(s: Session, c: ConfirmCommand)
    requires Accepts(s, c)
    ensures MadeOrder(s, c) in Accepted(s, c).state.orders && Accepted(s, c).outcome.orderId == MadeOrder(s, c).id
    ensures !Beyond(MadeOrder(s, c).id, Accepted(s, c).state.orderSequence)
  {
    NotBeyondItself(NextNumber(OrderIds(s.orders), s.orderSequence));
    BookedHead(s, c, MadeOrder(s, c), NextNumber(OrderIds(s.orders), s.orderSequence), ConfirmedCar(s, c), ConfirmedAddress(s));
  }

  lemma MadeCopyIsConfirmable(s: Session, c: ConfirmCommand, now: Instant)
    requires Accepts(s, c) && |s.draft.contactName| <= CONTACT_NAME_MAX_LENGTH
    ensures var e := DraftFromOrder(MadeOrder(s, c), now, EarliestSlot(now));
      && ResolveEntryStep(e, Whole(REVIEW_STEP), now) == (if |ConfirmedPlate(s.draft.plate)| == 1 then 0 else REVIEW_STEP)
      && (|ConfirmedPlate(s.draft.plate)| != 1 ==> Confirmable(e, now))
  {
    var car := ConfirmedCar(s, c);
    CopyIsConfirmable(s.draft, MadeOrder(s, c).id, if car.id.Some? then car.id else s.draft.carId, c.now, c.quote, now);
    PlateDecides(DraftFromOrder(MadeOrder(s, c), now, EarliestSlot(now)), now);
  }

  /**
   * Two orders that book the same thing, under another id and at another time. The car's
   * name and colour and the note are clipped once more.
   */
  predicate SameBooking(o: Order, n: Order) {
    && n.vehicleType == o.vehicleType && n.plate == o.plate && n.service == o.service && n.paymentMethod == o.paymentMethod
    && n.address == o.address && n.addressLabel == o.addressLabel && n.locationNote == o.locationNote
    && n.contactName == o.contactName && n.contactPhone == o.contactPhone && n.extras == o.extras
    && n.confirmation.Some? && o.confirmation.Some? && n.confirmation.value.place == o.confirmation.value.place
    && n.carName == Clip(o.carName, 60) && n.color == Clip(o.color, 30) && n.note == Clip(o.note, 300)
  }

  lemma {:induction false} KnownExtrasShape(extras: seq<CareExtra>)
    requires NoRepeats(extras)
    ensures NoRepeats(KnownExtras(extras)) && AllKnown(KnownExtras(extras)) && forall x :: x in KnownExtras(extras) ==> x in extras
  {
    if extras != [] {
      var rest := KnownExtras(extras[1..]);
      assert extras == [extras[0]] + extras[1..];
      NoRepeatsCons(extras[0], extras[1..]);
      KnownExtrasShape(extras[1..]);
      NoRepeatsCons(extras[0], rest);
      assert [] + rest == rest;
    }
  }

  predicate AllKnown(extras: seq<CareExtra>) {
    forall i :: 0 <= i < |extras| ==> !extras[i].OtherExtra?
  }

  lemma {:induction false} KnownOnceFixpoint(extras: seq<CareExtra>)
    requires NoRepeats(extras) && AllKnown(extras)
    ensures KnownOnce(extras) == extras
  {
    if extras != [] {
      var init := extras[..|extras| - 1];
      KnownOnceFixpoint(init);
      assert extras == init + [extras[|extras| - 1]];
      assert forall i :: 0 <= i < |init| ==> init[i] == extras[i];
    }
  }

  lemma {:induction false} KnownExtrasFixpoint(extras: seq<CareExtra>)
    requires AllKnown(extras)
    ensures KnownExtras(extras) == extras
  {
    if extras != [] {
      KnownExtrasFixpoint(extras[1..]);
      assert extras == [extras[0]] + extras[1..];
    }
  }

  /** The add-ons of a made order survive the copy and its confirmation. */
  lemma ExtrasSurvive(extras: seq<CareExtra>)
    requires NoRepeats(extras)
    ensures KnownExtras(KnownOnce(KnownExtras(extras))) == KnownExtras(extras)
  {
    KnownExtrasShape(extras);
    KnownOnceFixpoint(KnownExtras(extras));
    KnownExtrasFixpoint(KnownExtras(extras));
  }

  /** A draft whose texts are in confirmed form is recorded as it stands. */
  predicate Settled(e: Draft) {
    && ConfirmedPlate(e.plate) == e.plate && ConfirmedName(e.contactName) == e.contactName && ConfirmedPhone(e.contactPhone) == e.contactPhone
    && Trim(e.address) == e.address && Trim(e.addressLabel) == e.addressLabel && Trim(e.locationNote) == e.locationNote
  }

  lemma CopyIsSettled(d: Draft, id: Text, carId: Option<Text>, at: Instant, quote: Quote, now: Instant)
    requires Confirmable(d, at) && quote.Quoted? && |d.contactName| <= CONTACT_NAME_MAX_LENGTH
    ensures Settled(DraftFromOrder(ConfirmedOrder(d, id, carId, at, quote), now, EarliestSlot(now)))
  {
    CopiedPlate(d, id, carId, at, quote, now);
    CopiedContact(d, id, carId, at, quote, now);
    CopiedPlace(d, id, carId, at, quote, now);
  }

  lemma SettledIsSame(o: Order, e: Draft, n: Order, id: Text, carId: Option<Text>, now: Instant, quote: Quote)
    requires o.confirmation.Some? && e == DraftFromOrder(o, now, EarliestSlot(now)) && Settled(e) && KnownExtras(e.extras) == o.extras
    requires IsKnownVehicle(o.vehicleType) && IsKnownPackage(o.service) && IsKnownMethod(o.paymentMethod)
    requires quote.Quoted? && e.slot.Some? && n == ConfirmedOrder(e, id, carId, now, quote)
    ensures SameBooking(o, n) && n.slot == EarliestSlot(now)
  {
  }

  lemma MadeCopyIsSettled(s: Session, c: ConfirmCommand, now: Instant)
    requires Accepts(s, c) && |s.draft.contactName| <= CONTACT_NAME_MAX_LENGTH
    ensures Settled(DraftFromOrder(MadeOrder(s, c), now, EarliestSlot(now)))
  {
    var car := ConfirmedCar(s, c);
    CopyIsSettled(s.draft, MadeOrder(s, c).id, if car.id.Some? then car.id else s.draft.carId, c.now, c.quote, now);
  }

  lemma MadeOrderChoices(s: Session, c: ConfirmCommand)
    requires Accepts(s, c)
    ensures var o := MadeOrder(s, c);
      o.confirmation.Some? && IsKnownVehicle(o.vehicleType) && IsKnownPackage(o.service) && IsKnownMethod(o.paymentMethod)
  {
  }

  lemma BookedHead(t: Session, c: ConfirmCommand, o: Order, number: nat, car: Saved<VehicleFields>, address: Saved<AddressFields>)
    ensures var r := Booked(t, c, o, number, car, address);
      r.outcome.Created? && r.outcome.orderId == o.id && |r.state.orders| > 0 && r.state.orders[0] == o
  {
  }

  lemma AcceptedHead(t: Session, c: ConfirmCommand)
    requires IsKnownMethod(t.draft.paymentMethod) && IsValidQuote(c.quote) && t.draft.slot.Some? && c.sizeName.Some?
    ensures var r := Accepted(t, c);
      && r.outcome.Created? && r.outcome.orderId == MadeOrder(t, c).id && r.outcome.orderId !in OrderIds(t.orders)
      && |r.state.orders| > 0 && r.state.orders[0] == MadeOrder(t, c)
  {
    BookedHead(t, c, MadeOrder(t, c), NextNumber(OrderIds(t.orders), t.orderSequence), ConfirmedCar(t, c), ConfirmedAddress(t));
  }

  lemma MadeIsSame(t: Session, c: ConfirmCommand, o: Order)
    requires t.draft == DraftFromOrder(o, c.now, EarliestSlot(c.now)) && Settled(t.draft) && KnownExtras(t.draft.extras) == o.extras
    requires c.quote.Quoted? && t.draft.slot.Some? && c.sizeName.Some?
    requires o.confirmation.Some? && IsKnownVehicle(o.vehicleType) && IsKnownPackage(o.service) && IsKnownMethod(o.paymentMethod)
    ensures IsKnownMethod(t.draft.paymentMethod) && SameBooking(o, MadeOrder(t, c)) && MadeOrder(t, c).slot == EarliestSlot(c.now)
  {
    var car := ConfirmedCar(t, c);
    SettledIsSame(o, t.draft, MadeOrder(t, c), MadeOrder(t, c).id, if car.id.Some? then car.id else t.draft.carId, c.now, c.quote);
  }

  /** A repeated order, booked again: created, under an id that is not in use, with the same details. */
  ghost predicate BookedAgain(o: Order, t: Session, r: ConfirmResult, now: Instant) {
    && r.outcome.Created? && r.outcome.orderId !in OrderIds(t.orders)
    && |r.state.orders| > 0 && r.state.orders[0].id == r.outcome.orderId
    && SameBooking(o, r.state.orders[0]) && r.state.orders[0].slot == EarliestSlot(now)
  }

  /** What makes `e`, the copy of an order, bookable at once. */
  predicate Repeatable(o: Order, e: Draft, now: Instant) {
    IsCopy(o, e, now) && Confirmable(e, now)
  }

  predicate IsCopy(o: Order, e: Draft, now: Instant) {
    && e == DraftFromOrder(o, now, EarliestSlot(now)) && Settled(e) && KnownExtras(e.extras) == o.extras
    && o.confirmation.Some? && IsKnownVehicle(o.vehicleType) && IsKnownPackage(o.service) && IsKnownMethod(o.paymentMethod)
  }

  lemma CopyAccepted(t: Session, o: Order, now: Instant, quote: Quote, sizeName: Text)
    requires Repeatable(o, t.draft, now) && IsValidQuote(quote)
    ensures Accepts(t, ConfirmNow(t, now, quote, sizeName))
  {
    AcceptsNow(t, now, quote, sizeName);
  }

  lemma CopyMade(t: Session, o: Order, now: Instant, quote: Quote, sizeName: Text)
    requires IsCopy(o, t.draft, now) && quote.Quoted? && t.draft.slot.Some?
    ensures IsKnownMethod(t.draft.paymentMethod)
    ensures var n := MadeOrder(t, ConfirmNow(t, now, quote, sizeName)); SameBooking(o, n) && n.slot == EarliestSlot(now)
  {
    MadeIsSame(t, ConfirmNow(t, now, quote, sizeName), o);
  }

  lemma BookedByAccepting(t: Session, c: ConfirmCommand, o: Order)
    requires ReceiptsOk(t) && Accepts(t, c) && c.sizeName.Some?
    requires SameBooking(o, MadeOrder(t, c)) && MadeOrder(t, c).slot == EarliestSlot(c.now)
    ensures BookedAgain(o, t, ConfirmBooking(t, c), c.now)
  {
    ConfirmAccepts(t, c);
    AcceptedHead(t, c);
  }

  /** Confirming a settled copy of an order makes the same booking under a new id. */
  lemma ConfirmCopy(t: Session, o: Order, now: Instant, quote: Quote, sizeName: Text)
    requires ReceiptsOk(t) && Repeatable(o, t.draft, now) && IsValidQuote(quote)
    ensures BookedAgain(o, t, ConfirmBooking(t, ConfirmNow(t, now, quote, sizeName)), now)
  {
    CopyAccepted(t, o, now, quote, sizeName);
    CopyMade(t, o, now, quote, sizeName);
    BookedByAccepting(t, ConfirmNow(t, now, quote, sizeName), o);
  }

  /**
   * The round trip: an order made by a confirmation, repeated after any run that still
   * lists it and confirmed at once, is booked again with the same details, add-ons
   * included. `RepeatKeepsTextsIff` says when car name, colour and note are the same too.
   */
  lemma RepeatThenConfirm(s: Session, c: ConfirmCommand, between: seq<Command>, now: Instant, quote: Quote, sizeName: Text)
    requires Inv(s) && Accepts(s, c) && |ConfirmedPlate(s.draft.plate)| != 1 && IsValidQuote(quote)
    requires MadeOrder(s, c).id in OrderIds(Run(Accepted(s, c).state, between).orders)
    ensures
      var t := RepeatOrder(Run(Accepted(s, c).state, between), MadeOrder(s, c).id, now, EarliestSlot(now)).state;
      BookedAgain(MadeOrder(s, c), t, ConfirmBooking(t, ConfirmNow(t, now, quote, sizeName)), now)
  {
    var u := Run(Accepted(s, c).state, between);
    var t := RepeatOrder(u, MadeOrder(s, c).id, now, EarliestSlot(now)).state;
    AcceptedKeeps(s, c);
    MadeOrderListed(s, c);
    StillListed(Accepted(s, c).state, between, MadeOrder(s, c));
    RepeatCopies(u, MadeOrder(s, c), now, EarliestSlot(now));
    RepeatKeepsReceipts(u, MadeOrder(s, c).id, now, EarliestSlot(now));
    MadeOrderRepeatable(s, c, now);
    ConfirmCopy(t, MadeOrder(s, c), now, quote, sizeName);
  }

  /** The same booking has the same car name, colour and note if and only if confirming the first cut them cleanly. */
  lemma RepeatKeepsTextsIff(s: Session, c: ConfirmCommand, n: Order)
    requires Accepts(s, c) && SameBooking(MadeOrder(s, c), n)
    ensures n.carName == MadeOrder(s, c).carName <==> CutsClean(s.draft.carName, 60)
    ensures n.color == MadeOrder(s, c).color <==> CutsClean(s.draft.color, 30)
    ensures n.note == MadeOrder(s, c).note <==> CutsClean(s.draft.note, 300)
  {
    ClipAgainIff(s.draft.carName, 60);
    ClipAgainIff(s.draft.color, 30);
    ClipAgainIff(s.draft.note, 300);
    MadeOrderTexts(s, c);
  }

  lemma MadeOrderTexts(s: Session, c: ConfirmCommand)
    requires Accepts(s, c)
    ensures var o := MadeOrder(s, c); o.carName == Clip(s.draft.carName, 60) && o.color == Clip(s.draft.color, 30) && o.note == Clip(s.draft.note, 300)
  {
  }

  lemma RepeatKeepsReceipts(u: Session, id: Text, now: Instant, offered: Option<Slot>)
    requires ReceiptsOk(u)
    ensures ReceiptsOk(RepeatOrder(u, id, now, offered).state)
  {
  }

  lemma MadeOrderExtras(s: Session, c: ConfirmCommand, now: Instant)
    requires Accepts(s, c) && NoRepeats(s.draft.extras)
    ensures KnownExtras(DraftFromOrder(MadeOrder(s, c), now, EarliestSlot(now)).extras) == MadeOrder(s, c).extras
  {
    ExtrasSurvive(s.draft.extras);
  }

  lemma MadeOrderRepeatable(s: Session, c: ConfirmCommand, now: Instant)
    requires Accepts(s, c) && DraftOk(s.draft) && |ConfirmedPlate(s.draft.plate)| != 1
    ensures Repeatable(MadeOrder(s, c), DraftFromOrder(MadeOrder(s, c), now, EarliestSlot(now)), now)
  {
    MadeOrderExtras(s, c, now);
    MadeCopyIsConfirmable(s, c, now);
    MadeCopyIsSettled(s, c, now);
    MadeOrderChoices(s, c);
  }
}
