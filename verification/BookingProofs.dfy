/** The session's invariant over every run of commands, and what it gives a customer. */
module BookingProofs {
  import opened Text
  import opened Scheduling
  import opened BookingDraft
  import opened Records
  import opened Booking

  // ------------------------------------------------------------ the invariant

  ghost predicate GarageOk(s: Session) {
    |s.vehicles| <= GARAGE_CAPACITY && RecordsOk(s.vehicles, s.vehicleSequence, CAR_PREFIX)
  }

  ghost predicate BookOk(s: Session) {
    |s.addresses| <= ADDRESS_BOOK_CAPACITY && RecordsOk(s.addresses, s.addressSequence, ADR_PREFIX)
  }

  ghost predicate OrdersOk(s: Session) {
    && |s.orders| <= ORDER_HISTORY_LIMIT
    && Distinct(OrderIds(s.orders))
    && (forall o :: o in s.orders ==> |o.contactName| <= CONTACT_NAME_MAX_LENGTH)
  }

  /** Receipts are the last generations, newest first, without a gap. */
  predicate ReceiptsOk(s: Session) {
    && |s.receipts| <= RECEIPT_HISTORY_LIMIT && |s.receipts| <= s.draftGeneration
    && (forall i :: 0 <= i < |s.receipts| ==> s.receipts[i].key == s.draftGeneration - 1 - i)
  }

  predicate DraftOk(d: Draft) {
    && (d.slot.Some? ==> d.scheduleDay == Some(d.slot.value.date))
    && |d.contactName| <= CONTACT_NAME_MAX_LENGTH
    && NoRepeats(d.extras)
  }

  /** Each add-on once. */
  predicate NoRepeats(extras: seq<CareExtra>) {
    forall i, j :: 0 <= i < j < |extras| ==> extras[i] != extras[j]
  }

  ghost predicate Inv(s: Session) {
    && GarageOk(s) && BookOk(s) && OrdersOk(s) && ReceiptsOk(s)
    && DraftOk(s.draft) && |s.profileName| <= CONTACT_NAME_MAX_LENGTH
  }

  lemma EmptySessionOk()
    ensures Inv(EMPTY_SESSION)
  {
  }

  /** Every order of the later state is an unchanged earlier one or carries a number given out since. */
  ghost predicate OrdersFollow(s: Session, t: Session) {
    && s.orderSequence <= t.orderSequence
    && (forall o :: o in t.orders ==> o in s.orders || NewOrder(s, t, o))
  }

  ghost predicate NewOrder(s: Session, t: Session, o: Order) {
    exists n: nat :: s.orderSequence < n <= t.orderSequence && o.id == OrderId(n)
  }

  /** What any command may do to the numbered collections. */
  ghost predicate Later(s: Session, t: Session) {
    && RecordsFollow(s.vehicles, s.vehicleSequence, t.vehicles, t.vehicleSequence, CAR_PREFIX)
    && RecordsFollow(s.addresses, s.addressSequence, t.addresses, t.addressSequence, ADR_PREFIX)
    && OrdersFollow(s, t)
  }

  // ------------------------------------------------------------ commands that only touch the draft

  /** Everything that is recorded, as opposed to being edited or shown. */
  predicate SameBooks(s: Session, t: Session) {
    && t.orders == s.orders && t.orderSequence == s.orderSequence
    && t.vehicles == s.vehicles && t.vehicleSequence == s.vehicleSequence
    && t.addresses == s.addresses && t.addressSequence == s.addressSequence
    && t.receipts == s.receipts && t.draftGeneration == s.draftGeneration
    && t.profileName == s.profileName && t.profilePhone == s.profilePhone
  }

  lemma StartKeepsBooks(s: Session, service: Option<CarePackage>, now: Instant)
    ensures SameBooks(s, StartBooking(s, service, now).state)
  {
  }

  lemma BookCarKeepsBooks(s: Session, id: Text, now: Instant)
    ensures SameBooks(s, BookSavedVehicle(s, id, now).state)
  {
    var found := FindId(s.vehicles, Some(id));
    if found.Some? {
      StartKeepsBooks(s.(draft := DraftWithVehicle(s.draft, s.vehicles[found.value])), None, now);
    }
  }

  lemma SubmitKeepsBooks(s: Session, k: int, now: Instant)
    ensures SameBooks(s, CompleteReviewEdit(SubmitStep(s, k, now), now).state)
  {
  }

  lemma RepeatKeepsBooks(s: Session, id: Text, now: Instant, offered: Option<Slot>)
    ensures SameBooks(s, RepeatOrder(s, id, now, offered).state)
  {
  }

  lemma MovingKeepsBooks(s: Session, c: Command)
    requires MovesAlong(c)
    ensures SameBooks(s, MoveAlong(s, c).state)
  {
    match c
    case Submit(k, now) => SubmitKeepsBooks(s, k, now);
    case Start(service, now) => StartKeepsBooks(s, service, now);
    case Repeat(id, now, offered) => RepeatKeepsBooks(s, id, now, offered);
    case BookCar(id, now) => BookCarKeepsBooks(s, id, now);
    case _ =>
  }

  lemma ChoosingKeepsBooks(s: Session, id: Text)
    ensures SameBooks(s, ChooseSavedVehicle(s, id)) && SameBooks(s, ChooseSavedAddress(s, id))
  {
  }

  /** The draft, journey and review-edit commands change nothing that is recorded. */
  lemma DraftCommandsKeepBooks(s: Session, c: Command)
    requires !ChangesBooks(c)
    ensures SameBooks(s, Apply(s, c).state)
  {
    if MovesAlong(c) {
      MovingKeepsBooks(s, c);
    } else if c.ChooseCar? {
      ChoosingKeepsBooks(s, c.carId);
    } else if c.ChooseAddress? {
      ChoosingKeepsBooks(s, c.addressId);
    }
  }

  lemma {:induction false} DropExtrasMember(extras: seq<CareExtra>, dropped: seq<CareExtra>, x: CareExtra)
    ensures x in DropExtras(extras, dropped) <==> x in extras && x !in dropped
  {
    if extras != [] {
      DropExtrasMember(extras[1..], dropped, x);
      assert x in extras <==> x == extras[0] || x in extras[1..];
    }
  }

  lemma NoRepeatsCons(x: CareExtra, rest: seq<CareExtra>)
    ensures NoRepeats([x] + rest) <==> NoRepeats(rest) && x !in rest
  {
    var all := [x] + rest;
    assert forall i :: 0 <= i < |rest| ==> all[i + 1] == rest[i];
    if NoRepeats(all) {
      forall i, j | 0 <= i < j < |rest| ensures rest[i] != rest[j] { assert all[i + 1] != all[j + 1]; }
      assert forall i :: 0 <= i < |rest| ==> all[0] != rest[i];
    }
    if NoRepeats(rest) && x !in rest {
      forall i, j | 0 <= i < j < |all| ensures all[i] != all[j] {
        assert all[j] == rest[j - 1] && (i > 0 ==> all[i] == rest[i - 1]);
      }
    }
  }

  lemma NoRepeatsSnoc(init: seq<CareExtra>, x: CareExtra)
    requires NoRepeats(init) && x !in init
    ensures NoRepeats(init + [x])
  {
  }

  lemma {:induction false} DropExtrasKeeps(extras: seq<CareExtra>, dropped: seq<CareExtra>)
    requires NoRepeats(extras)
    ensures NoRepeats(DropExtras(extras, dropped))
  {
    if extras != [] {
      assert extras == [extras[0]] + extras[1..];
      NoRepeatsCons(extras[0], extras[1..]);
      DropExtrasKeeps(extras[1..], dropped);
      DropExtrasMember(extras[1..], dropped, extras[0]);
      NoRepeatsCons(extras[0], DropExtras(extras[1..], dropped));
      assert [] + DropExtras(extras[1..], dropped) == DropExtras(extras[1..], dropped);
    }
  }

  lemma {:induction false} KnownOnceShape(extras: seq<CareExtra>)
    ensures NoRepeats(KnownOnce(extras)) && forall i :: 0 <= i < |KnownOnce(extras)| ==> !KnownOnce(extras)[i].OtherExtra?
  {
    if extras != [] {
      var init, last := KnownOnce(extras[..|extras| - 1]), extras[|extras| - 1];
      KnownOnceShape(extras[..|extras| - 1]);
      if !last.OtherExtra? && last !in init { NoRepeatsSnoc(init, last); }
    }
  }

  lemma ExtraEditsKeep(d: Draft, e: Edit)
    requires NoRepeats(d.extras) && (e.SelectCare? || e.SetExtra?)
    ensures NoRepeats(Edited(d, e).extras)
  {
    if e.SelectCare? {
      DropExtrasKeeps(d.extras, e.included);
    } else {
      DropExtrasKeeps(d.extras, [e.extra]);
      if e.extra !in d.extras { NoRepeatsSnoc(d.extras, e.extra); }
    }
  }

  lemma EditKeepsDraft(d: Draft, e: Edit)
    requires DraftOk(d)
    ensures DraftOk(Edited(d, e))
  {
    if e.SelectCare? || e.SetExtra? {
      ExtraEditsKeep(d, e);
    }
  }

  lemma StartKeepsDraft(s: Session, service: Option<CarePackage>, now: Instant)
    requires DraftOk(s.draft) && |s.profileName| <= CONTACT_NAME_MAX_LENGTH
    ensures DraftOk(StartDraft(s, service, now))
  {
    ScheduleKeepsDraft(PrefillAddress(s.draft, s.addresses), now);
  }

  lemma ScheduleKeepsDraft(d: Draft, now: Instant)
    requires DraftOk(d)
    ensures DraftOk(DraftWithCurrentSchedule(d, now))
  {
  }

  lemma RepeatKeepsDraft(s: Session, id: Text, now: Instant, offered: Option<Slot>)
    requires OrdersOk(s) && DraftOk(s.draft)
    ensures DraftOk(RepeatOrder(s, id, now, offered).state.draft)
  {
    var found := FindOrder(s.orders, id);
    if found.Some? {
      assert s.orders[found.value] in s.orders;
      KnownOnceShape(s.orders[found.value].extras);
    }
  }

  lemma BookCarKeepsDraft(s: Session, id: Text, now: Instant)
    requires DraftOk(s.draft) && |s.profileName| <= CONTACT_NAME_MAX_LENGTH
    ensures DraftOk(BookSavedVehicle(s, id, now).state.draft)
  {
    var found := FindId(s.vehicles, Some(id));
    if found.Some? {
      StartKeepsDraft(s.(draft := DraftWithVehicle(s.draft, s.vehicles[found.value])), None, now);
    }
  }

  lemma SubmitKeepsDraft(s: Session, k: int, now: Instant)
    requires DraftOk(s.draft)
    ensures DraftOk(CompleteReviewEdit(SubmitStep(s, k, now), now).state.draft)
  {
  }

  lemma MovingKeepsDraft(s: Session, c: Command)
    requires OrdersOk(s) && DraftOk(s.draft) && |s.profileName| <= CONTACT_NAME_MAX_LENGTH && MovesAlong(c)
    ensures DraftOk(MoveAlong(s, c).state.draft)
  {
    match c
    case Submit(k, now) => SubmitKeepsDraft(s, k, now);
    case Start(service, now) => StartKeepsDraft(s, service, now);
    case Repeat(id, now, offered) => RepeatKeepsDraft(s, id, now, offered);
    case BookCar(id, now) => BookCarKeepsDraft(s, id, now);
    case _ =>
  }

  lemma ChoosingKeepsDraft(s: Session, id: Text)
    requires DraftOk(s.draft)
    ensures DraftOk(ChooseSavedVehicle(s, id).draft) && DraftOk(ChooseSavedAddress(s, id).draft)
  {
  }

  lemma DraftCommandsKeepDraft(s: Session, c: Command)
    requires Inv(s) && !ChangesBooks(c)
    ensures DraftOk(Apply(s, c).state.draft)
  {
    if MovesAlong(c) {
      MovingKeepsDraft(s, c);
    } else if c.EditDraft? {
      EditKeepsDraft(s.draft, c.edit);
    } else if c.ChooseCar? {
      ChoosingKeepsDraft(s, c.carId);
    } else if c.ChooseAddress? {
      ChoosingKeepsDraft(s, c.addressId);
    }
  }

  lemma SameBooksKeeps(s: Session, t: Session)
    requires Inv(s) && SameBooks(s, t) && DraftOk(t.draft)
    ensures Inv(t) && Later(s, t)
  {
  }

  lemma DraftCommandsKeep(s: Session, c: Command)
    requires Inv(s) && !ChangesBooks(c)
    ensures Inv(Apply(s, c).state) && Later(s, Apply(s, c).state)
  {
    DraftCommandsKeepBooks(s, c);
    DraftCommandsKeepDraft(s, c);
    SameBooksKeeps(s, Apply(s, c).state);
  }

  // ------------------------------------------------------------ the garage and the address book

  lemma NewGarageKeeps(s: Session, t: Session)
    requires Inv(s) && GarageOk(t) && DraftOk(t.draft)
    requires t == s.(vehicles := t.vehicles, vehicleSequence := t.vehicleSequence, draft := t.draft)
    requires RecordsFollow(s.vehicles, s.vehicleSequence, t.vehicles, t.vehicleSequence, CAR_PREFIX)
    ensures Inv(t) && Later(s, t)
  {
  }

  lemma SaveCarKeeps(s: Session, editing: Option<Text>, values: EditorValues, sizeName: Text)
    requires Inv(s)
    ensures var t := SaveGarageVehicle(s, editing, values, sizeName); Inv(t) && Later(s, t)
  {
    var f := GarageFields(values, sizeName);
    SaveKeeps(s.vehicles, s.vehicleSequence, CAR_PREFIX, GARAGE_CAPACITY, editing, f, SameCar);
    var saved := SaveVehicle(s, editing, f);
    NewGarageKeeps(s, s.(vehicles := saved.records, vehicleSequence := saved.sequence));
    SameBooksKeeps(s, s);
  }

  lemma DeleteCarKeeps(s: Session, id: Text)
    requires Inv(s)
    ensures var t := DeleteSavedVehicle(s, id); Inv(t) && Later(s, t)
  {
    DeleteKeeps(s.vehicles, s.vehicleSequence, CAR_PREFIX, id);
    NewGarageKeeps(s, DeleteSavedVehicle(s, id));
  }

  lemma SaveAddressKeeps(s: Session, f: AddressFields, id: Option<Text>)
    requires BookOk(s)
    ensures var r := SaveAddressRecord(s, f, id);
      && |r.records| <= ADDRESS_BOOK_CAPACITY && RecordsOk(r.records, r.sequence, ADR_PREFIX)
      && RecordsFollow(s.addresses, s.addressSequence, r.records, r.sequence, ADR_PREFIX)
  {
    SaveKeeps(s.addresses, s.addressSequence, ADR_PREFIX, ADDRESS_BOOK_CAPACITY, id, f, SameAddress);
  }

  /** What the account editor saves. */
  function SheetFields(v: Sheet): AddressFields {
    AddressToSave(Clip(v.address, 160), OrElse(Clip(v.title, 30), FALLBACK_LABEL), v.locationNote, PlaceOrManual(v.place))
  }

  lemma NewBookKeeps(s: Session, t: Session)
    requires Inv(s) && BookOk(t)
    requires t == s.(addresses := t.addresses, addressSequence := t.addressSequence)
    requires RecordsFollow(s.addresses, s.addressSequence, t.addresses, t.addressSequence, ADR_PREFIX)
    ensures Inv(t) && Later(s, t)
  {
  }

  lemma SubmitAddressKeeps(s: Session, sheet: Sheet, editing: Option<Text>)
    requires Inv(s)
    ensures var t := SubmitAccountAddress(s, sheet, editing); Inv(t) && Later(s, t)
  {
    SaveAddressKeeps(s, SheetFields(sheet), editing);
    NewBookKeeps(s, SubmitAccountAddress(s, sheet, editing));
  }

  lemma DeleteAddressKeeps(s: Session, id: Text)
    requires Inv(s)
    ensures var t := DeleteSavedAddress(s, id); Inv(t) && Later(s, t)
  {
    DeleteKeeps(s.addresses, s.addressSequence, ADR_PREFIX, id);
    NewBookKeeps(s, DeleteSavedAddress(s, id));
  }

  // ------------------------------------------------------------ confirmation

  /** The draft's own facts that an accepted confirmation relies on. */
  predicate Confirmable(d: Draft, now: Instant) {
    && IsKnownVehicle(d.vehicleType) && IsKnownPackage(d.service) && IsKnownMethod(d.paymentMethod)
    && IsPlateAcceptable(d.plate) && IsLocationComplete(d) && HasAvailableSlot(d, now) && IsContactAcceptable(d)
  }

  lemma ConfirmableIffReview(d: Draft, now: Instant)
    ensures Confirmable(d, now) <==> ConfirmStep(d, now) == REVIEW_STEP
  {
  }

  ghost predicate Accepts(s: Session, c: ConfirmCommand) {
    && c.key == s.draftGeneration && c.fingerprint == DraftFingerprint(s.draft)
    && Confirmable(s.draft, c.now) && IsValidQuote(c.quote) && (s.draft.saveVehicle ==> c.sizeName.Some?)
  }

  /**
   * A confirmation creates an order exactly when it is for the current draft as reviewed,
   * nothing is missing at its instant, and the catalog answered.
   */
  lemma CreatedIff(s: Session, c: ConfirmCommand)
    requires ReceiptsOk(s)
    ensures ConfirmBooking(s, c).outcome.Created? <==> Accepts(s, c)
  {
    ConfirmableIffReview(s.draft, c.now);
    if Accepts(s, c) {
      ConfirmAccepts(s, c);
    } else {
      OtherwiseNotCreated(s, c);
    }
  }

  /** So no order is made past a missing step, and every order made has an offered slot. */
  lemma CreatedNeedsEveryStep(s: Session, c: ConfirmCommand)
    requires ReceiptsOk(s) && ConfirmBooking(s, c).outcome.Created?
    ensures forall k :: 0 <= k < REVIEW_STEP ==> Met(s.draft, k, c.now)
    ensures s.draft.slot.Some? && IsSlotAvailable(c.now, s.draft.slot.value)
  {
    CreatedIff(s, c);
    EntryIsFurthest(s.draft, Whole(REVIEW_STEP), c.now);
  }

  lemma OtherwiseNotCreated(s: Session, c: ConfirmCommand)
    requires c.key != s.draftGeneration || c.fingerprint != DraftFingerprint(s.draft) || ConfirmStep(s.draft, c.now) < REVIEW_STEP
          || !IsKnownMethod(s.draft.paymentMethod) || !IsValidQuote(c.quote) || (s.draft.saveVehicle && c.sizeName.None?)
    ensures !ConfirmBooking(s, c).outcome.Created?
  {
    var step := ConfirmStep(s.draft, c.now);
    ReviewMeansSlot(s.draft, c.now);
    if c.key == s.draftGeneration && c.fingerprint == DraftFingerprint(s.draft) {
      DecideRefuses(s, c, step);
    }
  }

  lemma DecideRefuses(s: Session, c: ConfirmCommand, step: int)
    requires step >= REVIEW_STEP ==> s.draft.slot.Some?
    requires step < REVIEW_STEP || !IsKnownMethod(s.draft.paymentMethod) || !IsValidQuote(c.quote) || (s.draft.saveVehicle && c.sizeName.None?)
    ensures !Decide(s, c, step).outcome.Created?
  {
  }

  /** Whatever else a confirmation answers, nothing recorded changes and the draft stays. */
  lemma OnlyCreationRecords(s: Session, c: ConfirmCommand)
    requires !ConfirmBooking(s, c).outcome.Created?
    ensures SameBooks(s, ConfirmBooking(s, c).state) && ConfirmBooking(s, c).state.draft == s.draft
  {
  }

  lemma NewestKeepsReceipts(s: Session, t: Session, r: Receipt)
    requires ReceiptsOk(s) && r.key == s.draftGeneration && t.draftGeneration == s.draftGeneration + 1
    requires t.receipts == Newest(r, s.receipts, RECEIPT_HISTORY_LIMIT)
    ensures ReceiptsOk(t)
    ensures forall i :: 1 <= i < |t.receipts| ==> t.receipts[i] == s.receipts[i - 1]
    ensures |t.receipts| == |s.receipts| + 1 || |t.receipts| == RECEIPT_HISTORY_LIMIT
  {
    var all := [r] + s.receipts;
    assert forall i :: 1 <= i < |all| ==> all[i] == s.receipts[i - 1];
  }

  lemma NewestIds(o: Order, orders: seq<Order>)
    ensures OrderIds(Newest(o, orders, ORDER_HISTORY_LIMIT)) == Newest(o.id, OrderIds(orders), ORDER_HISTORY_LIMIT)
  {
    assert OrderIds([o] + orders) == [o.id] + OrderIds(orders);
  }

  lemma NewestDistinct(id: Text, ids: seq<Text>)
    requires Distinct(ids) && id !in ids
    ensures Distinct(Newest(id, ids, ORDER_HISTORY_LIMIT))
  {
    DistinctCons(id, ids);
  }

  lemma NewestMembers(o: Order, orders: seq<Order>, p: Order)
    requires p in Newest(o, orders, ORDER_HISTORY_LIMIT)
    ensures p == o || p in orders
  {
    assert p in [o] + orders;
  }

  lemma NewestKeepsOrders(s: Session, t: Session, o: Order)
    requires OrdersOk(s) && |o.contactName| <= CONTACT_NAME_MAX_LENGTH && t.orders == Newest(o, s.orders, ORDER_HISTORY_LIMIT)
    requires t.orderSequence == NextNumber(OrderIds(s.orders), s.orderSequence) && o.id == OrderId(t.orderSequence)
    ensures OrdersOk(t) && OrdersFollow(s, t)
  {
    NewestIds(o, s.orders);
    NewestDistinct(o.id, OrderIds(s.orders));
    forall p | p in t.orders ensures (p in s.orders || NewOrder(s, t, p)) && |p.contactName| <= CONTACT_NAME_MAX_LENGTH {
      NewestMembers(o, s.orders, p);
      if p == o { assert s.orderSequence < t.orderSequence <= t.orderSequence; }
    }
  }

  lemma AcceptedCollections(s: Session, c: ConfirmCommand)
    requires Inv(s) && (s.draft.saveVehicle ==> c.sizeName.Some?)
    ensures var car := ConfirmedCar(s, c);
      && |car.records| <= GARAGE_CAPACITY && RecordsOk(car.records, car.sequence, CAR_PREFIX)
      && RecordsFollow(s.vehicles, s.vehicleSequence, car.records, car.sequence, CAR_PREFIX)
    ensures var address := ConfirmedAddress(s);
      && |address.records| <= ADDRESS_BOOK_CAPACITY && RecordsOk(address.records, address.sequence, ADR_PREFIX)
      && RecordsFollow(s.addresses, s.addressSequence, address.records, address.sequence, ADR_PREFIX)
  {
    var d := s.draft;
    if d.saveVehicle {
      SaveKeeps(s.vehicles, s.vehicleSequence, CAR_PREFIX, GARAGE_CAPACITY, d.carId,
        VehicleFields(d.vehicleType, OrElse(Clip(d.carName, 60), c.sizeName.value), Clip(ConfirmedPlate(d.plate), PLATE_MAX_LENGTH), Clip(d.color, 30)),
        SameCar);
    }
    if d.saveAddress {
      SaveAddressKeeps(s, AddressToSave(d.address, d.addressLabel, d.locationNote, d.place), None);
    }
  }

  lemma BookedOrders(s: Session, c: ConfirmCommand, o: Order, car: Saved<VehicleFields>, address: Saved<AddressFields>)
    requires OrdersOk(s) && |o.contactName| <= CONTACT_NAME_MAX_LENGTH
    requires o.id == OrderId(NextNumber(OrderIds(s.orders), s.orderSequence))
    ensures var t := Booked(s, c, o, NextNumber(OrderIds(s.orders), s.orderSequence), car, address).state;
      OrdersOk(t) && OrdersFollow(s, t)
  {
    NewestKeepsOrders(s, Booked(s, c, o, NextNumber(OrderIds(s.orders), s.orderSequence), car, address).state, o);
  }

  lemma BookedReceipts(s: Session, c: ConfirmCommand, o: Order, number: nat, car: Saved<VehicleFields>, address: Saved<AddressFields>)
    requires ReceiptsOk(s) && c.key == s.draftGeneration
    ensures ReceiptsOk(Booked(s, c, o, number, car, address).state)
    ensures Kept(Booked(s, c, o, number, car, address).state, Receipt(c.key, c.fingerprint, o.id))
    ensures forall r :: Kept(s, r) ==> Kept(Booked(s, c, o, number, car, address).state, r)
  {
    var t := Booked(s, c, o, number, car, address).state;
    NewestKeepsReceipts(s, t, Receipt(c.key, c.fingerprint, o.id));
    forall r | Kept(s, r) ensures Kept(t, r) { ShiftKept(s, t, r); }
  }

  lemma MadeOrderName(s: Session, c: ConfirmCommand)
    requires Accepts(s, c)
    ensures |MadeOrder(s, c).contactName| <= CONTACT_NAME_MAX_LENGTH
    ensures MadeOrder(s, c).id == OrderId(NextNumber(OrderIds(s.orders), s.orderSequence))
  {
  }

  lemma ConfirmAccepts(s: Session, c: ConfirmCommand)
    requires ReceiptsOk(s) && Accepts(s, c)
    ensures ConfirmBooking(s, c) == Accepted(s, c)
  {
    ConfirmableIffReview(s.draft, c.now);
  }

  lemma AcceptedKeeps(s: Session, c: ConfirmCommand)
    requires Inv(s) && Accepts(s, c)
    ensures Inv(Accepted(s, c).state) && Later(s, Accepted(s, c).state)
  {
    MadeOrderName(s, c);
    AcceptedCollections(s, c);
    BookedKeeps(s, c, MadeOrder(s, c), ConfirmedCar(s, c), ConfirmedAddress(s));
  }

  lemma BookedKeeps(s: Session, c: ConfirmCommand, o: Order, car: Saved<VehicleFields>, address: Saved<AddressFields>)
    requires Inv(s) && c.key == s.draftGeneration && |o.contactName| <= CONTACT_NAME_MAX_LENGTH
    requires o.id == OrderId(NextNumber(OrderIds(s.orders), s.orderSequence))
    requires |car.records| <= GARAGE_CAPACITY && RecordsOk(car.records, car.sequence, CAR_PREFIX)
    requires RecordsFollow(s.vehicles, s.vehicleSequence, car.records, car.sequence, CAR_PREFIX)
    requires |address.records| <= ADDRESS_BOOK_CAPACITY && RecordsOk(address.records, address.sequence, ADR_PREFIX)
    requires RecordsFollow(s.addresses, s.addressSequence, address.records, address.sequence, ADR_PREFIX)
    ensures var t := Booked(s, c, o, NextNumber(OrderIds(s.orders), s.orderSequence), car, address).state; Inv(t) && Later(s, t)
  {
    var n := NextNumber(OrderIds(s.orders), s.orderSequence);
    BookedOrders(s, c, o, car, address);
    BookedReceipts(s, c, o, n, car, address);
  }

  lemma ConfirmKeeps(s: Session, c: ConfirmCommand)
    requires Inv(s)
    ensures Inv(ConfirmBooking(s, c).state) && Later(s, ConfirmBooking(s, c).state)
  {
    CreatedIff(s, c);
    if Accepts(s, c) {
      ConfirmAccepts(s, c);
      AcceptedKeeps(s, c);
    } else {
      OnlyCreationRecords(s, c);
      SameBooksKeeps(s, ConfirmBooking(s, c).state);
    }
  }

  // ------------------------------------------------------------ every run

  lemma BookCommandsKeep(s: Session, c: Command)
    requires Inv(s) && ChangesBooks(c)
    ensures Inv(ChangeBooks(s, c).state) && Later(s, ChangeBooks(s, c).state)
  {
    match c
    case Confirm(confirm) => ConfirmKeeps(s, confirm);
    case SaveCar(editing, values, sizeName) => SaveCarKeeps(s, editing, values, sizeName);
    case DeleteCar(id) => DeleteCarKeeps(s, id);
    case SaveAddress(editing, sheet) => SubmitAddressKeeps(s, sheet, editing);
    case DeleteAddress(id) => DeleteAddressKeeps(s, id);
  }

  lemma ApplyKeeps(s: Session, c: Command)
    requires Inv(s)
    ensures Inv(Apply(s, c).state) && Later(s, Apply(s, c).state)
  {
    if ChangesBooks(c) {
      BookCommandsKeep(s, c);
    } else {
      DraftCommandsKeep(s, c);
    }
  }

  lemma LaterTransitive(s: Session, t: Session, u: Session)
    requires Later(s, t) && Later(t, u)
    ensures Later(s, u)
  {
    FollowsTransitive(CAR_PREFIX, Ledger(Ids(s.vehicles), s.vehicleSequence), Ledger(Ids(t.vehicles), t.vehicleSequence), Ledger(Ids(u.vehicles), u.vehicleSequence));
    FollowsTransitive(ADR_PREFIX, Ledger(Ids(s.addresses), s.addressSequence), Ledger(Ids(t.addresses), t.addressSequence), Ledger(Ids(u.addresses), u.addressSequence));
    OrdersFollowTransitive(s, t, u);
  }

  lemma OrdersFollowTransitive(s: Session, t: Session, u: Session)
    requires OrdersFollow(s, t) && OrdersFollow(t, u)
    ensures OrdersFollow(s, u)
  {
    forall o | o in u.orders ensures o in s.orders || NewOrder(s, u, o) {
      if o !in t.orders {
        var n: nat :| t.orderSequence < n <= u.orderSequence && o.id == OrderId(n);
        assert s.orderSequence < n <= u.orderSequence;
      } else if o !in s.orders {
        var n: nat :| s.orderSequence < n <= t.orderSequence && o.id == OrderId(n);
        assert s.orderSequence < n <= u.orderSequence;
      }
    }
  }

  /**
   * The session invariant over every run of commands: the collections stay within their
   * limits, ids stay pairwise distinct, receipts are the last generations without a gap,
   * an appointment is on the highlighted day, and names stay under their cap.
   */
  lemma {:induction false} RunKeeps(s: Session, commands: seq<Command>)
    requires Inv(s)
    ensures Inv(Run(s, commands)) && Later(s, Run(s, commands))
    decreases commands
  {
    if commands != [] {
      var t := Apply(s, commands[0]).state;
      ApplyKeeps(s, commands[0]);
      RunKeeps(t, commands[1..]);
      LaterTransitive(s, t, Run(t, commands[1..]));
    }
  }

  /** A car or address id that deletion took away is never used again. */
  lemma RecordIdsNeverReissued(s: Session, first: seq<Command>, rest: seq<Command>, id: Text)
    requires Inv(s)
    ensures var t := Run(s, first); var u := Run(t, rest);
      && (id in Ids(s.vehicles) && id !in Ids(t.vehicles) ==> id !in Ids(u.vehicles))
      && (id in Ids(s.addresses) && id !in Ids(t.addresses) ==> id !in Ids(u.addresses))
  {
    var t := Run(s, first);
    var u := Run(t, rest);
    RunKeeps(s, first);
    RunKeeps(t, rest);
    var v0, v1, v2 := Ledger(Ids(s.vehicles), s.vehicleSequence), Ledger(Ids(t.vehicles), t.vehicleSequence), Ledger(Ids(u.vehicles), u.vehicleSequence);
    var a0, a1, a2 := Ledger(Ids(s.addresses), s.addressSequence), Ledger(Ids(t.addresses), t.addressSequence), Ledger(Ids(u.addresses), u.addressSequence);
    if id in v0.ids && id !in v1.ids { NeverReissued(CAR_PREFIX, v0, v1, v2, id); }
    if id in a0.ids && id !in a1.ids { NeverReissued(ADR_PREFIX, a0, a1, a2, id); }
  }

  /** An order whose number is not ahead of the counter keeps its id to itself, whatever follows. */
  lemma SameIdSameOrder(s: Session, t: Session, before: Order, after: Order)
    requires Distinct(OrderIds(s.orders)) && OrdersFollow(s, t) && !Beyond(before.id, s.orderSequence)
    requires before in s.orders && after in t.orders && before.id == after.id
    ensures after == before
  {
    var i :| 0 <= i < |s.orders| && s.orders[i] == before;
    assert OrderIds(s.orders)[i] == before.id;
    assert !NewOrder(s, t, after);
    var j :| 0 <= j < |s.orders| && s.orders[j] == after;
    assert OrderIds(s.orders)[j] == after.id;
  }

  // ------------------------------------------------------------ confirming once

  /** While its generation is one of the last ten, the receipt is where the generation says. */
  predicate Kept(s: Session, r: Receipt) {
    && r.key < s.draftGeneration
    && (s.draftGeneration - r.key <= RECEIPT_HISTORY_LIMIT ==>
          s.draftGeneration - r.key <= |s.receipts| && s.receipts[s.draftGeneration - 1 - r.key] == r)
  }

  lemma SameReceiptsRemember(s: Session, t: Session, r: Receipt)
    requires Kept(s, r) && t.receipts == s.receipts && t.draftGeneration == s.draftGeneration
    ensures Kept(t, r)
  {
  }

  lemma AcceptedRemembers(s: Session, c: ConfirmCommand)
    requires ReceiptsOk(s) && Accepts(s, c)
    ensures Kept(Accepted(s, c).state, Receipt(c.key, c.fingerprint, Accepted(s, c).outcome.orderId))
    ensures forall r :: Kept(s, r) ==> Kept(Accepted(s, c).state, r)
  {
    BookedReceipts(s, c, MadeOrder(s, c), NextNumber(OrderIds(s.orders), s.orderSequence), ConfirmedCar(s, c), ConfirmedAddress(s));
  }

  lemma ShiftKept(s: Session, t: Session, r: Receipt)
    requires Kept(s, r) && t.draftGeneration == s.draftGeneration + 1
    requires forall i :: 1 <= i < |t.receipts| ==> i <= |s.receipts| && t.receipts[i] == s.receipts[i - 1]
    requires |t.receipts| == |s.receipts| + 1 || |t.receipts| == RECEIPT_HISTORY_LIMIT
    ensures Kept(t, r)
  {
    var at := t.draftGeneration - 1 - r.key;
    assert t.draftGeneration - r.key <= RECEIPT_HISTORY_LIMIT ==> at < |t.receipts| && t.receipts[at] == s.receipts[at - 1];
  }

  lemma ConfirmRemembers(s: Session, c: ConfirmCommand, r: Receipt)
    requires ReceiptsOk(s) && Kept(s, r)
    ensures Kept(ConfirmBooking(s, c).state, r)
  {
    CreatedIff(s, c);
    if Accepts(s, c) {
      ConfirmAccepts(s, c);
      AcceptedRemembers(s, c);
    } else {
      OnlyCreationRecords(s, c);
      SameReceiptsRemember(s, ConfirmBooking(s, c).state, r);
    }
  }

  lemma OthersKeepReceipts(s: Session, c: Command)
    requires !c.Confirm?
    ensures var t := Apply(s, c).state; t.receipts == s.receipts && t.draftGeneration == s.draftGeneration
  {
    if !ChangesBooks(c) {
      DraftCommandsKeepBooks(s, c);
    }
  }

  lemma ApplyRemembers(s: Session, c: Command, r: Receipt)
    requires ReceiptsOk(s) && Kept(s, r)
    ensures Kept(Apply(s, c).state, r)
  {
    if c.Confirm? {
      ConfirmRemembers(s, c.confirm, r);
    } else {
      OthersKeepReceipts(s, c);
      SameReceiptsRemember(s, Apply(s, c).state, r);
    }
  }

  lemma {:induction false} RunRemembers(s: Session, commands: seq<Command>, r: Receipt)
    requires Inv(s) && Kept(s, r)
    ensures Kept(Run(s, commands), r)
    decreases commands
  {
    if commands != [] {
      ApplyKeeps(s, commands[0]);
      ApplyRemembers(s, commands[0], r);
      RunRemembers(Apply(s, commands[0]).state, commands[1..], r);
    }
  }

  lemma FindKept(s: Session, r: Receipt)
    requires ReceiptsOk(s) && Kept(s, r)
    ensures FindReceipt(s.receipts, r.key) == if s.draftGeneration - r.key <= RECEIPT_HISTORY_LIMIT then Some(r) else None
  {
    var found := FindReceipt(s.receipts, r.key);
    assert s.draftGeneration - r.key <= RECEIPT_HISTORY_LIMIT ==> s.receipts[s.draftGeneration - 1 - r.key].key == r.key;
    var at := s.draftGeneration - 1 - r.key;
    if found.Some? {
      var i :| 0 <= i < |s.receipts| && s.receipts[i] == found.value;
      assert i == at;
    }
  }

  /** What confirming a remembered key answers. */
  lemma AgainAnswers(t: Session, r: Receipt, again: ConfirmCommand)
    requires ReceiptsOk(t) && Kept(t, r) && again.key == r.key
    ensures ConfirmBooking(t, again) == ConfirmResult(t, None,
      if t.draftGeneration - r.key > RECEIPT_HISTORY_LIMIT then Stale
      else if again.fingerprint == r.fingerprint then Replay(r.orderId)
      else Conflict)
  {
    FindKept(t, r);
  }

  /**
   * Once a confirmation created an order, whatever commands follow, confirming that key
   * again changes nothing and creates nothing: with the same payload it answers the
   * recorded order for the next nine generations, with another payload it is a conflict,
   * and after ten newer confirmations it is stale.
   */
  lemma ConfirmedOnce(s: Session, c: ConfirmCommand, between: seq<Command>, again: ConfirmCommand)
    requires Inv(s) && ConfirmBooking(s, c).outcome.Created? && again.key == c.key
    ensures
      var t := Run(ConfirmBooking(s, c).state, between);
      var r := ConfirmBooking(t, again);
      && r.state == t && r.intent == None && t.draftGeneration > c.key
      && r.outcome ==
           if t.draftGeneration - c.key > RECEIPT_HISTORY_LIMIT then Stale
           else if again.fingerprint == c.fingerprint then Replay(ConfirmBooking(s, c).outcome.orderId)
           else Conflict
  {
    CreatedIff(s, c);
    ConfirmAccepts(s, c);
    AcceptedRemembers(s, c);
    AcceptedKeeps(s, c);
    RunAnswers(Accepted(s, c).state, between, Receipt(c.key, c.fingerprint, Accepted(s, c).outcome.orderId), again);
  }

  lemma RunAnswers(first: Session, between: seq<Command>, r: Receipt, again: ConfirmCommand)
    requires Inv(first) && Kept(first, r) && again.key == r.key
    ensures var t := Run(first, between);
      && t.draftGeneration > r.key
      && ConfirmBooking(t, again) == ConfirmResult(t, None,
           if t.draftGeneration - r.key > RECEIPT_HISTORY_LIMIT then Stale
           else if again.fingerprint == r.fingerprint then Replay(r.orderId)
           else Conflict)
  {
    RunKeeps(first, between);
    RunRemembers(first, between, r);
    AgainAnswers(Run(first, between), r, again);
  }

  // ------------------------------------------------------------ a journey that ends in an order

  /** Confirming, at once and unchanged, the draft that the session holds. */
  function ConfirmNow(t: Session, now: Instant, quote: Quote, sizeName: Text): ConfirmCommand {
    ConfirmCommand(t.draftGeneration, DraftFingerprint(t.draft), now, quote, Some(sizeName))
  }

  lemma AcceptsNow(t: Session, now: Instant, quote: Quote, sizeName: Text)
    requires Confirmable(t.draft, now) && IsValidQuote(quote)
    ensures Accepts(t, ConfirmNow(t, now, quote, sizeName))
  {
  }

  /** The draft after the shortest choices of every step. */
  function QuickDraft(d: Draft, now: Instant): Draft {
    var d1 := Edited(Edited(Edited(d, SelectVehicleType(Sedan)), ChangePlate([])), SelectCare(Exterior, []));
    var d2 := Edited(Edited(d1, ChooseSample(SampleHome)), ChooseEarliest(now));
    Edited(Edited(d2, FillDemo), SelectPayment(Cash))
  }

  lemma TrimmedLength(t: Text)
    requires t != [] && !IsSpace(t[0]) && !IsSpace(t[|t| - 1])
    ensures |Trim(t)| == |t|
  {
    TrimFixpoint(t);
  }

  lemma DigitsAreAPhone(t: Text)
    requires AllDigits(t) && 8 <= |t| <= 15
    ensures IsPhoneAcceptable(t)
  {
    LatinFixpoint(t);
    StripFixpoint(t);
  }

  lemma QuickConfirmable(e: Draft, now: Instant)
    requires e.vehicleType == Sedan && e.plate == [] && e.service == Exterior && e.paymentMethod == Some(Cash) && e.slot == EarliestSlot(now)
    requires |Trim(e.address)| >= ADDRESS_MIN_LENGTH && |Trim(e.contactName)| >= 2 && IsPhoneAcceptable(e.contactPhone)
    ensures Confirmable(e, now)
  {
    EarliestSlotIsLeast(now);
  }

  lemma QuickFields(d: Draft, now: Instant)
    ensures var e := QuickDraft(d, now);
      && e.vehicleType == Sedan && e.plate == [] && e.service == Exterior && e.address == SAMPLE_HOME
      && e.contactName == DEMO_NAME && e.contactPhone == DEMO_PHONE && e.paymentMethod == Some(Cash)
      && e.slot == EarliestSlot(now)
  {
    EarliestSlotIsLeast(now);
  }

  /** From every session, at every instant, the journey can end in an order: no state is stuck. */
  lemma JourneyCanFinish(s: Session, now: Instant, quote: Quote, sizeName: Text)
    requires ReceiptsOk(s) && IsValidQuote(quote)
    ensures var t := s.(draft := QuickDraft(s.draft, now));
      ConfirmBooking(t, ConfirmNow(t, now, quote, sizeName)).outcome.Created?
  {
    QuickDraftConfirmable(s.draft, now);
    CreatesNow(s.(draft := QuickDraft(s.draft, now)), now, quote, sizeName);
  }

  lemma QuickDraftConfirmable(d: Draft, now: Instant)
    ensures Confirmable(QuickDraft(d, now), now)
  {
    QuickFields(d, now);
    QuickPlace();
    QuickName();
    QuickPhone();
    QuickConfirmable(QuickDraft(d, now), now);
  }

  lemma QuickPlace()
    ensures |Trim(SAMPLE_HOME)| >= ADDRESS_MIN_LENGTH
  {
    TrimmedLength(SAMPLE_HOME);
  }

  lemma QuickName()
    ensures |Trim(DEMO_NAME)| >= 2
  {
    TrimmedLength(DEMO_NAME);
  }

  lemma QuickPhone()
    ensures IsPhoneAcceptable(DEMO_PHONE)
  {
    DigitsAreAPhone(DEMO_PHONE);
  }

  lemma CreatesNow(t: Session, now: Instant, quote: Quote, sizeName: Text)
    requires ReceiptsOk(t) && Confirmable(t.draft, now) && IsValidQuote(quote)
    ensures ConfirmBooking(t, ConfirmNow(t, now, quote, sizeName)).outcome.Created?
  {
    AcceptsNow(t, now, quote, sizeName);
    CreatedIff(t, ConfirmNow(t, now, quote, sizeName));
  }

  // ------------------------------------------------------------ saving

  /** Saving a car twice from the garage editor is saving it once. */
  lemma SaveCarTwice(s: Session, editing: Option<Text>, values: EditorValues, sizeName: Text)
    requires Inv(s)
    ensures var once := SaveGarageVehicle(s, editing, values, sizeName);
      SaveGarageVehicle(once, editing, values, sizeName) == once
  {
    SaveTwice(s.vehicles, s.vehicleSequence, CAR_PREFIX, GARAGE_CAPACITY, editing, GarageFields(values, sizeName), SameCar);
  }

  /** Saving an address twice from the account editor is saving it once. */
  lemma SaveAddressTwice(s: Session, sheet: Sheet, editing: Option<Text>)
    requires Inv(s)
    ensures var once := SubmitAccountAddress(s, sheet, editing);
      SubmitAccountAddress(once, sheet, editing) == once
  {
    SaveRecordTwice(s, SheetFields(sheet), editing);
  }

  lemma SaveRecordTwice(s: Session, f: AddressFields, id: Option<Text>)
    requires BookOk(s)
    ensures var once := SaveAddressRecord(s, f, id);
      var t := s.(addresses := once.records, addressSequence := once.sequence);
      var twice := SaveAddressRecord(t, f, id);
      twice.records == once.records && twice.sequence == once.sequence
  {
    SaveTwice(s.addresses, s.addressSequence, ADR_PREFIX, ADDRESS_BOOK_CAPACITY, id, f, SameAddress);
    StillFound(s, f, id);
  }

  lemma StillFound(s: Session, f: AddressFields, id: Option<Text>)
    requires BookOk(s)
    ensures FindId(s.addresses, id).Some? ==> FindId(SaveAddressRecord(s, f, id).records, id).Some?
  {
    if FindId(s.addresses, id).Some? {
      var k := FindId(s.addresses, id).value;
      assert SaveAddressRecord(s, f, id).records[k].id == s.addresses[k].id;
    }
  }

  /**
   * One address save: ids and positions stay, at most one record changes, and an unknown
   * id or a full book changes nothing.
   */
  lemma SaveAddressChangesOne(s: Session, f: AddressFields, id: Option<Text>)
    requires Inv(s)
    ensures var r := SaveAddressRecord(s, f, id);
      && Ids(s.addresses) <= Ids(r.records) && |r.records| <= |s.addresses| + 1
      && (forall i, j :: 0 <= i < j < |s.addresses| ==> r.records[i] == s.addresses[i] || r.records[j] == s.addresses[j])
      && (r.outcome == Missing <==> id.Some? && id.value !in Ids(s.addresses))
      && (r.outcome == Missing || r.outcome == Capacity ==> r.records == s.addresses && r.sequence == s.addressSequence)
      && (r.outcome != Missing && r.outcome != Capacity ==> r.id.Some? && Record(r.id.value, f) in r.records)
  {
    SaveChangesOne(s.addresses, s.addressSequence, ADR_PREFIX, ADDRESS_BOOK_CAPACITY, id, f, SameAddress);
    if id.Some? && FindId(s.addresses, id).Some? {
      assert Ids(s.addresses)[FindId(s.addresses, id).value] == id.value;
    }
  }
}
