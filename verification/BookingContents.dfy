/** What a created order and the session around it record, told from the draft and the command alone. */
module BookingContents {
  import opened Text
  import opened Scheduling
  import opened BookingDraft
  import opened Records
  import opened Booking
  import opened BookingProofs
  import opened BookingRepeat

  // ------------------------------------------------------------ the draft's choices

  /** Trimmed, and cut at `max`. */
  ghost predicate Cut(t: Text, r: Text, max: nat) {
    r <= Trim(t) && |r| == if |Trim(t)| < max then |Trim(t)| else max
  }

  /** The positions of the known add-ons, in order and without a gap. */
  ghost predicate KnownAt(xs: seq<CareExtra>, ys: seq<CareExtra>, at: seq<nat>) {
    && |at| == |ys| && (forall i, j :: 0 <= i < j < |at| ==> at[i] < at[j])
    && (forall i :: 0 <= i < |at| ==> at[i] < |xs| && xs[at[i]] == ys[i] && !ys[i].OtherExtra?)
    && (forall k: nat :: k < |xs| && !xs[k].OtherExtra? ==> k in at)
  }

  ghost predicate KnownInOrder(xs: seq<CareExtra>, ys: seq<CareExtra>) {
    exists at: seq<nat> :: KnownAt(xs, ys, at)
  }

  function Shifted(at: seq<nat>): (r: seq<nat>)
    ensures |r| == |at| && forall i :: 0 <= i < |at| ==> r[i] == at[i] + 1
  {
    seq(|at|, i requires 0 <= i < |at| => at[i] + 1)
  }

  lemma ShiftedCovers(at: seq<nat>, k: nat)
    requires k in at
    ensures k + 1 in Shifted(at)
  {
    var i :| 0 <= i < |at| && at[i] == k;
    assert Shifted(at)[i] == k + 1;
  }

  /** What `Shifted` makes of the positions in the tail. */
  ghost predicate TailAt(xs: seq<CareExtra>, ys: seq<CareExtra>, at: seq<nat>) {
    && |at| == |ys| && (forall i, j :: 0 <= i < j < |at| ==> at[i] < at[j])
    && (forall i :: 0 <= i < |at| ==> 0 < at[i] < |xs| && xs[at[i]] == ys[i] && !ys[i].OtherExtra?)
    && (forall k: nat :: 0 < k < |xs| && !xs[k].OtherExtra? ==> k in at)
  }

  lemma ShiftedIsTail(xs: seq<CareExtra>, ys: seq<CareExtra>, at: seq<nat>)
    requires xs != [] && KnownAt(xs[1..], ys, at)
    ensures TailAt(xs, ys, Shifted(at))
  {
    var r := Shifted(at);
    forall i | 0 <= i < |r| ensures 0 < r[i] < |xs| && xs[r[i]] == ys[i] { assert xs[1..][at[i]] == xs[at[i] + 1]; }
    forall k: nat | 0 < k < |xs| && !xs[k].OtherExtra? ensures k in r {
      assert xs[1..][k - 1] == xs[k];
      ShiftedCovers(at, k - 1);
    }
  }

  lemma KeepAt(xs: seq<CareExtra>, ys: seq<CareExtra>, at: seq<nat>)
    requires xs != [] && !xs[0].OtherExtra? && TailAt(xs, ys, at)
    ensures KnownAt(xs, [xs[0]] + ys, [0] + at)
  {
    var r := [0] + at;
    assert forall i :: 0 < i < |r| ==> r[i] == at[i - 1];
    assert r[0] == 0;
    forall k: nat | k < |xs| && !xs[k].OtherExtra? ensures k in r {
      assert k > 0 ==> k in at;
    }
  }

  lemma {:induction false} KnownExtrasAt(xs: seq<CareExtra>) returns (at: seq<nat>)
    ensures KnownAt(xs, KnownExtras(xs), at)
  {
    if xs == [] {
      at := [];
    } else {
      at := KnownExtrasAt(xs[1..]);
      ShiftedIsTail(xs, KnownExtras(xs[1..]), at);
      at := Shifted(at);
      if !xs[0].OtherExtra? {
        KeepAt(xs, KnownExtras(xs[1..]), at);
        at := [0] + at;
      }
    }
  }

  /** The order has the draft's own choices and appointment, and its texts. */
  ghost predicate TakesDraft(d: Draft, o: Order) {
    && o.stage == 0 && o.vehicleType == d.vehicleType && o.service == d.service && o.paymentMethod == d.paymentMethod && o.slot == d.slot
    && KnownInOrder(d.extras, o.extras)
    && Cut(d.carName, o.carName, 60) && Cut(d.color, o.color, 30) && Cut(d.note, o.note, 300)
    && Cut(d.contactName, o.contactName, CONTACT_NAME_MAX_LENGTH)
    && o.address == Trim(d.address) && o.addressLabel == Trim(d.addressLabel) && o.locationNote == Trim(d.locationNote)
    && o.plate == ConfirmedPlate(d.plate) && o.contactPhone == ConfirmedPhone(d.contactPhone)
  }

  /** The order records its instant, what the catalog answered, and what is to be paid how. */
  ghost predicate RecordsQuote(d: Draft, c: ConfirmCommand, o: Order) {
    && o.confirmation.Some? && d.paymentMethod.Some? && c.quote.Quoted?
    && var r := o.confirmation.value;
       && r.createdAt == c.now && r.total == c.quote.total && r.minutes == c.quote.minutes && r.place == d.place
       && r.payment.payBy == d.paymentMethod.value && r.payment.amount == c.quote.total
       && (r.payment.status == CashDue <==> d.paymentMethod.value == Cash)
  }

  lemma OrderTakes(d: Draft, id: Text, carId: Option<Text>, c: ConfirmCommand)
    requires IsKnownMethod(d.paymentMethod) && c.quote.Quoted? && d.slot.Some?
    ensures var o := ConfirmedOrder(d, id, carId, c.now, c.quote);
      TakesDraft(d, o) && RecordsQuote(d, c, o) && o.id == id && o.confirmation.value.carId == carId
  {
    var at := KnownExtrasAt(d.extras);
    assert KnownInOrder(d.extras, KnownExtras(d.extras));
    ClipCuts(d.carName, 60);
    ClipCuts(d.color, 30);
    ClipCuts(d.note, 300);
    ClipCuts(d.contactName, CONTACT_NAME_MAX_LENGTH);
  }

  lemma ClipCuts(t: Text, max: nat)
    ensures Cut(t, Clip(t, max), max) && Cut(t, Cap(Trim(t), max), max)
  {
  }

  // ------------------------------------------------------------ the saved car and address

  /** At most record `i` differs: it is new at the end, or stood there under the same id. */
  ghost predicate OnlyAt<F(!new)>(before: seq<Record<F>>, after: seq<Record<F>>, i: nat, added: bool) {
    && i < |after| && |after| == |before| + (if added then 1 else 0) && (added ==> i == |before|)
    && (forall j :: 0 <= j < |before| && j != i ==> after[j] == before[j])
    && (i < |before| ==> after[i].id == before[i].id)
  }

  /** The car as the draft describes it, under the size's name if it has none. */
  ghost predicate CarOf(d: Draft, sizeName: Text, f: VehicleFields) {
    && f.vehicleType == d.vehicleType && f.plate == ConfirmedPlate(d.plate) && Cut(d.color, f.color, 30)
    && if Trim(d.carName) == [] then f.name == sizeName else Cut(d.carName, f.name, 60)
  }

  ghost predicate CarSaved(s: Session, c: ConfirmCommand, cars: seq<Record<VehicleFields>>, outcome: Outcome, carId: Option<Text>) {
    var d := s.draft;
    match outcome
    case Off => !d.saveVehicle && cars == s.vehicles && carId == d.carId
    case Capacity => d.saveVehicle && cars == s.vehicles && |s.vehicles| >= GARAGE_CAPACITY && carId == d.carId
    case Missing => false
    case _ =>
      && d.saveVehicle && c.sizeName.Some?
      && (exists i: nat :: OnlyAt(s.vehicles, cars, i, outcome == Added) && carId == Some(cars[i].id) && CarOf(d, c.sizeName.value, cars[i].fields))
      && (d.carId.Some? && d.carId.value in Ids(s.vehicles) ==> outcome == Updated && carId == d.carId)
  }

  /** The address as the draft describes it. */
  ghost predicate AddressOf(d: Draft, f: AddressFields) {
    && Cut(d.address, f.address, 160) && Cut(d.locationNote, f.locationNote, 160) && f.place == d.place
    && if Trim(d.addressLabel) == [] then f.title == SAVED_FALLBACK_LABEL else Cut(d.addressLabel, f.title, 30)
  }

  ghost predicate AddressSaved(s: Session, places: seq<Record<AddressFields>>, outcome: Outcome) {
    match outcome
    case Off => !s.draft.saveAddress && places == s.addresses
    case Capacity => s.draft.saveAddress && places == s.addresses && |s.addresses| >= ADDRESS_BOOK_CAPACITY
    case Missing => false
    case _ =>
      s.draft.saveAddress
      && exists i: nat :: OnlyAt(s.addresses, places, i, outcome == Added) && AddressOf(s.draft, places[i].fields)
  }

  /** Where a save without a refusal puts the record. */
  lemma SaveAt<F(!new)>(rs: seq<Record<F>>, sequence: nat, prefix: Text, capacity: nat, editing: Option<Text>, f: F, same: (F, F) -> bool) returns (i: nat)
    requires Distinct(Ids(rs))
    ensures var r := Save(rs, sequence, prefix, capacity, editing, f, same);
      && (r.outcome == Added || r.outcome == Updated || r.outcome == Capacity)
      && (r.outcome == Capacity ==> r.records == rs && |rs| >= capacity && r.id.None?)
      && (r.outcome != Capacity ==> OnlyAt(rs, r.records, i, r.outcome == Added) && r.records[i].fields == f && r.id == Some(r.records[i].id))
      && (editing.Some? && editing.value in Ids(rs) ==> r.outcome == Updated && r.id == editing)
  {
    var r := Save(rs, sequence, prefix, capacity, editing, f, same);
    i := |rs|;
    if editing.Some? && editing.value in Ids(rs) {
      var k :| 0 <= k < |rs| && Ids(rs)[k] == editing.value;
      assert FindId(rs, editing).Some?;
    }
    if r.outcome == Updated {
      i := FindExisting(rs, editing, f, same).value;
      forall j | 0 <= j < |rs| && j != i ensures r.records[j] == rs[j] {
        assert Ids(rs)[j] != Ids(rs)[i];
      }
    }
  }

  lemma CarKept(s: Session, c: ConfirmCommand)
    requires Inv(s) && Accepts(s, c)
    ensures
      var car := ConfirmedCar(s, c);
      CarSaved(s, c, car.records, car.outcome, if car.id.Some? then car.id else s.draft.carId)
  {
    var d := s.draft;
    if d.saveVehicle {
      var f := VehicleFields(d.vehicleType, OrElse(Clip(d.carName, 60), c.sizeName.value), Clip(ConfirmedPlate(d.plate), PLATE_MAX_LENGTH), Clip(d.color, 30));
      CarFields(d, c.sizeName.value);
      var i := SaveAt(s.vehicles, s.vehicleSequence, CAR_PREFIX, GARAGE_CAPACITY, d.carId, f, SameCar);
    }
  }

  /** An acceptable plate is short enough to be saved whole. */
  lemma PlateFits(plate: Text)
    requires IsPlateAcceptable(plate)
    ensures Clip(ConfirmedPlate(plate), PLATE_MAX_LENGTH) == ConfirmedPlate(plate)
  {
    ConfirmedPlateShape(plate);
  }

  lemma CarFields(d: Draft, sizeName: Text)
    requires IsPlateAcceptable(d.plate)
    ensures CarOf(d, sizeName, VehicleFields(d.vehicleType, OrElse(Clip(d.carName, 60), sizeName),
      Clip(ConfirmedPlate(d.plate), PLATE_MAX_LENGTH), Clip(d.color, 30)))
  {
    PlateFits(d.plate);
    CarTexts(d.carName, d.color, sizeName);
  }

  lemma CarTexts(carName: Text, color: Text, sizeName: Text)
    ensures if Trim(carName) == [] then OrElse(Clip(carName, 60), sizeName) == sizeName else Cut(carName, OrElse(Clip(carName, 60), sizeName), 60)
    ensures Cut(color, Clip(color, 30), 30)
  {
  }

  lemma AddressKept(s: Session)
    requires Inv(s)
    ensures AddressSaved(s, ConfirmedAddress(s).records, ConfirmedAddress(s).outcome)
  {
    var d := s.draft;
    if d.saveAddress {
      var f := AddressToSave(d.address, d.addressLabel, d.locationNote, d.place);
      ClipCuts(d.address, 160);
      ClipCuts(d.locationNote, 160);
      ClipCuts(d.addressLabel, 30);
      var i := SaveAt(s.addresses, s.addressSequence, ADR_PREFIX, ADDRESS_BOOK_CAPACITY, None, f, SameAddress);
    }
  }

  // ------------------------------------------------------------ the session around the order

  /** The order comes first, the others keep their places, and the eightieth of them is dropped. */
  ghost predicate ListedFirst(s: Session, t: Session) {
    && |t.orders| == (if |s.orders| < ORDER_HISTORY_LIMIT then |s.orders| + 1 else ORDER_HISTORY_LIMIT)
    && (forall i :: 1 <= i < |t.orders| ==> i <= |s.orders| && t.orders[i] == s.orders[i - 1])
    && t.orders[0].id !in OrderIds(s.orders)
  }

  /** The customer's profile, the next draft and the receipt, and where the customer goes. */
  ghost predicate StartsOver(s: Session, c: ConfirmCommand, r: ConfirmResult) {
    var t := r.state;
    && t.orders != [] && t.receipts != []
    && t.profileName == t.orders[0].contactName && t.profilePhone == t.orders[0].contactPhone
    && t.draft == BLANK.(contactName := t.profileName, contactPhone := t.profilePhone)
    && t.draftStep == Finite(0.0) && t.mode == Standard && !t.showAllTimes && !t.reviewEditing
    && t.draftGeneration == s.draftGeneration + 1 && t.receipts[0] == Receipt(c.key, c.fingerprint, t.orders[0].id)
    && r.intent == t.handoff == Some(if s.draft.paymentMethod == Some(Cash) then GoTracking(t.orders[0].id) else GoPayment(t.orders[0].id))
  }

  lemma BookedShape(s: Session, c: ConfirmCommand, o: Order, number: nat, car: Saved<VehicleFields>, address: Saved<AddressFields>)
    requires |s.orders| <= ORDER_HISTORY_LIMIT && o.id !in OrderIds(s.orders) && o.paymentMethod == s.draft.paymentMethod
    ensures
      var r := Booked(s, c, o, number, car, address);
      && r.outcome == Created(o.id, car.outcome, address.outcome) && StartsOver(s, c, r)
      && r.state.orders != [] && r.state.orders[0] == o && ListedFirst(s, r.state)
      && r.state.vehicles == car.records && r.state.addresses == address.records
  {
  }

  /** Everything that a created order's confirmation recorded. */
  ghost predicate Recorded(s: Session, c: ConfirmCommand, r: ConfirmResult) {
    && r.outcome.Created? && r.state.orders != [] && r.state.orders[0].id == r.outcome.orderId
    && TakesDraft(s.draft, r.state.orders[0]) && RecordsQuote(s.draft, c, r.state.orders[0])
    && CarSaved(s, c, r.state.vehicles, r.outcome.vehicle, r.state.orders[0].confirmation.value.carId)
    && AddressSaved(s, r.state.addresses, r.outcome.address)
    && ListedFirst(s, r.state) && StartsOver(s, c, r)
  }

  lemma BookedIsRecorded(s: Session, c: ConfirmCommand, o: Order, number: nat, car: Saved<VehicleFields>, address: Saved<AddressFields>)
    requires |s.orders| <= ORDER_HISTORY_LIMIT && o.id !in OrderIds(s.orders) && o.paymentMethod == s.draft.paymentMethod
    requires TakesDraft(s.draft, o) && RecordsQuote(s.draft, c, o)
    requires CarSaved(s, c, car.records, car.outcome, o.confirmation.value.carId) && AddressSaved(s, address.records, address.outcome)
    ensures Recorded(s, c, Booked(s, c, o, number, car, address))
  {
    BookedShape(s, c, o, number, car, address);
  }

  lemma AcceptedRecords(s: Session, c: ConfirmCommand)
    requires Inv(s) && Accepts(s, c)
    ensures Recorded(s, c, Accepted(s, c))
  {
    var car := ConfirmedCar(s, c);
    var number := NextNumber(OrderIds(s.orders), s.orderSequence);
    OrderTakes(s.draft, OrderId(number), if car.id.Some? then car.id else s.draft.carId, c);
    CarKept(s, c);
    AddressKept(s);
    BookedIsRecorded(s, c, MadeOrder(s, c), number, car, ConfirmedAddress(s));
  }

  /**
   * What a confirmation records, in the terms of the draft it confirms and of the command.
   * The new order comes first, with the draft's choices, appointment and texts, the instant
   * of the command, the catalog's total and minutes, the total as the amount, due in cash if
   * and only if it is paid so, and the id of the saved car where one was saved. The car and
   * the address are saved as described, each in one record at most; the draft starts over.
   */
  lemma CreatedRecords(s: Session, c: ConfirmCommand)
    requires Inv(s) && ConfirmBooking(s, c).outcome.Created?
    ensures Recorded(s, c, ConfirmBooking(s, c))
  {
    CreatedIff(s, c);
    ConfirmAccepts(s, c);
    AcceptedRecords(s, c);
  }

  /** After any run, the order of that id, as long as it is listed, is the one that was confirmed, and asks for the quoted total. */
  lemma QuotedForGood(s: Session, c: ConfirmCommand, between: seq<Command>, o: Order)
    requires Inv(s) && ConfirmBooking(s, c).outcome.Created?
    requires o in Run(ConfirmBooking(s, c).state, between).orders && o.id == ConfirmBooking(s, c).outcome.orderId
    ensures TakesDraft(s.draft, o) && RecordsQuote(s.draft, c, o)
  {
    CreatedRecords(s, c);
    CreatedIff(s, c);
    ConfirmAccepts(s, c);
    AcceptedKeeps(s, c);
    MadeOrderListed(s, c);
    var t := Accepted(s, c).state;
    RunKeeps(t, between);
    SameIdSameOrder(t, Run(t, between), t.orders[0], o);
  }
}
