/** What each edit of the draft sets, when it is refused, and that it leaves everything else alone. */
module BookingEdits {
  import opened Text
  import opened Scheduling
  import opened BookingDraft
  import opened Records
  import opened Booking
  import opened BookingProofs
  import opened BookingContents

  // ------------------------------------------------------------ the parts of a draft

  predicate SameVehicle(d: Draft, e: Draft) {
    && e.vehicleType == d.vehicleType && e.carId == d.carId && e.carName == d.carName
    && e.plate == d.plate && e.color == d.color && e.saveVehicle == d.saveVehicle
  }

  predicate SameCare(d: Draft, e: Draft) {
    e.service == d.service && e.extras == d.extras
  }

  predicate SamePlace(d: Draft, e: Draft) {
    && e.address == d.address && e.addressLabel == d.addressLabel && e.locationNote == d.locationNote
    && e.place == d.place && e.saveAddress == d.saveAddress
  }

  predicate SameSchedule(d: Draft, e: Draft) {
    e.scheduleDay == d.scheduleDay && e.slot == d.slot
  }

  predicate SameContact(d: Draft, e: Draft) {
    e.contactName == d.contactName && e.contactPhone == d.contactPhone && e.note == d.note
  }

  predicate EditsVehicle(e: Edit) {
    e.SelectVehicleType? || e.ChangePlate? || e.SetSaveVehicle? || e.ApplyEditor?
  }

  predicate EditsCare(e: Edit) {
    e.SelectCare? || e.SetExtra?
  }

  predicate EditsPlace(e: Edit) {
    e.ChooseSample? || e.ApplySheet?
  }

  predicate EditsContact(e: Edit) {
    e.EditName? || e.EditPhone? || e.EditNote? || e.FillDemo?
  }

  predicate EditsSchedule(e: Edit) {
    e.SelectDay? || e.SelectTime? || e.ChooseEarliest?
  }

  /** What makes the draft refuse an edit; the earliest time is never refused, since there always is one. */
  predicate Refused(d: Draft, e: Edit) {
    match e
    case ApplyEditor(_, values) => !IsPlateAcceptable(DescribeVehicle(values).plate)
    case SetExtra(extra, _, included) => extra in included
    case ApplySheet(v) => |Trim(v.address)| < ADDRESS_MIN_LENGTH
    case SelectPayment(payBy) => payBy.OtherMethod?
    case SelectDay(day, now) => !(now.day <= day < now.day + SCHEDULE_DAY_COUNT)
    case SelectTime(hour, now) => !IsSlotAvailable(now, Slot(if d.scheduleDay.Some? then d.scheduleDay.value else DefaultScheduleDay(now), hour))
    case _ => false
  }

  /** Cut at `max`, not trimmed: what a text field takes while it is typed into. */
  predicate TypedInto(typed: Text, r: Text, max: nat) {
    r <= typed && |r| == if |typed| < max then |typed| else max
  }

  // ------------------------------------------------------------ frames

  ghost predicate Framed(d: Draft, e: Edit, r: Draft) {
    && (Refused(d, e) ==> r == d) && (!Refused(d, e) ==> r.touched)
    && (!EditsVehicle(e) ==> SameVehicle(d, r)) && (!EditsCare(e) ==> SameCare(d, r))
    && (!EditsPlace(e) ==> SamePlace(d, r)) && (!EditsSchedule(e) ==> SameSchedule(d, r))
    && (!EditsContact(e) ==> SameContact(d, r)) && (!e.SelectPayment? ==> r.paymentMethod == d.paymentMethod)
  }

  lemma VehicleFrames(d: Draft, e: Edit)
    requires EditsVehicle(e)
    ensures Framed(d, e, Edited(d, e))
  {
  }

  lemma CareFrames(d: Draft, e: Edit)
    requires EditsCare(e)
    ensures Framed(d, e, Edited(d, e))
  {
  }

  lemma SampleFrames(d: Draft, e: Edit)
    requires e.ChooseSample?
    ensures Framed(d, e, Edited(d, e))
  {
  }

  lemma CutShort(t: Text)
    ensures |Clip(t, 160)| < ADDRESS_MIN_LENGTH <==> |Trim(t)| < ADDRESS_MIN_LENGTH
  {
  }

  /** The same draft but for its place. */
  lemma SheetFrame(d: Draft, v: Sheet)
    ensures var r := Edited(d, ApplySheet(v));
      && (|Clip(v.address, 160)| < ADDRESS_MIN_LENGTH ==> r == d) && (|Clip(v.address, 160)| >= ADDRESS_MIN_LENGTH ==> r.touched)
      && SameVehicle(d, r) && SameCare(d, r) && SameSchedule(d, r) && SameContact(d, r) && r.paymentMethod == d.paymentMethod
  {
  }

  lemma SheetFrames(d: Draft, e: Edit)
    requires e.ApplySheet?
    ensures Framed(d, e, Edited(d, e))
  {
    SheetFrame(d, e.sheet);
    CutShort(e.sheet.address);
  }

  lemma ContactFrames(d: Draft, e: Edit)
    requires EditsContact(e)
    ensures Framed(d, e, Edited(d, e))
  {
  }

  lemma ScheduleFrames(d: Draft, e: Edit)
    requires EditsSchedule(e)
    ensures Framed(d, e, Edited(d, e))
  {
    EarliestSlotIsLeast(e.now);
  }

  lemma PaymentFrames(d: Draft, e: Edit)
    requires e.SelectPayment?
    ensures Framed(d, e, Edited(d, e))
  {
  }

  /** An edit touches one part of the draft, and a refused edit nothing at all. */
  lemma EditFrames(d: Draft, e: Edit)
    ensures Framed(d, e, Edited(d, e))
  {
    if EditsVehicle(e) { VehicleFrames(d, e); }
    else if EditsCare(e) { CareFrames(d, e); }
    else if e.ChooseSample? { SampleFrames(d, e); }
    else if e.ApplySheet? { SheetFrames(d, e); }
    else if EditsContact(e) { ContactFrames(d, e); }
    else if EditsSchedule(e) { ScheduleFrames(d, e); }
    else { PaymentFrames(d, e); }
  }

  // ------------------------------------------------------------ what is set

  /** The vehicle: a chosen size forgets the car, the plate field takes Latin digits up to its cap. */
  lemma VehicleEdits(d: Draft, e: Edit)
    requires EditsVehicle(e) && !e.ApplyEditor?
    ensures var r := Edited(d, e);
      match e
      case SelectVehicleType(v) =>
        r.vehicleType == v && r.carId.None? && r.carName == [] && r.color == [] && r.plate == d.plate && r.saveVehicle == d.saveVehicle
      case ChangePlate(typed) =>
        TypedInto(ToLatin(typed), r.plate, PLATE_MAX_LENGTH) && SameVehicle(d.(plate := r.plate), r)
      case SetSaveVehicle(save) => SameVehicle(d.(saveVehicle := save), r)
      case _ => true
  {
  }

  /** The editor describes a car: its texts trimmed and cut, its plate acceptable, in Latin digits and with single spaces. */
  lemma EditorSets(d: Draft, carId: Option<Text>, values: EditorValues)
    requires !Refused(d, ApplyEditor(carId, values))
    ensures var r := Edited(d, ApplyEditor(carId, values));
      && r.vehicleType == values.vehicleType && r.carId == carId && r.saveVehicle == values.saveVehicle
      && Cut(values.carName, r.carName, 60) && Cut(values.color, r.color, 30)
      && IsPlateAcceptable(r.plate) && ToLatin(r.plate) == r.plate && Collapsed(r.plate)
  {
    EditorPlate(values.plate);
    Described(values);
    EditorTakes(d, carId, values);
  }

  lemma EditorTakes(d: Draft, carId: Option<Text>, values: EditorValues)
    requires !Refused(d, ApplyEditor(carId, values))
    ensures var r, f := Edited(d, ApplyEditor(carId, values)), DescribeVehicle(values);
      && IsPlateAcceptable(f.plate) && r.vehicleType == f.vehicleType && r.carName == f.name && r.plate == f.plate && r.color == f.color
      && r.carId == carId && r.saveVehicle == values.saveVehicle
  {
  }

  lemma Described(values: EditorValues)
    ensures var f := DescribeVehicle(values);
      && f.vehicleType == values.vehicleType && Cut(values.carName, f.name, 60) && Cut(values.color, f.color, 30)
      && f.plate == Collapse(NormalizePlateInput(Clip(values.plate, PLATE_MAX_LENGTH)))
  {
    ClipCuts(values.carName, 60);
    ClipCuts(values.color, 30);
  }

  /** The editor's plate is in Latin digits, with single spaces. */
  lemma EditorPlate(typed: Text)
    ensures var r := Collapse(NormalizePlateInput(Clip(typed, PLATE_MAX_LENGTH))); ToLatin(r) == r && Collapsed(r)
  {
    var v := NormalizePlateInput(Clip(typed, PLATE_MAX_LENGTH));
    var r := Collapse(v);
    CollapseShape(v);
    forall i | 0 <= i < |r| ensures LatinDigit(r[i]) == r[i] {
      assert r[i] in r;
      CollapseMember(v, r[i]);
    }
    LatinFixpoint(r);
  }

  /** The care: a package drops the add-ons it includes; an add-on is switched on or off, and the others keep their order. */
  lemma CareEdits(d: Draft, e: Edit, x: CareExtra)
    requires EditsCare(e) && !Refused(d, e)
    ensures var r := Edited(d, e);
      match e
      case SelectCare(service, included) =>
        r.service == service && (x in r.extras <==> x in d.extras && x !in included)
      case SetExtra(extra, selected, _) =>
        && r.service == d.service && (x in r.extras <==> if x == extra then selected else x in d.extras)
        && (selected ==> d.extras <= r.extras)
      case _ => true
  {
    match e
    case SelectCare(_, included) => DropExtrasMember(d.extras, included, x);
    case SetExtra(extra, selected, _) => DropExtrasMember(d.extras, [extra], x);
    case _ =>
  }

  /** Dropping add-ons goes through the list from the front and keeps the order of what it leaves. */
  lemma {:induction false} DropConcat(a: seq<CareExtra>, b: seq<CareExtra>, dropped: seq<CareExtra>)
    ensures DropExtras(a + b, dropped) == DropExtras(a, dropped) + DropExtras(b, dropped)
  {
    if a == [] {
      assert a + b == b;
    } else {
      assert (a + b)[0] == a[0] && (a + b)[1..] == a[1..] + b;
      DropConcat(a[1..], b, dropped);
    }
  }

  /** The place: the sheet's texts are trimmed and cut, an empty title gets the fallback, a missing point the manual one. */
  lemma SheetSets(d: Draft, v: Sheet)
    requires !Refused(d, ApplySheet(v))
    ensures var r := Edited(d, ApplySheet(v));
      && Cut(v.address, r.address, 160) && Cut(v.locationNote, r.locationNote, 160) && r.saveAddress == v.saveAddress
      && (if Trim(v.title) == [] then r.addressLabel == FALLBACK_LABEL else Cut(v.title, r.addressLabel, 30))
      && r.place == (if v.place.Some? then v.place else Some(MANUAL_PLACE)) && |r.address| >= ADDRESS_MIN_LENGTH
  {
    ClipCuts(v.address, 160);
    ClipCuts(v.locationNote, 160);
    TitleOrFallback(v.title, FALLBACK_LABEL);
    SheetTexts(d, v);
  }

  lemma TitleOrFallback(title: Text, fallback: Text)
    ensures if Trim(title) == [] then OrElse(Clip(title, 30), fallback) == fallback else Cut(title, OrElse(Clip(title, 30), fallback), 30)
  {
  }

  lemma SheetTexts(d: Draft, v: Sheet)
    requires !Refused(d, ApplySheet(v))
    ensures var r := Edited(d, ApplySheet(v));
      && r.address == Clip(v.address, 160) && r.locationNote == Clip(v.locationNote, 160) && r.saveAddress == v.saveAddress
      && r.addressLabel == OrElse(Clip(v.title, 30), FALLBACK_LABEL) && r.place == PlaceOrManual(v.place)
      && |r.address| >= ADDRESS_MIN_LENGTH
  {
  }

  lemma SampleSets(d: Draft, sample: Sample)
    ensures var r := Edited(d, ChooseSample(sample));
      && r.saveAddress && r.locationNote == [] && r.place.Some?
      && r.address == (if sample == SampleHome then SAMPLE_HOME else SAMPLE_WORK)
      && r.addressLabel == (if sample == SampleHome then HOME_LABEL else WORK_LABEL)
      && r.place.value.kind == (if sample == SampleHome then Home else Work)
  {
  }

  /** The contact fields take what is typed up to their caps; the sample contact fills in both. */
  lemma ContactEdits(d: Draft, e: Edit)
    requires EditsContact(e)
    ensures var r := Edited(d, e);
      match e
      case EditName(typed) => TypedInto(typed, r.contactName, CONTACT_NAME_MAX_LENGTH) && SameContact(d.(contactName := r.contactName), r)
      case EditPhone(typed) => TypedInto(typed, r.contactPhone, 24) && SameContact(d.(contactPhone := r.contactPhone), r)
      case EditNote(typed) => TypedInto(typed, r.note, 300) && SameContact(d.(note := r.note), r)
      case FillDemo => r.contactName == DEMO_NAME && r.contactPhone == DEMO_PHONE && r.note == d.note
      case _ => true
  {
  }

  /** The schedule: a day clears the time; a time is taken on the highlighted day; the earliest is the least available one. */
  lemma ScheduleEdits(d: Draft, e: Edit)
    requires EditsSchedule(e) && !Refused(d, e)
    ensures var r := Edited(d, e);
      && r.scheduleDay.Some? && IsScheduleDay(e.now, r.scheduleDay.value)
      && match e
         case SelectDay(day, _) => r.scheduleDay == Some(day) && r.slot.None?
         case SelectTime(hour, now) => HasAvailableSlot(r, now) && r.slot.value == Slot(r.scheduleDay.value, hour) && (d.scheduleDay.Some? ==> r.scheduleDay == d.scheduleDay)
         case ChooseEarliest(now) =>
           && HasAvailableSlot(r, now) && r.scheduleDay.value == r.slot.value.date
           && forall other :: IsSlotAvailable(now, other) ==> Scheduling.Before(r.slot.value, other)
         case _ => true
  {
    EarliestSlotIsLeast(e.now);
  }

  /** The payment: a known method is taken as it is. */
  lemma PaymentEdits(d: Draft, payBy: PaymentMethod)
    ensures Edited(d, SelectPayment(payBy)).paymentMethod == if payBy.OtherMethod? then d.paymentMethod else Some(payBy)
  {
  }

  // ------------------------------------------------------------ a sheet whose address the guard refuses

  /** Some character from the fourth on, before the cut, is not white space. */
  ghost predicate ReachesFourth(t: Text) {
    exists i :: ADDRESS_MIN_LENGTH - 1 <= i < |t| && i < 160 && !IsSpace(t[i])
  }

  lemma {:induction false} TrimEndReaches(t: Text, i: nat)
    requires i < |t| && !IsSpace(t[i])
    ensures |TrimEnd(t)| > i
  {
  }

  /**
   * The sheet cuts after it trims, and the guard trims what is left: an accepted address
   * completes the location if and only if the cut leaves a fourth character or a later one
   * that is not white space. One letter, 159 spaces and three letters are accepted and fail.
   */
  lemma SheetCompletesIff(d: Draft, v: Sheet)
    requires !Refused(d, ApplySheet(v))
    ensures IsLocationComplete(Edited(d, ApplySheet(v))) <==> ReachesFourth(Trim(v.address))
  {
    SheetTexts(d, v);
    CutCompletesIff(v.address);
  }

  lemma CutCompletesIff(a: Text)
    requires |Trim(a)| >= ADDRESS_MIN_LENGTH
    ensures |Trim(Clip(a, 160))| >= ADDRESS_MIN_LENGTH <==> ReachesFourth(Trim(a))
  {
    var t, c := Trim(a), Clip(a, 160);
    TrimShape(a);
    assert c <= t && c != [] && c[0] == t[0] && TrimStart(c) == c;
    var r := TrimEnd(c);
    if i :| ADDRESS_MIN_LENGTH - 1 <= i < |t| && i < 160 && !IsSpace(t[i]) {
      assert c[i] == t[i];
      TrimEndReaches(c, i);
    }
    if |r| >= ADDRESS_MIN_LENGTH {
      assert r[|r| - 1] == c[|r| - 1] == t[|r| - 1];
    }
  }

  // ------------------------------------------------------------ starting the journey

  /** The car to start with: the draft's own, or else the first saved one. */
  ghost predicate StartsWithCar(s: Session, e: Draft) {
    if s.vehicles != [] && DescribesNoCar(s.draft) then
      var r := s.vehicles[0];
      && e.carId == Some(r.id) && e.vehicleType == r.fields.vehicleType && e.carName == r.fields.name
      && e.plate == r.fields.plate && e.color == r.fields.color && e.saveVehicle == s.draft.saveVehicle
    else SameVehicle(s.draft, e)
  }

  ghost predicate StartsWithPlace(s: Session, e: Draft) {
    if s.addresses != [] && s.draft.address == [] then
      var f := s.addresses[0].fields;
      && e.address == f.address && e.addressLabel == f.title && e.locationNote == f.locationNote && e.place == f.place
      && e.saveAddress == s.draft.saveAddress
    else SamePlace(s.draft, e)
  }

  ghost predicate StartsWithContact(s: Session, e: Draft) {
    && e.contactName == (if s.draft.contactName == [] then s.profileName else s.draft.contactName)
    && e.contactPhone == (if s.draft.contactPhone == [] then s.profilePhone else s.draft.contactPhone)
    && e.note == s.draft.note
  }

  /** The day stays while it is offered; otherwise the day of the least available slot, and no time yet. */
  ghost predicate StartsWithDay(s: Session, now: Instant, e: Draft) {
    if s.draft.scheduleDay.Some? && IsScheduleDay(now, s.draft.scheduleDay.value) then SameSchedule(s.draft, e)
    else e.slot.None? && e.scheduleDay.Some? && exists slot :: Least(now, slot) && slot.date == e.scheduleDay.value
  }

  ghost predicate Least(now: Instant, slot: Slot) {
    IsSlotAvailable(now, slot) && forall other :: IsSlotAvailable(now, other) ==> Scheduling.Before(slot, other)
  }

  lemma StartCar(s: Session, service: Option<CarePackage>, now: Instant)
    ensures var e := StartDraft(s, service, now);
      && StartsWithCar(s, e) && StartsWithContact(s, e)
      && e.service == (if service.Some? then service.value else s.draft.service)
      && e.extras == s.draft.extras && e.paymentMethod == s.draft.paymentMethod && e.touched
  {
    var d := DraftWithCurrentSchedule(PrefillAddress(s.draft, s.addresses), now);
    assert SameVehicle(s.draft, d) && d.extras == s.draft.extras && d.paymentMethod == s.draft.paymentMethod && d.note == s.draft.note;
  }

  lemma StartPlace(s: Session, service: Option<CarePackage>, now: Instant)
    ensures StartsWithPlace(s, StartDraft(s, service, now)) && StartsWithDay(s, now, StartDraft(s, service, now))
  {
    var p := PrefillAddress(s.draft, s.addresses);
    var d := DraftWithCurrentSchedule(p, now);
    assert SameSchedule(s.draft, p) && SamePlace(p, d);
    assert SamePlace(d, StartDraft(s, service, now)) && SameSchedule(d, StartDraft(s, service, now));
    EarliestSlotIsLeast(now);
    assert Least(now, EarliestSlot(now).value);
  }

  /** Starting the journey: what is filled in, from where, and what stays. */
  lemma StartFills(s: Session, service: Option<CarePackage>, now: Instant)
    ensures
      var t := StartBooking(s, service, now);
      && t.intent == Some(GoStep(0)) && t.state.mode == Standard && !t.state.reviewEditing && SameBooks(s, t.state)
    ensures
      var e := StartBooking(s, service, now).state.draft;
      && StartsWithCar(s, e) && StartsWithPlace(s, e) && StartsWithContact(s, e) && StartsWithDay(s, now, e)
      && e.service == (if service.Some? then service.value else s.draft.service)
      && e.extras == s.draft.extras && e.paymentMethod == s.draft.paymentMethod && e.touched
  {
    StartCar(s, service, now);
    StartPlace(s, service, now);
  }

  // ------------------------------------------------------------ choosing, deleting and repeating

  /** Choosing a saved car or address takes over that record and nothing else; an unknown id changes nothing. */
  lemma ChooseCarFills(s: Session, id: Text)
    ensures var t := ChooseSavedVehicle(s, id); var e := t.draft;
      if id !in Ids(s.vehicles) then t == s
      else
        && t == s.(draft := e) && e.carId == Some(id) && e.saveVehicle && e.touched
        && SameCare(s.draft, e) && SamePlace(s.draft, e) && SameSchedule(s.draft, e) && SameContact(s.draft, e) && e.paymentMethod == s.draft.paymentMethod
        && exists r :: r in s.vehicles && r.id == id && r.fields == VehicleFields(e.vehicleType, e.carName, e.plate, e.color)
  {
    FoundIffListed(s.vehicles, id);
  }

  lemma ChooseAddressFills(s: Session, id: Text)
    ensures var t := ChooseSavedAddress(s, id); var e := t.draft;
      if id !in Ids(s.addresses) then t == s
      else
        && t == s.(draft := e) && e.touched && e.saveAddress == s.draft.saveAddress
        && SameVehicle(s.draft, e) && SameCare(s.draft, e) && SameSchedule(s.draft, e) && SameContact(s.draft, e) && e.paymentMethod == s.draft.paymentMethod
        && exists r :: r in s.addresses && r.id == id && r.fields == AddressFields(e.addressLabel, e.address, e.locationNote, e.place)
  {
    FoundIffListed(s.addresses, id);
  }

  lemma FoundIffListed<F>(rs: seq<Record<F>>, id: Text)
    ensures FindId(rs, Some(id)).Some? <==> id in Ids(rs)
  {
    if id in Ids(rs) {
      var i :| 0 <= i < |rs| && Ids(rs)[i] == id;
      assert rs[i].id == id;
    }
  }

  /** Deleting a car takes its record away and unlinks the draft from it, and changes nothing else. */
  lemma DeleteCarUnlinks(s: Session, id: Text, r: Record<VehicleFields>)
    ensures var t := DeleteSavedVehicle(s, id);
      && (r in t.vehicles <==> r in s.vehicles && r.id != id)
      && t == s.(vehicles := t.vehicles, draft := t.draft)
      && t.draft == s.draft.(carId := t.draft.carId)
      && (id in Ids(s.vehicles) && s.draft.carId == Some(id) ==> t.draft.carId.None?)
      && (id !in Ids(s.vehicles) || s.draft.carId != Some(id) ==> t.draft == s.draft)
  {
    FoundIffListed(s.vehicles, id);
    WithoutMember(s.vehicles, id, r);
    if id !in Ids(s.vehicles) && r in s.vehicles {
      var i :| 0 <= i < |s.vehicles| && s.vehicles[i] == r;
      assert Ids(s.vehicles)[i] == r.id;
    }
  }

  lemma {:induction false} KnownOnceKeeps(xs: seq<CareExtra>, x: CareExtra)
    ensures x in KnownOnce(xs) <==> x in xs && !x.OtherExtra?
    decreases |xs|
  {
    if xs != [] {
      var last := xs[|xs| - 1];
      KnownOnceKeeps(xs[..|xs| - 1], x);
      assert xs == xs[..|xs| - 1] + [last];
      assert x in xs <==> x in xs[..|xs| - 1] || x == last;
    }
  }

  /** The draft of a repeated order: its choices where they are still known, its texts, its place, and the offered slot. */
  lemma RepeatFills(o: Order, now: Instant, offered: Option<Slot>, x: CareExtra)
    ensures var e := DraftFromOrder(o, now, offered);
      && e.vehicleType == (if o.vehicleType.OtherVehicle? then Sedan else o.vehicleType)
      && e.service == (if o.service.OtherPackage? then Exterior else o.service)
      && e.paymentMethod == (if o.paymentMethod.Some? && o.paymentMethod.value.OtherMethod? then None else o.paymentMethod)
      && e.carId.None? && e.carName == o.carName && e.plate == o.plate && e.color == o.color && e.saveVehicle
      && (x in e.extras <==> x in o.extras && !x.OtherExtra?)
      && e.address == o.address && e.addressLabel == o.addressLabel && e.locationNote == o.locationNote && e.saveAddress
      && e.place == (if o.confirmation.Some? then o.confirmation.value.place else None)
      && e.slot == offered && (offered.Some? ==> e.scheduleDay == Some(offered.value.date))
      && (offered.None? ==> e.scheduleDay.Some? && IsScheduleDay(now, e.scheduleDay.value))
      && e.contactName == o.contactName && e.contactPhone == o.contactPhone && e.note == o.note && e.touched
  {
    KnownOnceKeeps(o.extras, x);
    EarliestSlotIsLeast(now);
  }

  // ------------------------------------------------------------ saving from the editors

  /** The car an editor describes, under the size's name if it has none. */
  ghost predicate DescribedCar(values: EditorValues, sizeName: Text, f: VehicleFields) {
    && f.vehicleType == values.vehicleType && Cut(values.color, f.color, 30) && f.plate == DescribeVehicle(values).plate
    && if Trim(values.carName) == [] then f.name == sizeName else Cut(values.carName, f.name, 60)
  }

  /** Two cars are alike: of one size, with the same plate, or without a plate with the same name and colour. */
  predicate LikeCar(v: VehicleFields, f: VehicleFields) {
    v.vehicleType == f.vehicleType && if f.plate == [] then v.name == f.name && v.color == f.color else v.plate == f.plate
  }

  predicate LikeAddress(a: AddressFields, f: AddressFields) {
    a.address == f.address
  }

  /** A save that is not refused writes one record, its target or a new one at the end. */
  ghost predicate Wrote<F(!new)>(before: seq<Record<F>>, after: seq<Record<F>>, editing: Option<Text>, f: F, like: (F, F) -> bool) {
    exists i: nat :: OnlyAt(before, after, i, |after| > |before|) && after[i].fields == f
                     && (Target(before, editing, f, like, i) <==> |after| == |before|)
  }

  lemma TargetCar(rs: seq<Record<VehicleFields>>, editing: Option<Text>, f: VehicleFields, i: nat)
    ensures Target(rs, editing, f, SameCar, i) <==> Target(rs, editing, f, LikeCar, i)
  {
  }

  lemma TargetAddress(rs: seq<Record<AddressFields>>, editing: Option<Text>, f: AddressFields, i: nat)
    ensures Target(rs, editing, f, SameAddress, i) <==> Target(rs, editing, f, LikeAddress, i)
  {
  }

  /** Where a save writes. */
  lemma SaveWrites<F(!new)>(rs: seq<Record<F>>, sequence: nat, prefix: Text, capacity: nat, editing: Option<Text>, f: F, same: (F, F) -> bool)
    returns (i: nat)
    requires Distinct(Ids(rs))
    ensures var r := Save(rs, sequence, prefix, capacity, editing, f, same);
      && (r.outcome == Added || r.outcome == Updated || r.outcome == Capacity)
      && (r.outcome == Capacity ==> |rs| >= capacity && r.records == rs && forall k: nat :: !Target(rs, editing, f, same, k))
      && (r.outcome != Capacity ==> OnlyAt(rs, r.records, i, |r.records| > |rs|) && r.records[i].fields == f)
      && (r.outcome != Capacity ==> (Target(rs, editing, f, same, i) <==> |r.records| == |rs|))
  {
    var r := Save(rs, sequence, prefix, capacity, editing, f, same);
    i := SaveAt(rs, sequence, prefix, capacity, editing, f, same);
    forall k: nat ensures Target(rs, editing, f, same, k) ==> r.outcome == Updated && r.id == Some(rs[k].id) {
      SaveTargets(rs, sequence, prefix, capacity, editing, f, same, k);
    }
    if r.outcome == Updated {
      SaveTargets(rs, sequence, prefix, capacity, editing, f, same, i);
      var k: nat :| Target(rs, editing, f, same, k);
      assert Ids(rs)[k] == Ids(rs)[i];
    }
  }

  /** A save that finds no target in a full collection changes nothing; any other writes one record. */
  ghost predicate SavedAs<F(!new)>(before: seq<Record<F>>, after: seq<Record<F>>, capacity: nat, editing: Option<Text>, f: F, like: (F, F) -> bool) {
    || (after == before && |before| >= capacity && forall k: nat :: !Target(before, editing, f, like, k))
    || Wrote(before, after, editing, f, like)
  }

  lemma CarSavedAs(s: Session, editing: Option<Text>, f: VehicleFields)
    requires Distinct(Ids(s.vehicles))
    ensures SavedAs(s.vehicles, SaveVehicle(s, editing, f).records, GARAGE_CAPACITY, editing, f, LikeCar)
  {
    var i := SaveWrites(s.vehicles, s.vehicleSequence, CAR_PREFIX, GARAGE_CAPACITY, editing, f, SameCar);
    forall k: nat ensures Target(s.vehicles, editing, f, SameCar, k) <==> Target(s.vehicles, editing, f, LikeCar, k) {
      TargetCar(s.vehicles, editing, f, k);
    }
  }

  lemma DescribedGarageCar(values: EditorValues, sizeName: Text)
    ensures DescribedCar(values, sizeName, GarageFields(values, sizeName))
  {
    Described(values);
    CarTexts(values.carName, values.color, sizeName);
  }

  /**
   * Saving a car from the garage editor: refused exactly for an unacceptable plate, or when
   * the garage is full and no car is edited or alike; else one record is written.
   */
  lemma GarageSaves(s: Session, editing: Option<Text>, values: EditorValues, sizeName: Text) returns (f: VehicleFields)
    requires Inv(s)
    ensures DescribedCar(values, sizeName, f)
    ensures
      var t := SaveGarageVehicle(s, editing, values, sizeName);
      && t == s.(vehicles := t.vehicles, vehicleSequence := t.vehicleSequence)
      && if IsPlateAcceptable(f.plate) then SavedAs(s.vehicles, t.vehicles, GARAGE_CAPACITY, editing, f, LikeCar) else t == s
  {
    f := GarageFields(values, sizeName);
    DescribedGarageCar(values, sizeName);
    CarSavedAs(s, editing, f);
  }

  /** The address an account sheet describes: an empty title gets the fallback, a missing point the manual one. */
  ghost predicate DescribedAddress(v: Sheet, f: AddressFields) {
    && f.address <= Trim(v.address) && Cut(v.locationNote, f.locationNote, 160) && f.place == PlaceOrManual(v.place)
    && (Trim(v.title) == [] ==> f.title == Clip(FALLBACK_LABEL, 30))
  }

  lemma ClippedTwice(t: Text)
    ensures Clip(Clip(t, 160), 160) <= Trim(t)
  {
    var c := Clip(t, 160);
    TrimShape(t);
    if c != [] {
      assert c[0] == Trim(t)[0];
      assert TrimStart(c) == c;
    }
  }

  lemma NoTitle(title: Text)
    requires Trim(title) == []
    ensures OrElse(Clip(OrElse(Clip(title, 30), FALLBACK_LABEL), 30), SAVED_FALLBACK_LABEL) == Clip(FALLBACK_LABEL, 30)
  {
    FallbackStays();
    assert Clip(title, 30) == [];
  }

  lemma SheetDescribes(v: Sheet)
    ensures DescribedAddress(v, SheetFields(v))
  {
    ClipCuts(v.locationNote, 160);
    ClippedTwice(v.address);
    if Trim(v.title) == [] { NoTitle(v.title); }
  }

  lemma FallbackStays()
    ensures Clip(FALLBACK_LABEL, 30) == FALLBACK_LABEL && FALLBACK_LABEL != []
  {
    TrimFixpoint(FALLBACK_LABEL);
  }

  lemma AddressSavedAs(s: Session, editing: Option<Text>, f: AddressFields)
    requires Distinct(Ids(s.addresses)) && (editing.Some? ==> editing.value in Ids(s.addresses))
    ensures SavedAs(s.addresses, SaveAddressRecord(s, f, editing).records, ADDRESS_BOOK_CAPACITY, editing, f, LikeAddress)
  {
    if editing.Some? { FoundIffListed(s.addresses, editing.value); }
    var i := SaveWrites(s.addresses, s.addressSequence, ADR_PREFIX, ADDRESS_BOOK_CAPACITY, editing, f, SameAddress);
    forall k: nat ensures Target(s.addresses, editing, f, SameAddress, k) <==> Target(s.addresses, editing, f, LikeAddress, k) {
      TargetAddress(s.addresses, editing, f, k);
    }
  }

  /**
   * Saving an address from the account: refused exactly when its text is too short, when it
   * edits an unknown one, or when the book is full and no address is edited or alike.
   */
  lemma AccountSaves(s: Session, v: Sheet, editing: Option<Text>) returns (f: AddressFields)
    requires Inv(s)
    ensures DescribedAddress(v, f)
    ensures
      var t := SubmitAccountAddress(s, v, editing);
      && t == s.(addresses := t.addresses, addressSequence := t.addressSequence)
      && if |Trim(v.address)| < ADDRESS_MIN_LENGTH || (editing.Some? && editing.value !in Ids(s.addresses)) then t == s
         else SavedAs(s.addresses, t.addresses, ADDRESS_BOOK_CAPACITY, editing, f, LikeAddress)
  {
    f := SheetFields(v);
    SheetDescribes(v);
    CutShort(v.address);
    if editing.Some? { FoundIffListed(s.addresses, editing.value); }
    if editing.Some? ==> editing.value in Ids(s.addresses) { AddressSavedAs(s, editing, f); }
  }

  // ------------------------------------------------------------ what else a command changes

  /** An edit changes the draft, and accepting a day or the earliest time collapses the list of times; nothing else. */
  lemma EditChanges(s: Session, e: Edit)
    ensures
      var t := Apply(s, EditDraft(e));
      && t.intent == None && t.state == s.(draft := Edited(s.draft, e), showAllTimes := t.state.showAllTimes)
      && (t.state.showAllTimes <==> s.showAllTimes && !((e.SelectDay? && !Refused(s.draft, e)) || e.ChooseEarliest?))
  {
    CollapsesIff(s.draft, e);
  }

  lemma CollapsesIff(d: Draft, e: Edit)
    ensures CollapsesTimes(e) <==> (e.SelectDay? && !Refused(d, e)) || e.ChooseEarliest?
  {
    if e.ChooseEarliest? { EarliestSlotIsLeast(e.now); }
  }

  /** Leaving keeps the draft and marks it as touched, so that it can be resumed. */
  lemma LeavingKeeps(s: Session)
    ensures
      var t := Apply(s, SaveAndExit);
      && t.intent == Some(GoHome) && t.state == s.(draft := t.state.draft, reviewEditing := false)
      && t.state.draft == s.draft.(touched := true)
  {
  }

  /** The list of times opens and closes, and nothing else changes. */
  lemma TimesToggle(s: Session)
    ensures Apply(s, ToggleAllTimes) == Transition(s.(showAllTimes := !s.showAllTimes), None)
  {
  }

  /** Booking a saved car starts the journey with that car in the draft; an unknown id changes nothing. */
  lemma BookCarStarts(s: Session, id: Text, now: Instant)
    requires id != []
    ensures var t := BookSavedVehicle(s, id, now); var e := t.state.draft;
      if id !in Ids(s.vehicles) then t == Transition(s, None)
      else
        && t.intent == Some(GoStep(0)) && SameBooks(s, t.state) && e.carId == Some(id) && e.touched
        && exists r :: r in s.vehicles && r.id == id && r.fields == VehicleFields(e.vehicleType, e.carName, e.plate, e.color)
  {
    FoundIffListed(s.vehicles, id);
    if id in Ids(s.vehicles) {
      var r := s.vehicles[FindId(s.vehicles, Some(id)).value];
      var s1 := s.(draft := DraftWithVehicle(s.draft, r));
      StartFills(s1, None, now);
      assert r in s.vehicles && r.fields == VehicleFields(r.fields.vehicleType, r.fields.name, r.fields.plate, r.fields.color);
    }
  }
}
