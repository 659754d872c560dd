/** The customer session: one record, and commands that return the next record. */
module Booking {
  import opened Text
  import opened Scheduling
  import opened BookingDraft
  import opened Records

  /** CAR-, ADR- and WG-SESSION- start the ids of cars, addresses and session orders. */
  const CAR_PREFIX: Text :=
    [67, 65, 82, 45]
  const ADR_PREFIX: Text := [65, 68, 82, 45]
  const ORDER_PREFIX: Text := [87, 71, 45, 83, 69, 83, 83, 73, 79, 78, 45]

  /** The Arabic texts that are stored as data: labels, sample addresses and the sample contact. */
  const FALLBACK_LABEL: Text :=
    [0x645, 0x643, 0x627, 0x646, 32, 0x627, 0x644, 0x63a, 0x633, 0x64a, 0x644]
  const SAVED_FALLBACK_LABEL: Text :=
    [0x639, 0x646, 0x648, 0x627, 0x646, 32, 0x645, 0x62d, 0x641, 0x648, 0x638]
  const MANUAL_CAPTION: Text :=
    [0x639, 0x646, 0x648, 0x627, 0x646, 32, 0x64a, 0x62f, 0x648, 0x64a]
  const WORK_LABEL: Text :=
    [0x627, 0x644, 0x639, 0x645, 0x644]
  const SAMPLE_CAPTION: Text :=
    [0x639, 0x646, 0x648, 0x627, 0x646, 32, 0x62a, 0x648, 0x636, 0x64a, 0x62d, 0x64a, 32, 0x644, 0x644,
    0x62a, 0x62c, 0x631, 0x628, 0x629]
  const SAMPLE_HOME: Text :=
    [0x62f, 0x645, 0x634, 0x642, 0x60c, 32, 0x627, 0x644, 0x645, 0x632, 0x629, 0x60c, 32, 0x634, 0x627,
    0x631, 0x639, 32, 0x62a, 0x62c, 0x631, 0x64a, 0x628, 0x64a, 32, 49, 50]
  const SAMPLE_WORK: Text :=
    [0x62f, 0x645, 0x634, 0x642, 0x60c, 32, 0x627, 0x644, 0x645, 0x627, 0x644, 0x643, 0x64a, 0x60c, 32,
    0x645, 0x628, 0x646, 0x649, 32, 0x62a, 0x62c, 0x631, 0x64a, 0x628, 0x64a, 32, 56]
  const DEMO_NAME: Text :=
    [0x633, 0x627, 0x645, 0x631, 32, 0x627, 0x644, 0x62a, 0x62c, 0x631, 0x64a, 0x628, 0x64a]
  const DEMO_PHONE: Text :=
    [48, 57, 48, 48, 48, 48, 48, 48, 48, 48]

  const GARAGE_CAPACITY := 30
  const ADDRESS_BOOK_CAPACITY := 20
  const ORDER_HISTORY_LIMIT := 80
  const RECEIPT_HISTORY_LIMIT := 10

  // ------------------------------------------------------------ the session record

  datatype VehicleFields = VehicleFields(vehicleType: VehicleType, name: Text, plate: Text, color: Text)
  datatype AddressFields = AddressFields(title: Text, address: Text, locationNote: Text, place: Option<Place>)

  datatype PaymentStatus = CashDue | AwaitingTransfer
  datatype Payment = Payment(payBy: PaymentMethod, status: PaymentStatus, amount: Number)

  /** What an explicit confirmation recorded with its order. */
  datatype Confirmation = Confirmation(
    createdAt: Instant, total: Number, minutes: Number, carId: Option<Text>, place: Option<Place>, payment: Payment)

  datatype Order = Order(
    id: Text,
    stage: int,
    vehicleType: VehicleType,
    carName: Text,
    plate: Text,
    color: Text,
    service: CarePackage,
    extras: seq<CareExtra>,
    address: Text,
    addressLabel: Text,
    locationNote: Text,
    slot: Option<Slot>,
    contactName: Text,
    contactPhone: Text,
    note: Text,
    paymentMethod: Option<PaymentMethod>,
    confirmation: Option<Confirmation>)

  /** The draft as its fingerprint sees it: everything but the `touched` mark. */
  type Fingerprint = Draft

  function DraftFingerprint(d: Draft): Fingerprint {
    d.(touched := false)
  }

  datatype Receipt = Receipt(key: nat, fingerprint: Fingerprint, orderId: Text)

  datatype Intent = GoHome | GoStep(step: int) | GoTracking(orderId: Text) | GoPayment(orderId: Text)
  datatype Mode = Standard | RepeatMode

  datatype Session = Session(
    profileName: Text,
    profilePhone: Text,
    orders: seq<Order>,
    vehicles: seq<Record<VehicleFields>>,
    vehicleSequence: nat,
    addresses: seq<Record<AddressFields>>,
    addressSequence: nat,
    draft: Draft,
    draftStep: Number,
    mode: Mode,
    showAllTimes: bool,
    reviewEditing: bool,
    orderSequence: nat,
    draftGeneration: nat,
    receipts: seq<Receipt>,
    handoff: Option<Intent>)

  const EMPTY_SESSION := Session([], [], [], [], 0, [], 0, BLANK, Finite(0.0), Standard, false, false, 0, 0, [], None)

  datatype Transition = Transition(state: Session, intent: Option<Intent>)

  // ------------------------------------------------------------ edits of the draft

  datatype EditorValues = EditorValues(vehicleType: VehicleType, carName: Text, plate: Text, color: Text, saveVehicle: bool)
  datatype Sheet = Sheet(address: Text, title: Text, locationNote: Text, place: Option<Place>, saveAddress: bool)
  datatype Sample = SampleHome | SampleWork

  datatype Edit =
    | SelectVehicleType(vehicleType: VehicleType)
    | ChangePlate(typed: Text)
    | SetSaveVehicle(save: bool)
    | ApplyEditor(carId: Option<Text>, values: EditorValues)
    | SelectCare(service: CarePackage, included: seq<CareExtra>)
    | SetExtra(extra: CareExtra, selected: bool, included: seq<CareExtra>)
    | ChooseSample(sample: Sample)
    | ApplySheet(sheet: Sheet)
    | EditName(typed: Text)
    | EditPhone(typed: Text)
    | EditNote(typed: Text)
    | FillDemo
    | SelectPayment(payBy: PaymentMethod)
    | SelectDay(day: int, now: Instant)
    | SelectTime(hour: int, now: Instant)
    | ChooseEarliest(now: Instant)

  function DescribeVehicle(values: EditorValues): VehicleFields {
    VehicleFields(values.vehicleType, Clip(values.carName, 60),
      Collapse(NormalizePlateInput(Clip(values.plate, PLATE_MAX_LENGTH))), Clip(values.color, 30))
  }

  function DropExtras(extras: seq<CareExtra>, dropped: seq<CareExtra>): seq<CareExtra> {
    if extras == [] then []
    else (if extras[0] in dropped then [] else [extras[0]]) + DropExtras(extras[1..], dropped)
  }

  function OrElse(t: Text, fallback: Text): Text {
    if t == [] then fallback else t
  }

  const MANUAL_PLACE := Place(Manual, 350.0, 250.0, MANUAL_CAPTION)

  function PlaceOrManual(place: Option<Place>): Option<Place> {
    if place.Some? then place else Some(MANUAL_PLACE)
  }

  function HighlightedDay(d: Draft, now: Instant): int {
    if d.scheduleDay.Some? then d.scheduleDay.value else DefaultScheduleDay(now)
  }

  /** What an edit makes of the draft; a refused edit leaves it exactly as it is. */
  function Edited(d: Draft, e: Edit): Draft {
    match e
    case SelectVehicleType(v) => d.(vehicleType := v, carId := None, carName := [], color := [], touched := true)
    case ChangePlate(typed) => d.(plate := NormalizePlateInput(typed), touched := true)
    case SetSaveVehicle(save) => d.(saveVehicle := save, touched := true)
    case ApplyEditor(carId, values) =>
      var f := DescribeVehicle(values);
      if !IsPlateAcceptable(f.plate) then d
      else d.(vehicleType := f.vehicleType, carName := f.name, plate := f.plate, color := f.color,
              carId := carId, saveVehicle := values.saveVehicle, touched := true)
    case SelectCare(service, included) => d.(service := service, extras := DropExtras(d.extras, included), touched := true)
    case SetExtra(extra, selected, included) =>
      if extra in included then d
      else if !selected then d.(extras := DropExtras(d.extras, [extra]), touched := true)
      else d.(extras := if extra in d.extras then d.extras else d.extras + [extra], touched := true)
    case ChooseSample(SampleHome) =>
      d.(address := SAMPLE_HOME, addressLabel := HOME_LABEL, locationNote := [],
         place := Some(Place(Home, 350.0, 250.0, SAMPLE_CAPTION)), saveAddress := true, touched := true)
    case ChooseSample(SampleWork) =>
      d.(address := SAMPLE_WORK, addressLabel := WORK_LABEL, locationNote := [],
         place := Some(Place(Work, 433.0, 196.0, SAMPLE_CAPTION)), saveAddress := true, touched := true)
    case ApplySheet(v) =>
      var address := Clip(v.address, 160);
      if |address| < ADDRESS_MIN_LENGTH then d
      else d.(address := address, addressLabel := OrElse(Clip(v.title, 30), FALLBACK_LABEL),
              locationNote := Clip(v.locationNote, 160), place := PlaceOrManual(v.place), saveAddress := v.saveAddress, touched := true)
    case EditName(typed) => d.(contactName := Cap(typed, CONTACT_NAME_MAX_LENGTH), touched := true)
    case EditPhone(typed) => d.(contactPhone := Cap(typed, 24), touched := true)
    case EditNote(typed) => d.(note := Cap(typed, 300), touched := true)
    case FillDemo => d.(contactName := DEMO_NAME, contactPhone := DEMO_PHONE, touched := true)
    case SelectPayment(payBy) => if IsKnownMethod(Some(payBy)) then d.(paymentMethod := Some(payBy), touched := true) else d
    case SelectDay(day, now) => if IsScheduleDay(now, day) then d.(scheduleDay := Some(day), slot := None, touched := true) else d
    case SelectTime(hour, now) =>
      var day := HighlightedDay(d, now);
      if IsSlotAvailable(now, Slot(day, hour)) then d.(scheduleDay := Some(day), slot := Some(Slot(day, hour)), touched := true) else d
    case ChooseEarliest(now) =>
      var slot := EarliestSlot(now);
      if slot.Some? then d.(scheduleDay := Some(slot.value.date), slot := slot, touched := true) else d
  }

  /** Accepting a day or the earliest slot also collapses the list of times. */
  predicate CollapsesTimes(e: Edit) {
    match e
    case SelectDay(day, now) => IsScheduleDay(now, day)
    case ChooseEarliest(now) => EarliestSlot(now).Some?
    case _ => false
  }

  // ------------------------------------------------------------ entering the journey

  function DraftWithVehicle(d: Draft, r: Record<VehicleFields>): Draft {
    d.(vehicleType := r.fields.vehicleType, carId := Some(r.id), carName := r.fields.name, plate := r.fields.plate, color := r.fields.color)
  }

  function DraftWithAddress(d: Draft, f: AddressFields): Draft {
    d.(address := f.address, addressLabel := f.title, locationNote := f.locationNote, place := f.place)
  }

  function DraftWithCurrentSchedule(d: Draft, now: Instant): Draft {
    if d.scheduleDay.Some? && IsScheduleDay(now, d.scheduleDay.value) then d
    else d.(scheduleDay := Some(DefaultScheduleDay(now)), slot := None)
  }

  function PrefillAddress(d: Draft, addresses: seq<Record<AddressFields>>): Draft {
    if d.address == [] && addresses != [] then DraftWithAddress(d, addresses[0].fields) else d
  }

  /** An empty id or text counts as absent. */
  predicate DescribesNoCar(d: Draft) {
    (d.carId.None? || d.carId.value == []) && d.carName == [] && d.plate == []
  }

  function StartDraft(s: Session, service: Option<CarePackage>, now: Instant): Draft {
    var d := DraftWithCurrentSchedule(PrefillAddress(s.draft, s.addresses), now);
    var d' := if s.vehicles != [] && DescribesNoCar(s.draft) then DraftWithVehicle(d, s.vehicles[0]) else d;
    d'.(service := if service.Some? then service.value else s.draft.service,
        contactName := OrElse(s.draft.contactName, s.profileName),
        contactPhone := OrElse(s.draft.contactPhone, s.profilePhone),
        touched := true)
  }

  function StartBooking(s: Session, service: Option<CarePackage>, now: Instant): Transition {
    Transition(s.(draft := StartDraft(s, service, now), mode := Standard, reviewEditing := false), Some(GoStep(0)))
  }

  function ResumeBooking(s: Session, now: Instant): Transition {
    if !s.draft.touched then Transition(s, None)
    else Transition(s.(mode := Standard, reviewEditing := false), Some(GoStep(ResolveEntryStep(s.draft, s.draftStep, now))))
  }

  /** The known add-ons of an order, each once, in order of first occurrence. */
  function KnownOnce(extras: seq<CareExtra>): seq<CareExtra> {
    if extras == [] then []
    else
      var init := KnownOnce(extras[..|extras| - 1]);
      var last := extras[|extras| - 1];
      if last.OtherExtra? || last in init then init else init + [last]
  }

  function DraftFromOrder(o: Order, now: Instant, slot: Option<Slot>): Draft {
    Draft(
      if IsKnownVehicle(o.vehicleType) then o.vehicleType else BLANK.vehicleType,
      None, o.carName, o.plate, o.color, true,
      if IsKnownPackage(o.service) then o.service else BLANK.service,
      KnownOnce(o.extras), o.address, o.addressLabel, o.locationNote,
      if o.confirmation.Some? then o.confirmation.value.place else None,
      true,
      Some(if slot.Some? then slot.value.date else DefaultScheduleDay(now)),
      slot, o.contactName, o.contactPhone, o.note,
      if IsKnownMethod(o.paymentMethod) then o.paymentMethod else None,
      true)
  }

  function FindOrder(orders: seq<Order>, id: Text): (r: Option<nat>)
    ensures r.Some? ==> r.value < |orders| && orders[r.value].id == id
    ensures r.None? ==> forall i :: 0 <= i < |orders| ==> orders[i].id != id
  {
    if orders == [] then None
    else if orders[0].id == id then Some(0)
    else
      var r := FindOrder(orders[1..], id);
      if r.None? then None else Some(r.value + 1)
  }

  /** `offered` is the appointment offered with the copy: by default the earliest slot. */
  function RepeatOrder(s: Session, id: Text, now: Instant, offered: Option<Slot>): Transition {
    var found := FindOrder(s.orders, id);
    if found.None? then Transition(s, None)
    else
      var d := DraftFromOrder(s.orders[found.value], now, offered);
      Transition(s.(draft := d, mode := RepeatMode, showAllTimes := false, reviewEditing := false),
        Some(GoStep(ResolveEntryStep(d, Whole(REVIEW_STEP), now))))
  }

  // ------------------------------------------------------------ the journey's steps and Review's edit loop

  /** Submitting step `k`: its own input is checked, then the journey moves on. */
  function SubmitStep(s: Session, k: int, now: Instant): Transition {
    if Met(s.draft, k, now) then Transition(s.(draft := s.draft.(touched := true), draftStep := Whole(k + 1)), Some(GoStep(k + 1)))
    else Transition(s, None)
  }

  function CompleteReviewEdit(t: Transition, now: Instant): Transition {
    if !t.state.reviewEditing || t.intent.None? || !t.intent.value.GoStep? then t
    else
      var step := ResolveEntryStep(t.state.draft, Whole(REVIEW_STEP), now);
      Transition(t.state.(reviewEditing := false, draftStep := Whole(step)), Some(GoStep(step)))
  }

  predicate IsReviewEditTarget(n: Number) {
    n.Finite? && n.value == n.value.Floor as real && 0.0 <= n.value <= 5.0
  }

  function OpenReviewEdit(s: Session, target: Number, now: Instant): Transition {
    if !IsReviewEditTarget(target) then Transition(s, None)
    else Transition(s.(reviewEditing := true), Some(GoStep(ResolveEntryStep(s.draft, target, now))))
  }

  function LeaveReviewEdit(s: Session, now: Instant): Transition {
    Transition(s.(reviewEditing := false), Some(GoStep(ResolveEntryStep(s.draft, Whole(REVIEW_STEP), now))))
  }

  // ------------------------------------------------------------ the garage and the address book

  /** Same plate and size, or without a plate the same name, size and colour. */
  predicate SameCar(v: VehicleFields, f: VehicleFields) {
    if f.plate != [] then v.plate == f.plate && v.vehicleType == f.vehicleType
    else v.name == f.name && v.vehicleType == f.vehicleType && v.color == f.color
  }

  predicate SameAddress(a: AddressFields, f: AddressFields) {
    a.address == f.address
  }

  function SaveVehicle(s: Session, editing: Option<Text>, f: VehicleFields): Saved<VehicleFields> {
    Save(s.vehicles, s.vehicleSequence, CAR_PREFIX, GARAGE_CAPACITY, editing, f, SameCar)
  }

  function GarageFields(values: EditorValues, sizeName: Text): VehicleFields {
    var f := DescribeVehicle(values);
    f.(name := OrElse(f.name, sizeName))
  }

  function SaveGarageVehicle(s: Session, editing: Option<Text>, values: EditorValues, sizeName: Text): Session {
    var f := GarageFields(values, sizeName);
    if !IsPlateAcceptable(f.plate) then s
    else
      var saved := SaveVehicle(s, editing, f);
      s.(vehicles := saved.records, vehicleSequence := saved.sequence)
  }

  function DeleteSavedVehicle(s: Session, id: Text): Session {
    if FindId(s.vehicles, Some(id)).None? then s
    else s.(vehicles := Without(s.vehicles, id), draft := if s.draft.carId == Some(id) then s.draft.(carId := None) else s.draft)
  }

  /** What is written into an address record. */
  function AddressToSave(address: Text, title: Text, locationNote: Text, place: Option<Place>): AddressFields {
    AddressFields(OrElse(Clip(title, 30), SAVED_FALLBACK_LABEL), Clip(address, 160), Clip(locationNote, 160), place)
  }

  function SaveAddressRecord(s: Session, f: AddressFields, id: Option<Text>): Saved<AddressFields> {
    if id.Some? && FindId(s.addresses, id).None? then Saved(s.addresses, s.addressSequence, Missing, None)
    else Save(s.addresses, s.addressSequence, ADR_PREFIX, ADDRESS_BOOK_CAPACITY, id, f, SameAddress)
  }

  function SubmitAccountAddress(s: Session, v: Sheet, editing: Option<Text>): Session {
    var address := Clip(v.address, 160);
    if |address| < ADDRESS_MIN_LENGTH then s
    else
      var f := AddressToSave(address, OrElse(Clip(v.title, 30), FALLBACK_LABEL), v.locationNote, PlaceOrManual(v.place));
      var saved := SaveAddressRecord(s, f, editing);
      s.(addresses := saved.records, addressSequence := saved.sequence)
  }

  function DeleteSavedAddress(s: Session, id: Text): Session {
    s.(addresses := Without(s.addresses, id))
  }

  // ------------------------------------------------------------ confirmation

  /** What the catalog answers for the draft, or that asking it failed. */
  datatype Quote = Quoted(total: Number, minutes: Number) | QuoteThrew

  predicate IsValidQuote(q: Quote) {
    q.Quoted? && q.total.Finite? && q.total.value >= 0.0 && q.minutes.Finite? && q.minutes.value > 0.0
  }

  datatype ConfirmCommand = ConfirmCommand(key: nat, fingerprint: Fingerprint, now: Instant, quote: Quote, sizeName: Option<Text>)

  datatype ConfirmOutcome =
    | Created(orderId: Text, vehicle: Outcome, address: Outcome)
    | Replay(orderId: Text)
    | Conflict
    | Stale
    | Refused(step: int)
    | Failed

  datatype ConfirmResult = ConfirmResult(state: Session, intent: Option<Intent>, outcome: ConfirmOutcome)

  function OrderIds(orders: seq<Order>): (ids: seq<Text>)
    ensures |ids| == |orders| && forall i :: 0 <= i < |orders| ==> ids[i] == orders[i].id
  {
    seq(|orders|, i requires 0 <= i < |orders| => orders[i].id)
  }

  function OrderId(n: nat): Text {
    NumberedId(ORDER_PREFIX, n)
  }

  /** The listed ids that a number beyond `n` can still run into. */
  ghost function Colliding(ids: seq<Text>, n: nat): set<int> {
    set i | 0 <= i < |ids| && Beyond(ids[i], n)
  }

  ghost predicate Beyond(id: Text, n: nat) {
    exists k: nat :: k > n && id == OrderId(k)
  }

  lemma BeyondLess(id: Text, n: nat)
    requires Beyond(id, n + 1)
    ensures Beyond(id, n)
  {
  }

  /** A collision uses up one listed id, so the search ends. */
  lemma CollisionShrinks(ids: seq<Text>, n: nat)
    requires OrderId(n + 1) in ids
    ensures |Colliding(ids, n + 1)| < |Colliding(ids, n)|
  {
    var i :| 0 <= i < |ids| && ids[i] == OrderId(n + 1);
    forall k: nat | k > n + 1 ensures OrderId(k) != OrderId(n + 1) {
      if OrderId(k) == OrderId(n + 1) { NumberedInjective(ORDER_PREFIX, k, n + 1); }
    }
    assert i in Colliding(ids, n) && i !in Colliding(ids, n + 1);
    assert Colliding(ids, n + 1) <= Colliding(ids, n) - {i} by {
      forall j | j in Colliding(ids, n + 1) ensures j in Colliding(ids, n) {
        BeyondLess(ids[j], n);
      }
    }
    SmallerSet(Colliding(ids, n + 1), Colliding(ids, n), i);
  }

  lemma SmallerSet(a: set<int>, b: set<int>, x: int)
    requires a <= b - {x} && x in b
    ensures |a| < |b|
  {
    assert b * a == a && x in b - a;
    assert |b - a| + |b * a| == |b|;
  }

  /** The least number after `sequence` whose order id is not listed. */
  function NextNumber(ids: seq<Text>, sequence: nat): (next: nat)
    ensures next > sequence && OrderId(next) !in ids
    ensures forall k: nat :: sequence < k < next ==> OrderId(k) in ids
    decreases |Colliding(ids, sequence)|
  {
    if OrderId(sequence + 1) !in ids then sequence + 1
    else
      CollisionShrinks(ids, sequence);
      NextNumber(ids, sequence + 1)
  }

  /** The loop of `nextOrderId`. */
  method NextOrderId(ids: seq<Text>, sequence: nat) returns (id: Text, next: nat)
    ensures next > sequence && id == OrderId(next) && id !in ids
    ensures forall k: nat :: sequence < k < next ==> OrderId(k) in ids
    ensures next == NextNumber(ids, sequence)
  {
    next := sequence + 1;
    id := OrderId(next);
    while id in ids
      invariant next > sequence && id == OrderId(next)
      invariant forall k: nat :: sequence < k < next ==> OrderId(k) in ids
      invariant NextNumber(ids, sequence) == NextNumber(ids, next - 1)
      decreases |Colliding(ids, next - 1)|
    {
      CollisionShrinks(ids, next - 1);
      next := next + 1;
      id := OrderId(next);
    }
  }

  function FindReceipt(receipts: seq<Receipt>, key: nat): (r: Option<Receipt>)
    ensures r.Some? ==> r.value in receipts && r.value.key == key
    ensures r.None? ==> forall i :: 0 <= i < |receipts| ==> receipts[i].key != key
  {
    if receipts == [] then None
    else if receipts[0].key == key then Some(receipts[0])
    else FindReceipt(receipts[1..], key)
  }

  /** The step a confirmation finds missing at its instant, or Review. */
  function ConfirmStep(d: Draft, now: Instant): int {
    if !IsKnownVehicle(d.vehicleType) then 0
    else if !IsKnownPackage(d.service) then 1
    else ResolveEntryStep(d, Whole(REVIEW_STEP), now)
  }

  function ConfirmedCar(s: Session, c: ConfirmCommand): Saved<VehicleFields>
    requires s.draft.saveVehicle ==> c.sizeName.Some?
  {
    var d := s.draft;
    if !d.saveVehicle then Saved(s.vehicles, s.vehicleSequence, Off, None)
    else SaveVehicle(s, d.carId, VehicleFields(d.vehicleType, OrElse(Clip(d.carName, 60), c.sizeName.value),
      Clip(ConfirmedPlate(d.plate), PLATE_MAX_LENGTH), Clip(d.color, 30)))
  }

  function ConfirmedAddress(s: Session): Saved<AddressFields> {
    var d := s.draft;
    if !d.saveAddress then Saved(s.addresses, s.addressSequence, Off, None)
    else SaveAddressRecord(s, AddressToSave(d.address, d.addressLabel, d.locationNote, d.place), None)
  }

  function KnownExtras(extras: seq<CareExtra>): seq<CareExtra> {
    if extras == [] then []
    else (if extras[0].OtherExtra? then [] else [extras[0]]) + KnownExtras(extras[1..])
  }

  /** The order a confirmation records. */
  function ConfirmedOrder(d: Draft, id: Text, carId: Option<Text>, now: Instant, quote: Quote): Order
    requires IsKnownMethod(d.paymentMethod) && quote.Quoted? && d.slot.Some?
  {
    var payBy := d.paymentMethod.value;
    Order(id, 0, d.vehicleType, Clip(d.carName, 60), ConfirmedPlate(d.plate), Clip(d.color, 30), d.service, KnownExtras(d.extras),
      Trim(d.address), Trim(d.addressLabel), Trim(d.locationNote), d.slot,
      ConfirmedName(d.contactName), ConfirmedPhone(d.contactPhone), Clip(d.note, 300), d.paymentMethod,
      Some(Confirmation(now, quote.total, quote.minutes, carId, d.place,
        Payment(payBy, if payBy == Cash then CashDue else AwaitingTransfer, quote.total))))
  }

  function Newest<T>(x: T, xs: seq<T>, limit: nat): (r: seq<T>)
    requires limit > 0
    ensures r != [] && r[0] == x && |r| <= limit
  {
    var all := [x] + xs;
    if |all| <= limit then all else all[..limit]
  }

  /** The order a confirmation of this command makes. */
  function MadeOrder(s: Session, c: ConfirmCommand): Order
    requires IsKnownMethod(s.draft.paymentMethod) && c.quote.Quoted? && s.draft.slot.Some?
    requires s.draft.saveVehicle ==> c.sizeName.Some?
  {
    var car := ConfirmedCar(s, c);
    ConfirmedOrder(s.draft, OrderId(NextNumber(OrderIds(s.orders), s.orderSequence)),
      if car.id.Some? then car.id else s.draft.carId, c.now, c.quote)
  }

  /** The session after an order was made: everything is recorded at once and the draft starts over. */
  function Booked(s: Session, c: ConfirmCommand, order: Order, number: nat, car: Saved<VehicleFields>, address: Saved<AddressFields>): ConfirmResult {
    var destination := if order.paymentMethod == Some(Cash) then GoTracking(order.id) else GoPayment(order.id);
    var next := s.(
      profileName := order.contactName,
      profilePhone := order.contactPhone,
      orders := Newest(order, s.orders, ORDER_HISTORY_LIMIT),
      orderSequence := number,
      vehicles := car.records,
      vehicleSequence := car.sequence,
      addresses := address.records,
      addressSequence := address.sequence,
      draft := BLANK.(contactName := order.contactName, contactPhone := order.contactPhone),
      draftStep := Finite(0.0),
      draftGeneration := s.draftGeneration + 1,
      receipts := Newest(Receipt(c.key, c.fingerprint, order.id), s.receipts, RECEIPT_HISTORY_LIMIT),
      mode := Standard,
      showAllTimes := false,
      reviewEditing := false,
      handoff := Some(destination));
    ConfirmResult(next, Some(destination), Created(order.id, car.outcome, address.outcome))
  }

  /** Every prerequisite holds at the instant. */
  function Accepted(s: Session, c: ConfirmCommand): ConfirmResult
    requires IsKnownMethod(s.draft.paymentMethod) && IsValidQuote(c.quote) && s.draft.slot.Some?
    requires s.draft.saveVehicle ==> c.sizeName.Some?
  {
    Booked(s, c, MadeOrder(s, c), NextNumber(OrderIds(s.orders), s.orderSequence), ConfirmedCar(s, c), ConfirmedAddress(s))
  }

  /** What a command for the current draft comes to, once the first missing step is known. */
  function Decide(s: Session, c: ConfirmCommand, step: int): ConfirmResult
    requires step >= REVIEW_STEP ==> s.draft.slot.Some?
  {
    if step < REVIEW_STEP || !IsKnownMethod(s.draft.paymentMethod) then
      var target := if step < REVIEW_STEP then step else 5;
      ConfirmResult(s.(reviewEditing := false, draftStep := Whole(target)), Some(GoStep(target)), Refused(target))
    else if !IsValidQuote(c.quote) || (s.draft.saveVehicle && c.sizeName.None?) then ConfirmResult(s, None, Failed)
    else Accepted(s, c)
  }

  function ConfirmBooking(s: Session, c: ConfirmCommand): ConfirmResult {
    var accepted := FindReceipt(s.receipts, c.key);
    if accepted.Some? then
      ConfirmResult(s, None, if accepted.value.fingerprint == c.fingerprint then Replay(accepted.value.orderId) else Conflict)
    else if c.key != s.draftGeneration || DraftFingerprint(s.draft) != c.fingerprint then ConfirmResult(s, None, Stale)
    else
      ReviewMeansSlot(s.draft, c.now);
      Decide(s, c, ConfirmStep(s.draft, c.now))
  }

  /** Past the guard the draft has an appointment. */
  lemma ReviewMeansSlot(d: Draft, now: Instant)
    ensures ConfirmStep(d, now) >= REVIEW_STEP ==> HasAvailableSlot(d, now)
  {
  }

  // ------------------------------------------------------------ commands and runs

  datatype Command =
    | EditDraft(edit: Edit)
    | Submit(step: int, now: Instant)
    | Visit(at: Number)
    | SaveAndExit
    | ToggleAllTimes
    | Start(service: Option<CarePackage>, now: Instant)
    | ResumeDraft(now: Instant)
    | Repeat(orderId: Text, now: Instant, offered: Option<Slot>)
    | OpenEdit(target: Number, now: Instant)
    | LeaveEdit(now: Instant)
    | EndEdit
    | SaveCar(editing: Option<Text>, values: EditorValues, sizeName: Text)
    | ChooseCar(carId: Text)
    | BookCar(carId: Text, now: Instant)
    | DeleteCar(carId: Text)
    | SaveAddress(editing: Option<Text>, sheet: Sheet)
    | ChooseAddress(addressId: Text)
    | DeleteAddress(addressId: Text)
    | Confirm(confirm: ConfirmCommand)
    | ClearHandoff

  function Stay(s: Session): Transition {
    Transition(s, None)
  }

  /** Commands that enter the journey or move along it. */
  predicate MovesAlong(c: Command) {
    c.Submit? || c.Start? || c.ResumeDraft? || c.Repeat? || c.OpenEdit? || c.LeaveEdit? || c.BookCar?
  }

  /** Commands that change the garage, the address book or the orders. */
  predicate ChangesBooks(c: Command) {
    c.SaveCar? || c.DeleteCar? || c.SaveAddress? || c.DeleteAddress? || c.Confirm?
  }

  function MoveAlong(s: Session, c: Command): Transition
    requires MovesAlong(c)
  {
    match c
    case Submit(k, now) => CompleteReviewEdit(SubmitStep(s, k, now), now)
    case Start(service, now) => StartBooking(s, service, now)
    case ResumeDraft(now) => ResumeBooking(s, now)
    case Repeat(id, now, offered) => RepeatOrder(s, id, now, offered)
    case OpenEdit(target, now) => OpenReviewEdit(s, target, now)
    case LeaveEdit(now) => LeaveReviewEdit(s, now)
    case BookCar(id, now) => BookSavedVehicle(s, id, now)
  }

  function BookSavedVehicle(s: Session, id: Text, now: Instant): Transition {
    var found := FindId(s.vehicles, Some(id));
    if found.None? then Stay(s)
    else StartBooking(s.(draft := DraftWithVehicle(s.draft, s.vehicles[found.value])), None, now)
  }

  function ChooseSavedVehicle(s: Session, id: Text): Session {
    var found := FindId(s.vehicles, Some(id));
    if found.None? then s
    else s.(draft := DraftWithVehicle(s.draft, s.vehicles[found.value]).(saveVehicle := true, touched := true))
  }

  function ChooseSavedAddress(s: Session, id: Text): Session {
    var found := FindId(s.addresses, Some(id));
    if found.None? then s
    else s.(draft := DraftWithAddress(s.draft, s.addresses[found.value].fields).(touched := true))
  }

  function ChangeBooks(s: Session, c: Command): Transition
    requires ChangesBooks(c)
  {
    match c
    case SaveCar(editing, values, sizeName) => Stay(SaveGarageVehicle(s, editing, values, sizeName))
    case DeleteCar(id) => Stay(DeleteSavedVehicle(s, id))
    case SaveAddress(editing, sheet) => Stay(SubmitAccountAddress(s, sheet, editing))
    case DeleteAddress(id) => Stay(DeleteSavedAddress(s, id))
    case Confirm(confirm) =>
      var r := ConfirmBooking(s, confirm);
      Transition(r.state, r.intent)
  }

  function Apply(s: Session, c: Command): Transition {
    if MovesAlong(c) then MoveAlong(s, c)
    else if ChangesBooks(c) then ChangeBooks(s, c)
    else
      match c
      case EditDraft(e) => Stay(s.(draft := Edited(s.draft, e), showAllTimes := s.showAllTimes && !CollapsesTimes(e)))
      case Visit(at) => Stay(s.(draftStep := at))
      case SaveAndExit => Transition(s.(draft := s.draft.(touched := true), reviewEditing := false), Some(GoHome))
      case ToggleAllTimes => Stay(s.(showAllTimes := !s.showAllTimes))
      case EndEdit => Stay(s.(reviewEditing := false))
      case ChooseCar(id) => Stay(ChooseSavedVehicle(s, id))
      case ChooseAddress(id) => Stay(ChooseSavedAddress(s, id))
      case ClearHandoff => Stay(s.(handoff := None))
  }

  function Run(s: Session, commands: seq<Command>): Session
    decreases commands
  {
    if commands == [] then s else Run(Apply(s, commands[0]).state, commands[1..])
  }
}
