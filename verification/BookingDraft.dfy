/** The unsent booking draft, its acceptance rules and the guard on entering a step. */
module BookingDraft {
  import opened Text
  import opened Scheduling

  /** Identifiers are checked at run time, so a value outside the closed list can occur. */
  datatype VehicleType = Sedan | Suv | Large | Pickup | OtherVehicle(id: Text)
  datatype CarePackage = Exterior | Complete | Premium | OtherPackage(id: Text)
  datatype CareExtra = Seats | Wheels | Scent | OtherExtra(id: Text)
  datatype PaymentMethod = Cash | Sham | Syriatel | OtherMethod(id: Text)

  datatype PlaceKind = Home | Work | OnMap | Gps | Manual
  datatype Place = Place(kind: PlaceKind, x: real, y: real, caption: Text)

  datatype Draft = Draft(
    vehicleType: VehicleType,
    carId: Option<Text>,
    carName: Text,
    plate: Text,
    color: Text,
    saveVehicle: bool,
    service: CarePackage,
    extras: seq<CareExtra>,
    address: Text,
    addressLabel: Text,
    locationNote: Text,
    place: Option<Place>,
    saveAddress: bool,
    scheduleDay: Option<int>,
    slot: Option<Slot>,
    contactName: Text,
    contactPhone: Text,
    note: Text,
    paymentMethod: Option<PaymentMethod>,
    touched: bool)

  /** The Arabic word for home. */
  const HOME_LABEL: Text := [0x627, 0x644, 0x645, 0x646, 0x632, 0x644]

  const BLANK := Draft(Sedan, None, [], [], [], true, Exterior, [], [], HOME_LABEL, [], None, true,
    None, None, [], [], [], None, false)

  const PLATE_MAX_LENGTH := 20
  const CONTACT_NAME_MAX_LENGTH := 60
  const ADDRESS_MIN_LENGTH := 4
  const REVIEW_STEP := 6

  // ------------------------------------------------------------ text rules

  function ToLatin(t: Text): (r: Text)
    ensures |r| == |t| && forall i :: 0 <= i < |t| ==> r[i] == LatinDigit(t[i])
  {
    seq(|t|, i requires 0 <= i < |t| => LatinDigit(t[i]))
  }

  /** `replace(/\s+/g, ' ')`. */
  function Collapse(t: Text): Text
    decreases |t|
  {
    if t == [] then []
    else if IsSpace(t[0]) then [SPACE] + Collapse(TrimStart(t))
    else [t[0]] + Collapse(t[1..])
  }

  function NormalizePlateInput(t: Text): Text {
    Cap(ToLatin(t), PLATE_MAX_LENGTH)
  }

  predicate IsPlateChar(c: CodeUnit) {
    65 <= c <= 90 || 97 <= c <= 122 || 0x621 <= c <= 0x64A || IsDigit(c) || IsSpace(c) || c == 45
  }

  predicate LooksLikePlate(t: Text) {
    && 2 <= |t| <= PLATE_MAX_LENGTH
    && (forall i :: 0 <= i < |t| ==> IsPlateChar(t[i]))
    && (exists i :: 0 <= i < |t| && IsDigit(t[i]))
  }

  predicate IsPlateAcceptable(plate: Text) {
    ToLatin(plate) == [] || LooksLikePlate(ToLatin(plate))
  }

  predicate IsNameAcceptable(name: Text) {
    |Trim(name)| >= 2
  }

  /** Removed from a phone number: white space, parentheses and hyphens. */
  predicate IsPhoneFiller(c: CodeUnit) {
    IsSpace(c) || c == 40 || c == 41 || c == 45
  }

  function StripFiller(t: Text): (r: Text)
    ensures |r| <= |t|
  {
    if t == [] then []
    else if IsPhoneFiller(t[0]) then StripFiller(t[1..])
    else [t[0]] + StripFiller(t[1..])
  }

  predicate IsPhoneAcceptable(phone: Text) {
    var t := StripFiller(ToLatin(phone));
    var digits := if t != [] && t[0] == 43 then t[1..] else t;
    8 <= |digits| <= 15 && AllDigits(digits)
  }

  function ConfirmedPlate(plate: Text): Text {
    Collapse(Trim(ToLatin(plate)))
  }

  function ConfirmedPhone(phone: Text): Text {
    StripFiller(ToLatin(phone))
  }

  function ConfirmedName(name: Text): Text {
    Cap(Trim(name), CONTACT_NAME_MAX_LENGTH)
  }

  function Clip(t: Text, max: nat): (r: Text)
    ensures |r| <= max
  {
    Cap(Trim(t), max)
  }

  predicate IsKnownVehicle(v: VehicleType) {
    !v.OtherVehicle?
  }

  predicate IsKnownPackage(p: CarePackage) {
    !p.OtherPackage?
  }

  predicate IsKnownMethod(m: Option<PaymentMethod>) {
    m.Some? && !m.value.OtherMethod?
  }

  // ------------------------------------------------------------ the entry guard

  /** A JavaScript number used as a step: finite, or an infinity or NaN. */
  datatype Number = NotFinite | Finite(value: real)

  function Trunc(x: real): int {
    if x >= 0.0 then x.Floor else -((-x).Floor)
  }

  /** The requested step, truncated and clamped to the journey. */
  function Clamped(n: Number): (step: int)
    ensures 0 <= step <= REVIEW_STEP
  {
    var requested := if n.Finite? then Trunc(n.value) else 0;
    if requested < 0 then 0 else if requested > REVIEW_STEP then REVIEW_STEP else requested
  }

  /** What is not a finite number asks for the first step, a fraction for the step it is in, and nothing goes beyond Review. */
  lemma ClampedIs(n: Number)
    ensures !n.Finite? || n.value < 1.0 ==> Clamped(n) == 0
    ensures n.Finite? && n.value >= REVIEW_STEP as real ==> Clamped(n) == REVIEW_STEP
    ensures n.Finite? && 0.0 <= n.value < REVIEW_STEP as real ==> Clamped(n) as real <= n.value < (Clamped(n) + 1) as real
  {
  }

  predicate HasAvailableSlot(d: Draft, now: Instant) {
    d.slot.Some? && IsSlotAvailable(now, d.slot.value)
  }

  /** The guard's chain of checks, on their outcomes. */
  function Guard(step: int, plate: bool, address: bool, slot: bool, contact: bool, payment: bool): int {
    if step > 0 && !plate then 0
    else if step > 2 && !address then 2
    else if step > 3 && !slot then 3
    else if step > 4 && !contact then 4
    else if step > 5 && !payment then 5
    else step
  }

  predicate IsContactAcceptable(d: Draft) {
    IsNameAcceptable(d.contactName) && IsPhoneAcceptable(d.contactPhone)
  }

  predicate IsLocationComplete(d: Draft) {
    |Trim(d.address)| >= ADDRESS_MIN_LENGTH
  }

  function ResolveEntryStep(d: Draft, requested: Number, now: Instant): int {
    Guard(Clamped(requested), IsPlateAcceptable(d.plate), IsLocationComplete(d), HasAvailableSlot(d, now),
      IsContactAcceptable(d), IsKnownMethod(d.paymentMethod))
  }

  /** What step `k` asks of the draft before the journey may go on. */
  predicate Met(d: Draft, k: int, now: Instant) {
    match k
    case 0 => IsPlateAcceptable(d.plate)
    case 2 => IsLocationComplete(d)
    case 3 => HasAvailableSlot(d, now)
    case 4 => IsContactAcceptable(d)
    case 5 => IsKnownMethod(d.paymentMethod)
    case _ => true
  }

  /** `step` is the furthest step up to `bound` with nothing missing before it. */
  predicate Furthest(d: Draft, bound: int, now: Instant, step: int) {
    && 0 <= step <= bound
    && (forall k :: 0 <= k < step ==> Met(d, k, now))
    && (step < bound ==> !Met(d, step, now))
  }

  lemma FurthestIsUnique(d: Draft, bound: int, now: Instant, a: int, b: int)
    requires Furthest(d, bound, now, a) && Furthest(d, bound, now, b)
    ensures a == b
  {
    assert a < b ==> Met(d, a, now);
    assert b < a ==> Met(d, b, now);
  }

  /** The guard picks the furthest allowed step. */
  lemma EntryIsFurthest(d: Draft, requested: Number, now: Instant)
    ensures Furthest(d, Clamped(requested), now, ResolveEntryStep(d, requested, now))
  {
    GuardStops(Clamped(requested), IsPlateAcceptable(d.plate), IsLocationComplete(d), HasAvailableSlot(d, now),
      IsContactAcceptable(d), IsKnownMethod(d.paymentMethod));
    StopIsFurthest(d, Clamped(requested), now, ResolveEntryStep(d, requested, now));
  }

  lemma StopIsFurthest(d: Draft, bound: int, now: Instant, r: int)
    requires 0 <= r <= bound <= REVIEW_STEP
    requires (r > 0 ==> Met(d, 0, now)) && (r > 2 ==> Met(d, 2, now)) && (r > 3 ==> Met(d, 3, now)) && (r > 4 ==> Met(d, 4, now)) && (r > 5 ==> Met(d, 5, now))
    requires r < bound ==> !Met(d, r, now)
    ensures Furthest(d, bound, now, r)
  {
    forall k | 0 <= k < r ensures Met(d, k, now) {
      assert k == 0 || k == 1 || k == 2 || k == 3 || k == 4 || k == 5;
    }
  }

  lemma GuardStops(step: int, plate: bool, address: bool, slot: bool, contact: bool, payment: bool)
    requires 0 <= step <= REVIEW_STEP
    ensures var r := Guard(step, plate, address, slot, contact, payment);
      && 0 <= r <= step
      && (r > 0 ==> plate) && (r > 2 ==> address) && (r > 3 ==> slot) && (r > 4 ==> contact) && (r > 5 ==> payment)
      && (r < step ==> (r == 0 && !plate) || (r == 2 && !address) || (r == 3 && !slot) || (r == 4 && !contact) || (r == 5 && !payment))
  {
  }

  /** The step asked for when a number is a whole step. */
  function Whole(step: int): (n: Number)
    ensures 0 <= step <= REVIEW_STEP ==> Clamped(n) == step
  {
    Finite(step as real)
  }

  /** Entering at the step the guard chose is allowed: the guard is idempotent. */
  lemma EntryIsFixpoint(d: Draft, requested: Number, now: Instant)
    ensures var step := ResolveEntryStep(d, requested, now);
      ResolveEntryStep(d, Whole(step), now) == step
  {
    var step := ResolveEntryStep(d, requested, now);
    EntryIsFurthest(d, requested, now);
    EntryIsFurthest(d, Whole(step), now);
    FurthestIsUnique(d, step, now, step, ResolveEntryStep(d, Whole(step), now));
  }

  /** Asking for more never gets less, and what one gets is capped by what is missing. */
  lemma EntryIsMonotone(d: Draft, a: Number, b: Number, now: Instant)
    requires Clamped(a) <= Clamped(b)
    ensures ResolveEntryStep(d, a, now) <= ResolveEntryStep(d, b, now)
    ensures ResolveEntryStep(d, a, now) ==
      var most := ResolveEntryStep(d, Whole(REVIEW_STEP), now); if Clamped(a) <= most then Clamped(a) else most
  {
    var x, y, most := ResolveEntryStep(d, a, now), ResolveEntryStep(d, b, now), ResolveEntryStep(d, Whole(REVIEW_STEP), now);
    EntryIsFurthest(d, a, now);
    EntryIsFurthest(d, b, now);
    EntryIsFurthest(d, Whole(REVIEW_STEP), now);
    var reach := if Clamped(b) <= most then Clamped(b) else most;
    FurthestIsUnique(d, Clamped(b), now, y, reach);
    var least := if Clamped(a) <= most then Clamped(a) else most;
    FurthestIsUnique(d, Clamped(a), now, x, least);
  }

  // ------------------------------------------------------------ confirmation-time normalisers

  predicate Latin(t: Text) {
    forall i :: 0 <= i < |t| ==> LatinDigit(t[i]) == t[i]
  }

  lemma LatinFixpoint(t: Text)
    requires Latin(t)
    ensures ToLatin(t) == t
  {
  }

  /** No run of white space left: every white space is a single SPACE. */
  predicate Collapsed(t: Text) {
    && (forall i :: 0 <= i < |t| && IsSpace(t[i]) ==> t[i] == SPACE)
    && (forall i :: 0 < i < |t| && IsSpace(t[i]) ==> !IsSpace(t[i - 1]))
  }

  /** The characters of the collapsed text: a SPACE or one of the originals, and every non-space is kept. */
  lemma {:induction false} CollapseMember(t: Text, c: CodeUnit)
    ensures c in Collapse(t) ==> c == SPACE || c in t
    ensures c in t && !IsSpace(c) ==> c in Collapse(t)
    decreases |t|
  {
    if t != [] && IsSpace(t[0]) {
      var rest := TrimStart(t);
      CollapseMember(rest, c);
      assert c in Collapse(t) <==> c == SPACE || c in Collapse(rest);
      if c in t && !IsSpace(c) {
        var i :| 0 <= i < |t| && t[i] == c;
        assert rest[i - (|t| - |rest|)] == c;
      }
    } else if t != [] {
      CollapseMember(t[1..], c);
      assert c in Collapse(t) <==> c == t[0] || c in Collapse(t[1..]);
      assert c in t <==> c == t[0] || c in t[1..];
    }
  }

  /** Putting one character in front of collapsed text. */
  lemma CollapsedCons(c: CodeUnit, r: Text)
    requires Collapsed(r) && (IsSpace(c) ==> c == SPACE && (r == [] || !IsSpace(r[0])))
    ensures Collapsed([c] + r)
  {
    var s := [c] + r;
    forall i | 0 < i < |s| && IsSpace(s[i]) ensures !IsSpace(s[i - 1]) {
      assert s[i] == r[i - 1];
      if i > 1 { assert s[i - 1] == r[i - 2]; }
    }
  }

  /** What is left to collapse after the first character or run of white space. */
  function AfterFirst(t: Text): (r: Text)
    requires t != []
    ensures |r| < |t| && r == t[|t| - |r|..]
    ensures Collapse(t) == [if IsSpace(t[0]) then SPACE else t[0]] + Collapse(r)
    ensures IsSpace(t[0]) && r != [] ==> !IsSpace(r[0])
  {
    if IsSpace(t[0]) then TrimStart(t) else t[1..]
  }

  lemma {:induction false} CollapseShape(t: Text)
    ensures |Collapse(t)| <= |t| && Collapsed(Collapse(t))
    ensures t != [] ==> Collapse(t) != [] && IsSpace(Collapse(t)[0]) == IsSpace(t[0])
    decreases |t|
  {
    if t != [] {
      var rest := AfterFirst(t);
      CollapseShape(rest);
      CollapsedCons(if IsSpace(t[0]) then SPACE else t[0], Collapse(rest));
    }
  }

  lemma {:induction false} CollapseLast(t: Text)
    requires t != [] && !IsSpace(t[|t| - 1])
    ensures Collapse(t) != [] && !IsSpace(Collapse(t)[|Collapse(t)| - 1])
    decreases |t|
  {
    var rest := AfterFirst(t);
    if rest != [] {
      assert rest[|rest| - 1] == t[|t| - 1];
      CollapseLast(rest);
    }
  }

  lemma {:induction false} CollapseFixpoint(t: Text)
    requires Collapsed(t)
    ensures Collapse(t) == t
    decreases |t|
  {
    if t != [] {
      assert t == [t[0]] + t[1..];
      assert Collapsed(t[1..]) by {
        forall i | 0 < i < |t[1..]| && IsSpace(t[1..][i]) ensures !IsSpace(t[1..][i - 1]) {
          assert IsSpace(t[i + 1]);
        }
      }
      CollapseFixpoint(t[1..]);
      if IsSpace(t[0]) {
        assert |t| > 1 ==> !IsSpace(t[1]);
        assert TrimStart(t[1..]) == t[1..];
      }
    }
  }

  lemma LatinKeepsSpaces(t: Text)
    ensures Latin(ToLatin(t))
    ensures forall i :: 0 <= i < |t| ==> IsSpace(ToLatin(t)[i]) == IsSpace(t[i])
  {
  }

  /** The characters of a confirmed plate come from the typed one, digits made Latin. */
  lemma ConfirmedPlateMember(plate: Text, c: CodeUnit)
    ensures c in ConfirmedPlate(plate) ==> c == SPACE || c in ToLatin(plate)
    ensures c in ToLatin(plate) && !IsSpace(c) ==> c in ConfirmedPlate(plate)
  {
    TrimShape(ToLatin(plate));
    CollapseMember(Trim(ToLatin(plate)), c);
  }

  lemma LatinMember(plate: Text, c: CodeUnit)
    requires c == SPACE || c in ToLatin(plate)
    ensures LatinDigit(c) == c
  {
  }

  lemma ConfirmedPlateLatin(plate: Text)
    ensures Latin(ConfirmedPlate(plate))
  {
    var r := ConfirmedPlate(plate);
    forall i | 0 <= i < |r| ensures LatinDigit(r[i]) == r[i] {
      assert r[i] in r;
      ConfirmedPlateMember(plate, r[i]);
      LatinMember(plate, r[i]);
    }
  }

  lemma CollapsedTrim(v: Text)
    ensures Trim(Collapse(Trim(v))) == Collapse(Trim(v)) && Collapsed(Collapse(Trim(v))) && |Collapse(Trim(v))| <= |v|
  {
    var t := Trim(v);
    TrimShape(v);
    CollapseShape(t);
    if t != [] {
      CollapseLast(t);
    }
    TrimFixpoint(Collapse(t));
  }

  /** What a confirmed plate looks like, and that confirming it again changes nothing. */
  lemma ConfirmedPlateShape(plate: Text)
    ensures var r := ConfirmedPlate(plate);
      && ToLatin(r) == r && Trim(r) == r && |r| <= |plate| && ConfirmedPlate(r) == r
  {
    var r := ConfirmedPlate(plate);
    CollapsedTrim(ToLatin(plate));
    ConfirmedPlateLatin(plate);
    LatinFixpoint(r);
    CollapseFixpoint(r);
  }

  lemma PlateCharsKept(plate: Text)
    requires forall i :: 0 <= i < |plate| ==> IsPlateChar(ToLatin(plate)[i])
    ensures forall k :: 0 <= k < |ConfirmedPlate(plate)| ==> IsPlateChar(ConfirmedPlate(plate)[k])
  {
    var v, r := ToLatin(plate), ConfirmedPlate(plate);
    forall k | 0 <= k < |r| ensures IsPlateChar(r[k]) {
      ConfirmedPlateMember(plate, r[k]);
      assert r[k] in r;
      if r[k] in v {
        var i :| 0 <= i < |v| && v[i] == r[k];
        assert IsPlateChar(v[i]);
      }
    }
  }

  lemma DigitKept(plate: Text, i: nat)
    requires i < |plate| && IsDigit(ToLatin(plate)[i])
    ensures exists k :: 0 <= k < |ConfirmedPlate(plate)| && IsDigit(ConfirmedPlate(plate)[k])
  {
    var c := ToLatin(plate)[i];
    ConfirmedPlateMember(plate, c);
    assert !IsSpace(c) && c in ConfirmedPlate(plate);
    var k :| 0 <= k < |ConfirmedPlate(plate)| && ConfirmedPlate(plate)[k] == c;
  }

  lemma PlateByLength(r: Text)
    requires |r| <= PLATE_MAX_LENGTH && ToLatin(r) == r
    requires forall k :: 0 <= k < |r| ==> IsPlateChar(r[k])
    requires exists k :: 0 <= k < |r| && IsDigit(r[k])
    ensures IsPlateAcceptable(r) <==> |r| != 1
  {
  }

  /** An acceptable plate stays acceptable when confirmed, unless one character is left of it. */
  lemma ConfirmedPlateAccepted(plate: Text)
    requires IsPlateAcceptable(plate)
    ensures IsPlateAcceptable(ConfirmedPlate(plate)) <==> |ConfirmedPlate(plate)| != 1
  {
    var r := ConfirmedPlate(plate);
    ConfirmedPlateShape(plate);
    if plate != [] {
      PlateCharsKept(plate);
      var i :| 0 <= i < |plate| && IsDigit(ToLatin(plate)[i]);
      DigitKept(plate, i);
      PlateByLength(r);
    }
  }

  predicate NoFiller(t: Text) {
    forall i :: 0 <= i < |t| ==> !IsPhoneFiller(t[i])
  }

  lemma {:induction false} StripShape(t: Text)
    ensures NoFiller(StripFiller(t))
    ensures Latin(t) ==> Latin(StripFiller(t))
  {
    if t != [] {
      StripShape(t[1..]);
      assert Latin(t) ==> Latin(t[1..]);
    }
  }

  lemma {:induction false} StripFixpoint(t: Text)
    requires NoFiller(t)
    ensures StripFiller(t) == t
  {
    if t != [] {
      StripFixpoint(t[1..]);
      assert t == [t[0]] + t[1..];
    }
  }

  lemma ConfirmedPhoneStable(phone: Text)
    ensures ConfirmedPhone(ConfirmedPhone(phone)) == ConfirmedPhone(phone)
    ensures IsPhoneAcceptable(ConfirmedPhone(phone)) <==> IsPhoneAcceptable(phone)
  {
    var v := ToLatin(phone);
    var r := ConfirmedPhone(phone);
    LatinKeepsSpaces(phone);
    StripShape(v);
    LatinFixpoint(r);
    StripFixpoint(r);
  }

  /** Under the cap the name field imposes, a confirmed name stays as it is and acceptable. */
  lemma ConfirmedNameStable(name: Text)
    requires |name| <= CONTACT_NAME_MAX_LENGTH
    ensures ConfirmedName(name) == Trim(name) && ConfirmedName(ConfirmedName(name)) == ConfirmedName(name)
    ensures IsNameAcceptable(ConfirmedName(name)) <==> IsNameAcceptable(name)
  {
    TrimShape(name);
    TrimIdempotent(name);
  }

  /** The cut at `max` does not fall right after a white space, or nothing is cut. */
  predicate CutsClean(t: Text, max: nat)
    requires max > 0
  {
    |Trim(t)| <= max || !IsSpace(Trim(t)[max - 1])
  }

  /** Clipping is not idempotent: a second clip changes nothing if and only if the first one cut cleanly. */
  lemma ClipAgainIff(t: Text, max: nat)
    requires max > 0
    ensures Clip(Clip(t, max), max) == Clip(t, max) <==> CutsClean(t, max)
  {
    var c := Clip(t, max);
    TrimShape(t);
    TrimShape(c);
    if |Trim(t)| <= max {
      TrimIdempotent(t);
    } else {
      assert c == Trim(t)[..max] && c[max - 1] == Trim(t)[max - 1] && c[0] == Trim(t)[0];
      if !IsSpace(c[max - 1]) { TrimFixpoint(c); }
    }
  }

  // ------------------------------------------------------------ what the text rules accept and keep

  /** A digit in any of the three scripts. */
  predicate AnyDigit(c: CodeUnit) {
    0x30 <= c <= 0x39 || 0x660 <= c <= 0x669 || 0x6F0 <= c <= 0x6F9
  }

  /** What may stand in a plate as typed: Latin and Arabic letters, digits of any script, white space and hyphens. */
  predicate TypedPlateChar(c: CodeUnit) {
    || 0x41 <= c <= 0x5A || 0x61 <= c <= 0x7A || 0x621 <= c <= 0x64A
    || AnyDigit(c) || IsSpace(c) || c == 0x2D
  }

  lemma PlateCharTyped(c: CodeUnit)
    ensures IsPlateChar(LatinDigit(c)) <==> TypedPlateChar(c)
    ensures IsDigit(LatinDigit(c)) <==> AnyDigit(c)
  {
  }

  /** An acceptable plate, as typed: none at all, or two to twenty such characters with a digit among them. */
  lemma AcceptedPlateIff(plate: Text)
    ensures IsPlateAcceptable(plate) <==>
      || plate == []
      || (&& 2 <= |plate| <= 20
          && (forall i :: 0 <= i < |plate| ==> TypedPlateChar(plate[i]))
          && (exists i :: 0 <= i < |plate| && AnyDigit(plate[i])))
  {
    var v := ToLatin(plate);
    forall i | 0 <= i < |plate|
      ensures IsPlateChar(v[i]) <==> TypedPlateChar(plate[i])
      ensures IsDigit(v[i]) <==> AnyDigit(plate[i])
    {
      PlateCharTyped(plate[i]);
    }
  }

  lemma {:induction false} StripConcat(a: Text, b: Text)
    ensures StripFiller(a + b) == StripFiller(a) + StripFiller(b)
  {
    if a == [] {
      assert a + b == b;
    } else {
      assert (a + b)[0] == a[0] && (a + b)[1..] == a[1..] + b;
      StripConcat(a[1..], b);
    }
  }

  /** A confirmed number is the typed one, character by character: white space, parentheses and hyphens left out, digits in Latin. */
  lemma ConfirmedPhoneParts(a: Text, b: Text, c: CodeUnit)
    ensures ConfirmedPhone(a + b) == ConfirmedPhone(a) + ConfirmedPhone(b)
    ensures ConfirmedPhone([c]) == if IsSpace(c) || c in {0x20, 0x28, 0x29, 0x2D} then [] else [LatinDigit(c)]
  {
    assert ToLatin(a + b) == ToLatin(a) + ToLatin(b);
    StripConcat(ToLatin(a), ToLatin(b));
    assert ToLatin([c]) == [LatinDigit(c)];
    assert [LatinDigit(c)][1..] == [];
  }

  /** The characters other than white space, in order. */
  function Ink(t: Text): Text {
    if t == [] then [] else (if IsSpace(t[0]) then [] else [t[0]]) + Ink(t[1..])
  }

  lemma {:induction false} InkConcat(a: Text, b: Text)
    ensures Ink(a + b) == Ink(a) + Ink(b)
  {
    if a == [] {
      assert a + b == b;
    } else {
      assert (a + b)[0] == a[0] && (a + b)[1..] == a[1..] + b;
      InkConcat(a[1..], b);
    }
  }

  lemma {:induction false} NoInk(t: Text)
    requires forall i :: 0 <= i < |t| ==> IsSpace(t[i])
    ensures Ink(t) == []
  {
    if t != [] { NoInk(t[1..]); }
  }

  lemma TrimInk(t: Text)
    ensures Ink(Trim(t)) == Ink(t)
  {
    var s := TrimStart(t);
    var r := Trim(t);
    assert t == t[..|t| - |s|] + s && s == r + s[|r|..];
    NoInk(t[..|t| - |s|]);
    NoInk(s[|r|..]);
    InkConcat(t[..|t| - |s|], s);
    InkConcat(r, s[|r|..]);
  }

  lemma {:induction false} CollapseInk(t: Text)
    ensures Ink(Collapse(t)) == Ink(t)
    decreases |t|
  {
    if t != [] {
      var rest := AfterFirst(t);
      var first := [if IsSpace(t[0]) then SPACE else t[0]];
      var cut := t[..|t| - |rest|];
      assert t == cut + rest;
      CollapseInk(rest);
      InkConcat(first, Collapse(rest));
      InkConcat(cut, rest);
      if IsSpace(t[0]) {
        NoInk(cut);
        NoInk(first);
      } else {
        assert cut == first;
      }
    }
  }

  /** A confirmed plate has the typed characters, in order and in Latin, with single spaces inside and none around. */
  lemma ConfirmedPlateKeeps(plate: Text)
    ensures Ink(ConfirmedPlate(plate)) == Ink(ToLatin(plate))
    ensures Collapsed(ConfirmedPlate(plate)) && Trim(ConfirmedPlate(plate)) == ConfirmedPlate(plate)
  {
    TrimInk(ToLatin(plate));
    CollapseInk(Trim(ToLatin(plate)));
    CollapsedTrim(ToLatin(plate));
  }
}
