/** Exact money text: the finance console's printer and parser, and the operator's cash entry. */
module Money {
  import opened Text
  import opened Decimal

  datatype AmountProblem = AMOUNT_REQUIRED | AMOUNT_INVALID | AMOUNT_TOO_PRECISE
  datatype Parsed = Minor(units: Text) | Problem(problem: AmountProblem)

  /** `/^(0|[1-9][0-9]{0,17})$/`: minor units as a decimal string. */
  predicate IsMinor(t: Text) {
    Canonical(t) && |t| <= 18
  }

  /** Thousands separators, counted from the right. */
  function Group(t: Text): Text {
    if |t| <= 3 then t else Group(t[..|t| - 3]) + [COMMA] + t[|t| - 3..]
  }

  function PadStart(t: Text, n: nat): (r: Text)
    ensures |r| == if |t| < n then n else |t|
  {
    if |t| < n then Zeros(n - |t|) + t else t
  }

  function WholePart(minor: Text, scale: nat): Text {
    var digits := PadStart(minor, scale + 1);
    digits[..|digits| - scale]
  }

  function FractionPart(minor: Text, scale: nat): Text {
    var digits := PadStart(minor, scale + 1);
    digits[|digits| - scale..]
  }

  function Dotted(f: Option<Text>): Text {
    if f.Some? then [DOT] + f.value else []
  }

  function Fraction(minor: Text, scale: nat): Option<Text> {
    if scale > 0 then Some(FractionPart(minor, scale)) else None
  }

  /** The number `formatMoney` prints before the currency; none for an amount it refuses. */
  function FormatNumber(minor: Text, scale: int): Option<Text> {
    if !IsMinor(minor) || scale < 0 then None
    else Some(Group(WholePart(minor, scale)) + Dotted(Fraction(minor, scale)))
  }

  function Without(t: Text, c: CodeUnit): (r: Text)
    ensures forall i :: 0 <= i < |r| ==> r[i] != c
  {
    if t == [] then [] else if t[0] == c then Without(t[1..], c) else [t[0]] + Without(t[1..], c)
  }

  /** The text before the first dot and, if there is one, the text after it. */
  function Split(t: Text): (Text, Option<Text>) {
    if t == [] then ([], None)
    else if t[0] == DOT then ([], Some(t[1..]))
    else var (w, f) := Split(t[1..]); ([t[0]] + w, f)
  }

  /** `/^(0|[1-9][0-9]{0,15})(?:\.([0-9]+))?$/` on the two parts. */
  predicate Matches(whole: Text, fraction: Option<Text>) {
    && Canonical(whole) && |whole| <= 16
    && (fraction.Some? ==> fraction.value != [] && AllDigits(fraction.value))
  }

  function FractionDigits(f: Option<Text>): Text {
    if f.Some? then f.value else []
  }

  function ParseAmount(raw: Text, scale: int): Parsed {
    var text := Without(Trim(raw), COMMA);
    if text == [] then Problem(AMOUNT_REQUIRED)
    else
      var (whole, f) := Split(text);
      var fraction := FractionDigits(f);
      if !Matches(whole, f) then Problem(AMOUNT_INVALID)
      else if |fraction| > scale then Problem(AMOUNT_TOO_PRECISE)
      else
        var minor := StripZeros(whole + (fraction + Zeros(scale - |fraction|)));
        if IsMinor(minor) then Minor(minor) else Problem(AMOUNT_INVALID)
  }

  // ------------------------------------------------------------ exactness of parsing

  lemma {:induction false} LeadingDigitValue(t: Text)
    requires AllDigits(t) && t != [] && t[0] != 48
    ensures Value(t) >= Pow10(|t| - 1)
  {
    if |t| > 1 { LeadingDigitValue(t[..|t| - 1]); }
  }

  lemma {:induction false} Pow10Grows(m: nat, n: nat)
    requires m <= n
    ensures Pow10(m) <= Pow10(n)
    decreases n - m
  {
    if m < n { Pow10Grows(m + 1, n); }
  }

  lemma EighteenDigits(t: Text)
    requires Canonical(t)
    ensures IsMinor(t) <==> Value(t) < Pow10(18)
  {
    if |t| <= 18 {
      ValueBound(t);
      Pow10Grows(|t|, 18);
    } else {
      LeadingDigitValue(t);
      Pow10Grows(18, |t| - 1);
    }
  }

  /** The exact value, in minor units, of a whole part and a fraction no longer than the scale. */
  function MinorUnits(whole: Text, fraction: Text, scale: int): nat
    requires AllDigits(whole) && AllDigits(fraction) && |fraction| <= scale
  {
    Value(whole) * Pow10(scale) + Value(fraction) * Pow10(scale - |fraction|)
  }

  lemma JoinedValue(whole: Text, fraction: Text, scale: int)
    requires AllDigits(whole) && AllDigits(fraction) && |fraction| <= scale
    ensures var joined := whole + (fraction + Zeros(scale - |fraction|));
      AllDigits(joined) && Value(joined) == MinorUnits(whole, fraction, scale)
  {
    var pad := Zeros(scale - |fraction|);
    ValueConcat(fraction, pad);
    ValueZeros(scale - |fraction|);
    ValueConcat(whole, fraction + pad);
  }

  /**
   * What is accepted, and as what: exactly the well-formed numbers with no more fraction
   * digits than the scale and less than 10^18 minor units, each as its exact value.
   */
  lemma ParsedExactly(raw: Text, scale: int, minor: Text)
    ensures
      var text := Without(Trim(raw), COMMA);
      var (whole, f) := Split(text);
      var fraction := FractionDigits(f);
      ParseAmount(raw, scale) == Minor(minor) <==>
        && Matches(whole, f) && |fraction| <= scale
        && Canonical(minor) && Value(minor) == MinorUnits(whole, fraction, scale) < Pow10(18)
  {
    var text := Without(Trim(raw), COMMA);
    var (whole, f) := Split(text);
    var fraction := FractionDigits(f);
    if Matches(whole, f) && |fraction| <= scale {
      var joined := whole + (fraction + Zeros(scale - |fraction|));
      JoinedValue(whole, fraction, scale);
      StripZerosValue(joined);
      EighteenDigits(StripZeros(joined));
      assert text != [];
      if Canonical(minor) && Value(minor) == Value(joined) {
        DigitsOfValue(minor);
        DigitsOfValue(StripZeros(joined));
      }
    }
  }

  /**
   * What is refused, and as what: a text of white space and separators only is missing; a
   * well-formed number with more fraction digits than the scale is too precise; whatever
   * else is refused is malformed or out of range.
   */
  lemma RefusedAs(raw: Text, scale: int)
    ensures
      var text := Without(Trim(raw), COMMA);
      var (whole, f) := Split(text);
      var r := ParseAmount(raw, scale);
      && (r == Problem(AMOUNT_REQUIRED) <==> text == [])
      && (r == Problem(AMOUNT_TOO_PRECISE) <==> Matches(whole, f) && |FractionDigits(f)| > scale)
      && (r == Problem(AMOUNT_INVALID) <==>
            && text != []
            && (!Matches(whole, f) || (|FractionDigits(f)| <= scale && MinorUnits(whole, FractionDigits(f), scale) >= Pow10(18))))
  {
    var text := Without(Trim(raw), COMMA);
    var (whole, f) := Split(text);
    if Matches(whole, f) && |FractionDigits(f)| <= scale {
      InRangeIff(whole, FractionDigits(f), scale);
    }
  }

  lemma InRangeIff(whole: Text, fraction: Text, scale: int)
    requires AllDigits(whole) && whole != [] && AllDigits(fraction) && |fraction| <= scale
    ensures IsMinor(StripZeros(whole + (fraction + Zeros(scale - |fraction|)))) <==> MinorUnits(whole, fraction, scale) < Pow10(18)
  {
    var joined := whole + (fraction + Zeros(scale - |fraction|));
    JoinedValue(whole, fraction, scale);
    StripZerosValue(joined);
    EighteenDigits(StripZeros(joined));
  }

  // ------------------------------------------------------------ round trip

  lemma {:induction false} WithoutConcat(a: Text, b: Text, c: CodeUnit)
    ensures Without(a + b, c) == Without(a, c) + Without(b, c)
  {
    if a == [] {
      assert a + b == b;
    } else {
      assert (a + b)[1..] == a[1..] + b;
      WithoutConcat(a[1..], b, c);
    }
  }

  lemma {:induction false} WithoutAbsent(t: Text, c: CodeUnit)
    requires forall i :: 0 <= i < |t| ==> t[i] != c
    ensures Without(t, c) == t
  {
    if t != [] { WithoutAbsent(t[1..], c); }
  }

  lemma WithoutComma(a: Text, b: Text)
    ensures Without((a + [COMMA]) + b, COMMA) == Without(a, COMMA) + Without(b, COMMA)
  {
    WithoutConcat(a + [COMMA], b, COMMA);
    WithoutConcat(a, [COMMA], COMMA);
    assert Without([COMMA], COMMA) == [];
  }

  lemma UngroupLast(a: Text, grouped: Text, b: Text)
    requires AllDigits(b) && Without(grouped, COMMA) == a
    ensures Without(grouped + [COMMA] + b, COMMA) == a + b
  {
    WithoutComma(grouped, b);
    WithoutAbsent(b, COMMA);
  }

  lemma GroupLast(t: Text)
    requires |t| > 3
    ensures Group(t) == Group(t[..|t| - 3]) + [COMMA] + t[|t| - 3..]
  {
  }

  /** Removing the separators undoes the grouping. */
  lemma {:induction false} UngroupGroup(t: Text)
    requires AllDigits(t)
    ensures Without(Group(t), COMMA) == t
  {
    if |t| <= 3 {
      WithoutAbsent(t, COMMA);
    } else {
      UngroupGroup(t[..|t| - 3]);
      UngroupLast(t[..|t| - 3], Group(t[..|t| - 3]), t[|t| - 3..]);
      GroupLast(t);
      assert t == t[..|t| - 3] + t[|t| - 3..];
    }
  }

  lemma {:induction false} GroupShape(t: Text)
    requires AllDigits(t) && t != []
    ensures Group(t) != [] && Group(t)[0] == t[0] && Group(t)[|Group(t)| - 1] == t[|t| - 1]
    ensures forall i :: 0 <= i < |Group(t)| ==> IsDigit(Group(t)[i]) || Group(t)[i] == COMMA
  {
    if |t| > 3 { GroupShape(t[..|t| - 3]); }
  }

  lemma {:induction false} SplitWhole(w: Text, f: Option<Text>)
    requires AllDigits(w)
    ensures Split(w + Dotted(f)) == (w, f)
  {
    var rest := Dotted(f);
    if w == [] {
      assert w + rest == rest;
      if f.Some? { assert rest[1..] == f.value; }
    } else {
      assert (w + rest)[0] == w[0] && (w + rest)[1..] == w[1..] + rest;
      SplitWhole(w[1..], f);
      assert w == [w[0]] + w[1..];
    }
  }

  lemma PartsShape(minor: Text, scale: nat)
    requires IsMinor(minor)
    ensures Canonical(WholePart(minor, scale)) && AllDigits(FractionPart(minor, scale)) && |FractionPart(minor, scale)| == scale
    ensures |WholePart(minor, scale)| == if |minor| - scale >= 1 then |minor| - scale else 1
    ensures PadStart(minor, scale + 1) == WholePart(minor, scale) + FractionPart(minor, scale)
  {
  }

  lemma DigitEnds(t: Text)
    requires t != [] && IsDigit(t[0]) && IsDigit(t[|t| - 1])
    ensures Trim(t) == t
  {
    TrimFixpoint(t);
  }

  lemma PrintedEnds(whole: Text, f: Option<Text>)
    requires AllDigits(whole) && whole != [] && (f.Some? ==> AllDigits(f.value) && f.value != [])
    ensures Trim(Group(whole) + Dotted(f)) == Group(whole) + Dotted(f)
  {
    GroupShape(whole);
    var printed := Group(whole) + Dotted(f);
    assert printed[0] == Group(whole)[0];
    assert printed[|printed| - 1] == if f.Some? then f.value[|f.value| - 1] else Group(whole)[|Group(whole)| - 1];
    DigitEnds(printed);
  }

  lemma UngroupPrinted(whole: Text, f: Option<Text>)
    requires AllDigits(whole) && (f.Some? ==> AllDigits(f.value))
    ensures Without(Group(whole) + Dotted(f), COMMA) == whole + Dotted(f)
  {
    UngroupGroup(whole);
    WithoutConcat(Group(whole), Dotted(f), COMMA);
    WithoutAbsent(Dotted(f), COMMA);
  }

  /** The parts of the printed number, as the parser sees them. */
  lemma PrintedParts(minor: Text, scale: nat)
    requires IsMinor(minor)
    ensures
      var text := Without(Trim(FormatNumber(minor, scale).value), COMMA);
      text != [] && Split(text) == (WholePart(minor, scale), Fraction(minor, scale))
  {
    PartsShape(minor, scale);
    PrintedSplit(WholePart(minor, scale), Fraction(minor, scale));
  }

  lemma PrintedSplit(whole: Text, f: Option<Text>)
    requires AllDigits(whole) && whole != [] && (f.Some? ==> AllDigits(f.value) && f.value != [])
    ensures
      var text := Without(Trim(Group(whole) + Dotted(f)), COMMA);
      text != [] && Split(text) == (whole, f)
  {
    PrintedEnds(whole, f);
    UngroupPrinted(whole, f);
    SplitWhole(whole, f);
  }

  lemma PaddedValue(minor: Text, n: nat)
    requires AllDigits(minor)
    ensures AllDigits(PadStart(minor, n)) && Value(PadStart(minor, n)) == Value(minor)
  {
    if |minor| < n {
      ValueZeros(n - |minor|);
      ValueConcat(Zeros(n - |minor|), minor);
    }
  }

  /**
   * Parsing the printed number gives the same minor units if and only if its whole part
   * has at most 16 digits; a longer one, possible only for a scale below 2, is refused.
   */
  lemma RoundTripIff(minor: Text, scale: nat)
    requires IsMinor(minor)
    ensures ParseAmount(FormatNumber(minor, scale).value, scale) == Minor(minor) <==> |minor| - scale <= 16
    ensures |minor| - scale > 16 ==> ParseAmount(FormatNumber(minor, scale).value, scale) == Problem(AMOUNT_INVALID)
  {
    PrintedParts(minor, scale);
    PartsShape(minor, scale);
    if |minor| - scale <= 16 {
      PartsValue(minor, scale);
      EighteenDigits(minor);
      ParsedExactly(FormatNumber(minor, scale).value, scale, minor);
    }
  }

  lemma PartsValue(minor: Text, scale: nat)
    requires IsMinor(minor)
    ensures Canonical(WholePart(minor, scale)) && AllDigits(FractionPart(minor, scale)) && |FractionPart(minor, scale)| == scale
    ensures AllDigits(FractionDigits(Fraction(minor, scale))) && |FractionDigits(Fraction(minor, scale))| == scale
    ensures MinorUnits(WholePart(minor, scale), FractionDigits(Fraction(minor, scale)), scale) == Value(minor)
  {
    PartsShape(minor, scale);
    PaddedValue(minor, scale + 1);
    assert FractionDigits(Fraction(minor, scale)) == FractionPart(minor, scale);
    ValueConcat(WholePart(minor, scale), FractionPart(minor, scale));
    TimesOne(Value(FractionPart(minor, scale)));
  }

  lemma TimesOne(x: int)
    ensures x * Pow10(0) == x
  {
  }

  // ------------------------------------------------------------ the operator's cash entry

  /** Grouped major units; a non-zero fraction is shown, never rounded away. */
  function FormatMajor(units: int, scale: nat): Text {
    var abs := if units < 0 then -units else units;
    var whole, fraction := Group(Digits(Quotient(abs, Pow10(scale)))), Remainder(abs, Pow10(scale));
    var text := if fraction == 0 then whole else whole + [DOT] + PadStart(Digits(fraction), scale);
    if units < 0 then [45] + text else text
  }

  datatype Major = Major(negative: bool, whole: nat, rest: nat)

  /**
   * What a grouped amount in major units says: a sign, whole units with separators, and, if
   * there is a fraction, exactly as many digits of it as the scale has.
   */
  function ReadMajor(t: Text, scale: nat): Option<Major> {
    var negative := t != [] && t[0] == 45;
    var (whole, f) := Split(if negative then t[1..] else t);
    var w := Without(whole, COMMA);
    if w == [] || !AllDigits(w) || (f.Some? && (|f.value| != scale || !AllDigits(f.value))) then None
    else Some(Major(negative, Value(w), if f.Some? then Value(f.value) else 0))
  }

  function UnitsOf(m: Major, scale: nat): int {
    var abs := m.whole * Pow10(scale) + m.rest;
    if m.negative then -abs else abs
  }

  lemma {:induction false} SplitAtDot(w: Text, f: Option<Text>)
    requires forall i :: 0 <= i < |w| ==> w[i] != DOT
    ensures Split(w + Dotted(f)) == (w, f)
  {
    var rest := Dotted(f);
    if w == [] {
      assert w + rest == rest;
      if f.Some? { assert rest[1..] == f.value; }
    } else {
      assert (w + rest)[0] == w[0] && (w + rest)[1..] == w[1..] + rest;
      SplitAtDot(w[1..], f);
      assert w == [w[0]] + w[1..];
    }
  }

  /** A number below a power of ten has no more digits than its exponent. */
  lemma FewDigits(n: nat, scale: nat)
    requires 0 < n < Pow10(scale)
    ensures |Digits(n)| <= scale
  {
    ValueOfDigits(n);
    LeadingDigitValue(Digits(n));
    if |Digits(n)| > scale {
      Pow10Grows(scale, |Digits(n)| - 1);
      assert false;
    }
  }

  function MajorFraction(rest: nat, scale: nat): Option<Text> {
    if rest == 0 then None else Some(PadStart(Digits(rest), scale))
  }

  function FractionUnits(f: Option<Text>): nat
    requires f.Some? ==> AllDigits(f.value)
  {
    if f.Some? then Value(f.value) else 0
  }

  lemma PrintedDots(whole: Text, f: Option<Text>)
    requires AllDigits(whole) && whole != [] && (f.Some? ==> AllDigits(f.value))
    ensures var t := Group(whole) + Dotted(f);
      t != [] && t[0] == whole[0] && Split(t) == (Group(whole), f) && (DOT in t <==> f.Some?)
  {
    GroupShape(whole);
    SplitAtDot(Group(whole), f);
    var t := Group(whole) + Dotted(f);
    if f.Some? { assert t[|Group(whole)|] == DOT; }
  }

  lemma PartsRead(whole: Text, f: Option<Text>, scale: nat)
    requires AllDigits(whole) && whole != [] && (f.Some? ==> AllDigits(f.value) && |f.value| == scale)
    ensures var t := Group(whole) + Dotted(f);
      && t != [] && t[0] != 45 && ReadMajor(t, scale) == Some(Major(false, Value(whole), FractionUnits(f)))
      && (DOT in t <==> f.Some?)
  {
    PrintedDots(whole, f);
    UngroupGroup(whole);
    assert IsDigit(whole[0]);
  }

  lemma FractionFits(rest: nat, scale: nat)
    requires rest < Pow10(scale)
    ensures var f := MajorFraction(rest, scale);
      && (f.Some? ==> AllDigits(f.value) && |f.value| == scale) && (f.Some? <==> rest != 0) && FractionUnits(f) == rest
  {
    if rest > 0 { FewDigits(rest, scale); }
    ValueOfDigits(rest);
    PaddedValue(Digits(rest), scale);
  }

  function Unsigned(whole: nat, rest: nat, scale: nat): Text {
    Group(Digits(whole)) + Dotted(MajorFraction(rest, scale))
  }

  lemma UnsignedReads(whole: nat, rest: nat, scale: nat)
    requires rest < Pow10(scale)
    ensures var t := Unsigned(whole, rest, scale);
      && t != [] && t[0] != 45 && ReadMajor(t, scale) == Some(Major(false, whole, rest)) && (DOT in t <==> rest != 0)
  {
    FractionFits(rest, scale);
    ValueOfDigits(whole);
    PartsRead(Digits(whole), MajorFraction(rest, scale), scale);
  }

  lemma MajorIsSigned(units: int, scale: nat)
    ensures var abs := if units < 0 then -units else units;
      var t := Unsigned(Quotient(abs, Pow10(scale)), Remainder(abs, Pow10(scale)), scale);
      FormatMajor(units, scale) == if units < 0 then [45] + t else t
  {
  }

  lemma SignReads(t: Text, scale: nat)
    requires t != [] && t[0] != 45 && ReadMajor(t, scale).Some?
    ensures ReadMajor([45] + t, scale) == Some(ReadMajor(t, scale).value.(negative := true)) && (DOT in [45] + t <==> DOT in t)
  {
    assert ([45] + t)[1..] == t;
  }

  /** Reading the printed amount gives exactly the units back, with their sign; a fraction is printed if and only if there is one. */
  lemma MajorReads(units: int, scale: nat)
    ensures
      var read := ReadMajor(FormatMajor(units, scale), scale);
      && read.Some? && UnitsOf(read.value, scale) == units
      && read.value.negative == (units < 0) && read.value.rest < Pow10(scale)
      && (DOT in FormatMajor(units, scale) <==> read.value.rest != 0)
  {
    var abs := if units < 0 then -units else units;
    var whole, rest := Quotient(abs, Pow10(scale)), Remainder(abs, Pow10(scale));
    UnsignedReads(whole, rest, scale);
    DivParts(abs, Pow10(scale));
    MajorIsSigned(units, scale);
    if units < 0 { SignReads(Unsigned(whole, rest, scale), scale); }
  }

  predicate FourthFromRight(n: int) {
    n % 4 == 0
  }

  lemma FourMore(n: int)
    ensures FourthFromRight(n + 4) <==> FourthFromRight(n)
    ensures 0 < n < 4 ==> !FourthFromRight(n)
    ensures FourthFromRight(4)
  {
  }

  /** Separators stand exactly before every third digit counted from the right. */
  lemma {:induction false} GroupedByThrees(t: Text)
    requires AllDigits(t)
    ensures var g := Group(t); forall i :: 0 <= i < |g| ==> (g[i] == COMMA <==> FourthFromRight(|g| - i))
  {
    var g := Group(t);
    if |t| > 3 {
      var a, b := Group(t[..|t| - 3]), t[|t| - 3..];
      GroupedByThrees(t[..|t| - 3]);
      GroupLast(t);
      forall i | 0 <= i < |g| ensures g[i] == COMMA <==> FourthFromRight(|g| - i) {
        GroupedAt(a, b, i);
      }
    } else {
      forall i | 0 <= i < |g| ensures g[i] == COMMA <==> FourthFromRight(|g| - i) {
        FourMore(|g| - i);
      }
    }
  }

  lemma GroupedAt(a: Text, b: Text, i: nat)
    requires |b| == 3 && AllDigits(b) && i < |a| + 4
    requires forall j :: 0 <= j < |a| ==> (a[j] == COMMA <==> FourthFromRight(|a| - j))
    ensures (a + [COMMA] + b)[i] == COMMA <==> FourthFromRight(|a| + 4 - i)
  {
    if i < |a| {
      FourMore(|a| - i);
    } else {
      FourMore(|a| + 4 - i);
    }
  }

  predicate IsSeparator(c: CodeUnit) {
    c == COMMA || c == 0x66C || IsSpace(c)
  }

  function DigitValue(t: Text): Text {
    if t == [] then []
    else if IsSeparator(LatinDigit(t[0])) then DigitValue(t[1..])
    else [LatinDigit(t[0])] + DigitValue(t[1..])
  }

  predicate CashMatches(input: Text, units: int, scale: nat) {
    var v := DigitValue(input);
    1 <= |v| <= 9 && AllDigits(v) && Value(v) * Pow10(scale) == units
  }

  /** `input` spells the Latin digits `d`: each in any of the three scripts, with separators anywhere. */
  predicate Spells(input: Text, d: Text) {
    if input == [] then d == []
    else
      || ((input[0] in {0x2C, 0x66C} || IsSpace(input[0])) && Spells(input[1..], d))
      || (d != [] && IsDigit(d[0]) && input[0] in {d[0], d[0] - 48 + 0x660, d[0] - 48 + 0x6F0} && Spells(input[1..], d[1..]))
  }

  lemma {:induction false} SpellsIffReads(input: Text, d: Text)
    ensures Spells(input, d) <==> DigitValue(input) == d && AllDigits(d)
  {
    if input != [] {
      var c := LatinDigit(input[0]);
      if IsSeparator(input[0]) {
        SpellsIffReads(input[1..], d);
      } else if d != [] {
        SpellsIffReads(input[1..], d[1..]);
        assert d == [d[0]] + d[1..];
        assert DigitValue(input) == [c] + DigitValue(input[1..]);
        assert DigitValue(input) == d ==> DigitValue(input)[1..] == d[1..] && DigitValue(input)[0] == d[0];
        assert AllDigits(d) <==> IsDigit(d[0]) && AllDigits(d[1..]);
      }
    }
  }

  /** Accepted means: it spells one to nine whole digits worth exactly the total, and the reverse. */
  lemma CashAcceptedIff(input: Text, units: int, scale: nat)
    ensures CashMatches(input, units, scale) <==>
      exists d: Text :: Spells(input, d) && 1 <= |d| <= 9 && AllDigits(d) && Value(d) * Pow10(scale) == units
  {
    if CashMatches(input, units, scale) {
      SpellsIffReads(input, DigitValue(input));
    }
    if d: Text :| Spells(input, d) && 1 <= |d| <= 9 && AllDigits(d) && Value(d) * Pow10(scale) == units {
      SpellsIffReads(input, d);
    }
  }

  lemma {:induction false} GroupedSpells(t: Text)
    requires AllDigits(t)
    ensures DigitValue(Group(t)) == t
  {
    if |t| <= 3 {
      LatinDigitsStay(t);
    } else {
      var a, b := t[..|t| - 3], t[|t| - 3..];
      GroupedSpells(a);
      LatinDigitsStay(b);
      CommaDisappears(Group(a), b);
      assert t == a + b;
    }
  }

  lemma CommaDisappears(a: Text, b: Text)
    ensures DigitValue(a + [COMMA] + b) == DigitValue(a) + DigitValue(b)
  {
    DigitValueConcat(a + [COMMA], b);
    DigitValueConcat(a, [COMMA]);
    assert DigitValue([COMMA]) == [];
  }

  lemma {:induction false} LatinDigitsStay(t: Text)
    requires AllDigits(t)
    ensures DigitValue(t) == t
  {
    if t != [] { LatinDigitsStay(t[1..]); }
  }

  lemma {:induction false} DigitValueConcat(a: Text, b: Text)
    ensures DigitValue(a + b) == DigitValue(a) + DigitValue(b)
  {
    if a == [] {
      assert a + b == b;
    } else {
      assert (a + b)[1..] == a[1..] + b;
      DigitValueConcat(a[1..], b);
    }
  }

  lemma NineDigits(n: nat)
    requires n < Pow10(9)
    ensures |Digits(n)| <= 9
  {
    ValueOfDigits(n);
    if |Digits(n)| > 1 {
      LeadingDigitValue(Digits(n));
      if |Digits(n)| > 9 {
        Pow10Grows(9, |Digits(n)| - 1);
        assert false;
      }
    }
  }

  /** A whole-unit total of at most nine digits is accepted as printed, and in every respelling of it. */
  lemma PrintedTotalIsAccepted(n: nat, scale: nat, input: Text)
    requires n < Pow10(9)
    ensures CashMatches(FormatMajor(n * Pow10(scale), scale), n * Pow10(scale), scale)
    ensures Spells(input, Digits(n)) ==> CashMatches(input, n * Pow10(scale), scale)
  {
    DivUnique(n * Pow10(scale), Pow10(scale), n, 0);
    NineDigits(n);
    ValueOfDigits(n);
    GroupedSpells(Digits(n));
    SpellsIffReads(input, Digits(n));
  }

  /** A total with a fraction is never accepted: cash is whole units. */
  lemma FractionIsRefused(input: Text, units: nat, scale: nat)
    requires Remainder(units, Pow10(scale)) != 0
    ensures !CashMatches(input, units, scale)
  {
    if CashMatches(input, units, scale) {
      DivUnique(units, Pow10(scale), Value(DigitValue(input)), 0);
      assert false;
    }
  }
}
