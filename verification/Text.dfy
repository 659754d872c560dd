/** JavaScript text and decimal numerals, shared by every module that prints or reads them. */
module Text {

  /** One UTF-16 code unit; a JavaScript string is a sequence of these. */
  type CodeUnit = x: int | 0 <= x < 0x10000
  type Text = seq<CodeUnit>

  datatype Option<+T> = None | Some(value: T)

  const COMMA: CodeUnit := 44
  const DOT: CodeUnit := 46
  const SPACE: CodeUnit := 32

  predicate IsDigit(c: CodeUnit) {
    48 <= c <= 57
  }

  predicate AllDigits(t: Text) {
    forall i :: 0 <= i < |t| ==> IsDigit(t[i])
  }

  /** The set matched by `\s` and removed by `trim`: white space and line terminators. */
  predicate IsSpace(c: CodeUnit) {
    || 9 <= c <= 13 || c == 32 || c == 0xA0 || c == 0x1680 || 0x2000 <= c <= 0x200A
    || c == 0x2028 || c == 0x2029 || c == 0x202F || c == 0x205F || c == 0x3000 || c == 0xFEFF
  }

  /** Arabic-Indic and Eastern Arabic-Indic digits become Latin digits. */
  function LatinDigit(c: CodeUnit): CodeUnit {
    if 0x660 <= c <= 0x669 then c - 0x660 + 48
    else if 0x6F0 <= c <= 0x6F9 then c - 0x6F0 + 48
    else c
  }

  function TrimStart(t: Text): (r: Text)
    ensures |r| <= |t|
    ensures r == t[|t| - |r|..]
    ensures r != [] ==> !IsSpace(r[0])
    ensures forall i :: 0 <= i < |t| - |r| ==> IsSpace(t[i])
  {
    if t != [] && IsSpace(t[0]) then TrimStart(t[1..]) else t
  }

  function TrimEnd(t: Text): (r: Text)
    ensures |r| <= |t|
    ensures r == t[..|r|]
    ensures r != [] ==> !IsSpace(r[|r| - 1])
    ensures forall i :: |r| <= i < |t| ==> IsSpace(t[i])
  {
    if t != [] && IsSpace(t[|t| - 1]) then TrimEnd(t[..|t| - 1]) else t
  }

  function Trim(t: Text): Text {
    TrimEnd(TrimStart(t))
  }

  /** `slice(0, max)`. */
  function Cap(t: Text, max: nat): (r: Text)
    ensures |r| <= max && r <= t
  {
    if |t| <= max then t else t[..max]
  }

  /** What trimming leaves: no white space at either end, nothing but white space cut off. */
  lemma TrimShape(t: Text)
    ensures |Trim(t)| <= |t|
    ensures Trim(t) != [] ==> !IsSpace(Trim(t)[0]) && !IsSpace(Trim(t)[|Trim(t)| - 1])
    ensures forall i :: 0 <= i < |t| && !IsSpace(t[i]) ==> t[i] in Trim(t)
    ensures forall c :: c in Trim(t) ==> c in t
  {
    var s := TrimStart(t);
    var r := Trim(t);
    forall i | 0 <= i < |t| && !IsSpace(t[i]) ensures t[i] in r {
      var j := i - (|t| - |s|);
      assert s[j] == t[i];
      assert r[j] == s[j];
    }
  }

  /** Text with no white space at either end is a fixpoint of trimming. */
  lemma TrimFixpoint(t: Text)
    requires t != [] ==> !IsSpace(t[0]) && !IsSpace(t[|t| - 1])
    ensures Trim(t) == t
  {
  }

  lemma TrimIdempotent(t: Text)
    ensures Trim(Trim(t)) == Trim(t)
  {
    TrimShape(t);
    TrimFixpoint(Trim(t));
  }
}

module Decimal {
  import opened Text

  function Pow10(n: nat): (p: nat)
    ensures p > 0
  {
    if n == 0 then 1 else 10 * Pow10(n - 1)
  }

  lemma {:induction false} Pow10Add(a: nat, b: nat)
    ensures Pow10(a + b) == Pow10(a) * Pow10(b)
  {
    if a > 0 {
      Pow10Add(a - 1, b);
      assert Pow10(a + b) == 10 * Pow10(a - 1 + b);
    }
  }

  /** The number a digit string denotes; leading zeros are allowed. */
  function Value(t: Text): (v: nat)
    requires AllDigits(t)
  {
    if t == [] then 0 else Value(t[..|t| - 1]) * 10 + (t[|t| - 1] - 48)
  }

  /** `String(n)` for a non-negative integer. */
  function Digits(n: nat): (t: Text)
    ensures t != [] && AllDigits(t)
    decreases n
  {
    if n < 10 then [48 + n] else Digits(n / 10) + [48 + n % 10]
  }

  predicate Canonical(t: Text) {
    t != [] && AllDigits(t) && (|t| > 1 ==> t[0] != 48)
  }

  lemma {:induction false} ValueOfDigits(n: nat)
    ensures Value(Digits(n)) == n && Canonical(Digits(n))
    decreases n
  {
    if n >= 10 {
      ValueOfDigits(n / 10);
      var t := Digits(n);
      assert t[..|t| - 1] == Digits(n / 10);
      if n < 100 { assert Digits(n / 10) == [48 + n / 10]; }
    }
  }

  lemma DigitsInjective(m: nat, n: nat)
    requires Digits(m) == Digits(n)
    ensures m == n
  {
    ValueOfDigits(m);
    ValueOfDigits(n);
  }

  lemma {:induction false} ValueConcat(a: Text, b: Text)
    requires AllDigits(a) && AllDigits(b)
    ensures AllDigits(a + b) && Value(a + b) == Value(a) * Pow10(|b|) + Value(b)
  {
    if b == [] {
      assert a + b == a;
    } else {
      var b' := b[..|b| - 1];
      var c := b[|b| - 1] - 48;
      assert (a + b)[..|a + b| - 1] == a + b';
      ValueConcat(a, b');
      assert Pow10(|b|) == 10 * Pow10(|b'|);
      ShiftDigit(Value(a), Pow10(|b'|), Value(b'), c);
    }
  }

  lemma ShiftDigit(x: int, p: int, y: int, c: int)
    ensures (x * p + y) * 10 + c == x * (10 * p) + (y * 10 + c)
  {
  }

  lemma {:induction false} ValueBound(t: Text)
    requires AllDigits(t)
    ensures Value(t) < Pow10(|t|)
  {
    if t != [] {
      ValueBound(t[..|t| - 1]);
    }
  }

  lemma {:induction false} ValuePositive(t: Text)
    requires AllDigits(t) && t != [] && t[0] != 48
    ensures Value(t) > 0
  {
    if |t| > 1 {
      ValuePositive(t[..|t| - 1]);
    }
  }

  /** A numeral without leading zeros is the printing of its value. */
  lemma {:induction false} DigitsOfValue(t: Text)
    requires Canonical(t)
    ensures Digits(Value(t)) == t
  {
    if |t| == 1 {
      assert t[..0] == [];
      assert t == [t[0]];
    } else {
      var t' := t[..|t| - 1];
      ValuePositive(t');
      DigitsOfValue(t');
      assert t == t' + [t[|t| - 1]];
    }
  }

  function Zeros(n: nat): (t: Text)
    ensures |t| == n && AllDigits(t) && forall i :: 0 <= i < n ==> t[i] == 48
  {
    seq(n, _ => 48)
  }

  lemma {:induction false} ValueZeros(n: nat)
    ensures Value(Zeros(n)) == 0
  {
    if n > 0 {
      ValueZeros(n - 1);
      assert Zeros(n)[..n - 1] == Zeros(n - 1);
    }
  }

  /** `replace(/^0+(?=\d)/, '')`: drops leading zeros but never the last digit. */
  function StripZeros(t: Text): (r: Text)
    requires AllDigits(t)
    ensures AllDigits(r)
  {
    if |t| > 1 && t[0] == 48 then StripZeros(t[1..]) else t
  }

  lemma {:induction false} StripZerosValue(t: Text)
    requires AllDigits(t)
    ensures Value(StripZeros(t)) == Value(t)
    ensures t != [] ==> Canonical(StripZeros(t))
  {
    if |t| > 1 && t[0] == 48 {
      StripZerosValue(t[1..]);
      assert t == [t[0]] + t[1..];
      ValueConcat([t[0]], t[1..]);
      assert [t[0]][..0] == [];
    }
  }

  // Division by a power of ten, kept apart from everything else.

  function Quotient(a: nat, p: nat): (q: nat)
    requires p > 0
  {
    a / p
  }

  function Remainder(a: nat, p: nat): (r: nat)
    requires p > 0
    ensures r < p
  {
    a % p
  }

  lemma DivParts(a: nat, p: nat)
    requires p > 0
    ensures a == Quotient(a, p) * p + Remainder(a, p)
  {
  }

  lemma MulAtLeast(k: int, p: nat)
    requires k >= 1
    ensures k * p >= p
  {
    assert k * p == (k - 1) * p + p;
  }

  lemma DivUnique(a: nat, p: nat, q: nat, r: nat)
    requires p > 0 && a == q * p + r && r < p
    ensures Quotient(a, p) == q && Remainder(a, p) == r
  {
    var d := a / p - q;
    assert a == a / p * p + a % p;
    assert d * p == a / p * p - q * p;
    assert (-d) * p == -(d * p);
    if d >= 1 { MulAtLeast(d, p); }
    if -d >= 1 { MulAtLeast(-d, p); }
  }
}
