/** Deterministic JSON text of billing's request fingerprints. */
module CanonicalJson {
  import opened Text

  /** A JavaScript number: a finite double is mantissa * 2^exponent in lowest terms. */
  datatype Number = NotANumber | Infinite(negative: bool) | NegativeZero | Finite(mantissa: int, exponent: int)

  /** `Unsupported` stands for functions, symbols and big integers. */
  datatype Json =
    | Null
    | Bool(b: bool)
    | Num(n: Number)
    | Str(s: Text)
    | Arr(items: seq<Json>)
    | Obj(entries: seq<Entry>)
    | Undefined
    | Unsupported

  datatype Entry = Entry(key: Text, value: Json)

  datatype Error = NON_FINITE_NUMBER | UNSUPPORTED_JSON_VALUE

  datatype Result = Ok(text: Text) | Fail(error: Error)

  // ------------------------------------------------------------ string tokens

  const QUOTE: CodeUnit := 34
  const BACKSLASH: CodeUnit := 92

  predicate Lead(c: CodeUnit) { 0xD800 <= c <= 0xDBFF }
  predicate Trail(c: CodeUnit) { 0xDC00 <= c <= 0xDFFF }

  function HexDigit(d: int): CodeUnit
    requires 0 <= d < 16
  {
    if d < 10 then 48 + d else 87 + d
  }

  function Hex4(c: CodeUnit): Text {
    [HexDigit(c / 4096), HexDigit(c / 256 % 16), HexDigit(c / 16 % 16), HexDigit(c % 16)]
  }

  /** One code unit inside a JSON string; a surrogate stays raw only as half of a pair. */
  function Encoded(c: CodeUnit, paired: bool): Text {
    if c == QUOTE || c == BACKSLASH then [BACKSLASH, c]
    else if c == 8 then [BACKSLASH, 98]
    else if c == 9 then [BACKSLASH, 116]
    else if c == 10 then [BACKSLASH, 110]
    else if c == 12 then [BACKSLASH, 102]
    else if c == 13 then [BACKSLASH, 114]
    else if c < 32 || ((Lead(c) || Trail(c)) && !paired) then [BACKSLASH, 117] + Hex4(c)
    else [c]
  }

  /** `second` says that the first unit of `s` is the trailing half of a pair. */
  function Escape(s: Text, second: bool): Text {
    if s == [] then []
    else
      var first := !second && Lead(s[0]) && |s| > 1 && Trail(s[1]);
      Encoded(s[0], first || second) + Escape(s[1..], first)
  }

  /** `JSON.stringify` of a string. */
  function Quoted(s: Text): Text {
    [QUOTE] + Escape(s, false) + [QUOTE]
  }

  // ------------------------------------------------------------ key order

  /** Code-unit order of strings, as `<` compares them. */
  predicate Before(a: Text, b: Text)
    decreases a
  {
    b != [] && (a == [] || a[0] < b[0] || (a[0] == b[0] && Before(a[1..], b[1..])))
  }

  predicate Ordered(es: seq<Entry>) {
    forall i, j :: 0 <= i < j < |es| ==> Before(es[i].key, es[j].key)
  }

  function Size(v: Json): (n: nat)
    ensures n >= 1
    decreases v, 0
  {
    match v
    case Arr(items) => 1 + SizeItems(items)
    case Obj(entries) => 1 + SizeEntries(entries)
    case _ => 1
  }

  function SizeItems(items: seq<Json>): nat
    decreases items, 1
  {
    if items == [] then 0 else Size(items[0]) + SizeItems(items[1..])
  }

  function SizeEntries(es: seq<Entry>): nat
    decreases es, 1
  {
    if es == [] then 0 else Size(es[0].value) + SizeEntries(es[1..])
  }

  /** `filter(([, entry]) => entry !== undefined)`. */
  function Present(es: seq<Entry>): (r: seq<Entry>)
    ensures SizeEntries(r) <= SizeEntries(es)
    ensures forall e :: e in r <==> e in es && e.value != Undefined
  {
    if es == [] then []
    else
      assert forall e :: e in es <==> e == es[0] || e in es[1..];
      if es[0].value == Undefined then Present(es[1..])
      else
        var r := [es[0]] + Present(es[1..]);
        assert r[1..] == Present(es[1..]);
        r
  }

  function Insert(e: Entry, es: seq<Entry>): (r: seq<Entry>)
    ensures SizeEntries(r) == Size(e.value) + SizeEntries(es)
    ensures forall f :: f in r <==> f == e || f in es
  {
    if es == [] || !Before(es[0].key, e.key) then
      var r := [e] + es;
      assert r[1..] == es;
      r
    else
      var r := [es[0]] + Insert(e, es[1..]);
      assert r[1..] == Insert(e, es[1..]);
      assert forall f :: f in es <==> f == es[0] || f in es[1..];
      r
  }

  /** `sort` by key. */
  function SortByKey(es: seq<Entry>): (r: seq<Entry>)
    ensures SizeEntries(r) == SizeEntries(es)
    ensures forall e :: e in r <==> e in es
  {
    if es == [] then []
    else
      assert forall e :: e in es <==> e == es[0] || e in es[1..];
      Insert(es[0], SortByKey(es[1..]))
  }

  // ------------------------------------------------------------ the printer

  /** How the runtime prints a finite number; see `NumberPrinter` for what is known of it. */
  type Show = (int, int) -> Text

  function Print(show: Show, v: Json): Result
    decreases Size(v), 1
  {
    match v
    case Null => Ok([110, 117, 108, 108])
    case Bool(b) => Ok(if b then [116, 114, 117, 101] else [102, 97, 108, 115, 101])
    case Str(s) => Ok(Quoted(s))
    case Num(n) =>
      (match n
       case NegativeZero => Ok(show(0, 0))
       case Finite(m, e) => Ok(show(m, e))
       case _ => Fail(NON_FINITE_NUMBER))
    case Arr(items) =>
      var r := PrintItems(show, items);
      if r.Fail? then r else Ok([91] + r.text + [93])
    case Obj(entries) =>
      var r := PrintEntries(show, SortByKey(Present(entries)));
      if r.Fail? then r else Ok([123] + r.text + [125])
    case Undefined => Fail(UNSUPPORTED_JSON_VALUE)
    case Unsupported => Fail(UNSUPPORTED_JSON_VALUE)
  }

  /** Items joined by commas; the first item that cannot be printed decides the error. */
  function PrintItems(show: Show, items: seq<Json>): Result
    decreases SizeItems(items), 2
  {
    if items == [] then Ok([])
    else
      var h := Print(show, items[0]);
      var t := PrintItems(show, items[1..]);
      if h.Fail? then h
      else if t.Fail? then t
      else if |items| == 1 then h
      else Ok(h.text + [COMMA] + t.text)
  }

  function PrintEntries(show: Show, es: seq<Entry>): Result
    decreases SizeEntries(es), 2
  {
    if es == [] then Ok([])
    else
      var h := Print(show, es[0].value);
      var t := PrintEntries(show, es[1..]);
      if h.Fail? then h
      else if t.Fail? then t
      else if |es| == 1 then Ok(Quoted(es[0].key) + [58] + h.text)
      else Ok(Quoted(es[0].key) + [58] + h.text + [COMMA] + t.text)
  }

  // ------------------------------------------------------------ what the text is about

  /** A JSON value with key order forgotten, undefined entries dropped and -0 read as 0. */
  datatype Value =
    | VNull
    | VBool(b: bool)
    | VNum(mantissa: int, exponent: int)
    | VStr(s: Text)
    | VArr(items: seq<Value>)
    | VObj(entries: map<Text, Value>)
    | VNone

  function Forget(v: Json): Value
    decreases Size(v), 1
  {
    match v
    case Null => VNull
    case Bool(b) => VBool(b)
    case Str(s) => VStr(s)
    case Num(n) => (match n case NegativeZero => VNum(0, 0) case Finite(m, e) => VNum(m, e) case _ => VNone)
    case Arr(items) => VArr(ForgetItems(items))
    case Obj(entries) => VObj(ForgetEntries(Present(entries)))
    case Undefined => VNone
    case Unsupported => VNone
  }

  function ForgetItems(items: seq<Json>): (r: seq<Value>)
    ensures |r| == |items|
    decreases SizeItems(items), 2
  {
    if items == [] then [] else [Forget(items[0])] + ForgetItems(items[1..])
  }

  function ForgetEntries(es: seq<Entry>): map<Text, Value>
    decreases SizeEntries(es), 2
  {
    if es == [] then map[] else ForgetEntries(es[1..])[es[0].key := Forget(es[0].value)]
  }

  predicate DistinctKeys(es: seq<Entry>) {
    forall i, j :: 0 <= i < j < |es| ==> es[i].key != es[j].key
  }

  /** Objects have one entry per key, at every level. */
  predicate UniqueKeys(v: Json)
    decreases v
  {
    match v
    case Arr(items) => forall i :: 0 <= i < |items| ==> UniqueKeys(items[i])
    case Obj(entries) =>
      && DistinctKeys(entries)
      && (forall i :: 0 <= i < |entries| ==> UniqueKeys(entries[i].value))
    case _ => true
  }

  predicate NumberChar(c: CodeUnit) {
    IsDigit(c) || c == 43 || c == 45 || c == 46 || c == 101
  }

  /** Number tokens are nonempty, made of number characters, and tell numbers apart. */
  ghost predicate NumberPrinter(show: Show) {
    && (forall m, e :: show(m, e) != [] && forall i :: 0 <= i < |show(m, e)| ==> NumberChar(show(m, e)[i]))
    && (forall m, e, m', e' :: show(m, e) == show(m', e') ==> m == m' && e == e')
  }
}
