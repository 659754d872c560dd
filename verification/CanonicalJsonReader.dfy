/**
 * A reader of JSON text after RFC 8259, without insignificant white space, and the proof
 * that it gets every printed value back, with the keys of each object in ascending order.
 */
module CanonicalJsonReader {
  import opened Text
  import opened CanonicalJson
  import opened CanonicalJsonProofs

  /** A document as it stands in the text: members in the order in which they are met. */
  datatype Doc =
    | DNull
    | DBool(b: bool)
    | DNum(mantissa: int, exponent: int)
    | DStr(s: Text)
    | DArr(items: seq<Doc>)
    | DObj(members: seq<Member>)

  datatype Member = Member(key: Text, value: Doc)

  /** Something read off the front of a text, and the rest of it. */
  datatype Read<T> = Got(value: T, rest: Text) | Bad

  /** How number tokens are read. */
  type Numbers = Text -> Option<(int, int)>

  predicate Starts(t: Text, word: Text) {
    |word| <= |t| && t[..|word|] == word
  }

  const NULL: Text := [110, 117, 108, 108]
  const TRUE: Text := [116, 114, 117, 101]
  const FALSE: Text := [102, 97, 108, 115, 101]

  function HexDigitValue(c: CodeUnit): (r: Option<int>)
    ensures r.Some? ==> 0 <= r.value < 16
  {
    if 48 <= c <= 57 then Some(c - 48)
    else if 97 <= c <= 102 then Some(c - 87)
    else if 65 <= c <= 70 then Some(c - 55)
    else None
  }

  /** The four hexadecimal digits after `\u`, section 7. */
  function ReadHex(t: Text): (r: Read<CodeUnit>)
    ensures r.Got? ==> |t| >= 4 && r.rest == t[4..]
  {
    if |t| < 4 then Bad
    else
      var a, b, c, d := HexDigitValue(t[0]), HexDigitValue(t[1]), HexDigitValue(t[2]), HexDigitValue(t[3]);
      if a.None? || b.None? || c.None? || d.None? then Bad
      else Got(a.value * 4096 + b.value * 256 + c.value * 16 + d.value, t[4..])
  }

  /** The character that a two-character escape stands for, section 7. */
  function ShortEscape(c: CodeUnit): Option<CodeUnit> {
    if c == QUOTE || c == BACKSLASH || c == 47 then Some(c)
    else if c == 98 then Some(8)
    else if c == 102 then Some(12)
    else if c == 110 then Some(10)
    else if c == 114 then Some(13)
    else if c == 116 then Some(9)
    else None
  }

  /** One character of a string, escaped or not. */
  function ReadUnit(t: Text): (r: Read<CodeUnit>)
    ensures r.Got? ==> |r.rest| < |t|
  {
    if t == [] || t[0] == QUOTE || t[0] < 32 then Bad
    else if t[0] != BACKSLASH then Got(t[0], t[1..])
    else if |t| == 1 then Bad
    else if t[1] == 117 then ReadHex(t[2..])
    else if ShortEscape(t[1]).Some? then Got(ShortEscape(t[1]).value, t[2..])
    else Bad
  }

  /** The rest of a string after its opening quote. */
  function ReadChars(t: Text): (r: Read<Text>)
    ensures r.Got? ==> |r.rest| < |t|
    decreases |t|
  {
    if t != [] && t[0] == QUOTE then Got([], t[1..])
    else
      var c := ReadUnit(t);
      if c.Bad? then Bad
      else
        var s := ReadChars(c.rest);
        if s.Bad? then Bad else Got([c.value] + s.value, s.rest)
  }

  function ReadString(t: Text): (r: Read<Text>)
    ensures r.Got? ==> |r.rest| < |t|
  {
    if t == [] || t[0] != QUOTE then Bad else ReadChars(t[1..])
  }

  /** The longest run of number characters at the front. */
  function NumberLength(t: Text): (n: nat)
    ensures n <= |t|
  {
    if t == [] || !NumberChar(t[0]) then 0 else 1 + NumberLength(t[1..])
  }

  function ReadNumber(num: Numbers, t: Text): (r: Read<Doc>)
    ensures r.Got? ==> |r.rest| < |t|
  {
    var n := NumberLength(t);
    if n == 0 || num(t[..n]).None? then Bad
    else Got(DNum(num(t[..n]).value.0, num(t[..n]).value.1), t[n..])
  }

  function ReadValue(num: Numbers, t: Text): (r: Read<Doc>)
    ensures r.Got? ==> |r.rest| < |t|
    decreases |t|, 0
  {
    if t == [] then Bad
    else if t[0] == QUOTE then
      var s := ReadString(t);
      if s.Bad? then Bad else Got(DStr(s.value), s.rest)
    else if t[0] == 91 then
      if |t| > 1 && t[1] == 93 then Got(DArr([]), t[2..])
      else
        var xs := ReadItems(num, t[1..]);
        if xs.Bad? then Bad else Got(DArr(xs.value), xs.rest)
    else if t[0] == 123 then
      if |t| > 1 && t[1] == 125 then Got(DObj([]), t[2..])
      else
        var ms := ReadMembers(num, t[1..]);
        if ms.Bad? then Bad else Got(DObj(ms.value), ms.rest)
    else if Starts(t, NULL) then Got(DNull, t[4..])
    else if Starts(t, TRUE) then Got(DBool(true), t[4..])
    else if Starts(t, FALSE) then Got(DBool(false), t[5..])
    else ReadNumber(num, t)
  }

  /** One item or more, up to the closing bracket. */
  function ReadItems(num: Numbers, t: Text): (r: Read<seq<Doc>>)
    ensures r.Got? ==> |r.rest| < |t|
    decreases |t|, 1
  {
    var d := ReadValue(num, t);
    if d.Bad? || d.rest == [] then Bad
    else if d.rest[0] == 93 then Got([d.value], d.rest[1..])
    else if d.rest[0] != COMMA then Bad
    else
      var ds := ReadItems(num, d.rest[1..]);
      if ds.Bad? then Bad else Got([d.value] + ds.value, ds.rest)
  }

  /** One member or more, up to the closing brace. */
  function ReadMembers(num: Numbers, t: Text): (r: Read<seq<Member>>)
    ensures r.Got? ==> |r.rest| < |t|
    decreases |t|, 1
  {
    var k := ReadString(t);
    if k.Bad? || k.rest == [] || k.rest[0] != 58 then Bad
    else
      var d := ReadValue(num, k.rest[1..]);
      if d.Bad? || d.rest == [] then Bad
      else if d.rest[0] == 125 then Got([Member(k.value, d.value)], d.rest[1..])
      else if d.rest[0] != COMMA then Bad
      else
        var ms := ReadMembers(num, d.rest[1..]);
        if ms.Bad? then Bad else Got([Member(k.value, d.value)] + ms.value, ms.rest)
  }

  /** A whole text is one value. */
  function ReadText(num: Numbers, t: Text): Option<Doc> {
    var r := ReadValue(num, t);
    if r.Got? && r.rest == [] then Some(r.value) else None
  }

  // ------------------------------------------------------------ what a document says

  function Meaning(d: Doc): Value
    decreases d, 0
  {
    match d
    case DNull => VNull
    case DBool(b) => VBool(b)
    case DNum(m, e) => VNum(m, e)
    case DStr(s) => VStr(s)
    case DArr(items) => VArr(MeaningOfItems(items))
    case DObj(members) => VObj(MeaningOfMembers(members))
  }

  function MeaningOfItems(ds: seq<Doc>): seq<Value>
    decreases ds, 1
  {
    if ds == [] then [] else [Meaning(ds[0])] + MeaningOfItems(ds[1..])
  }

  function MeaningOfMembers(ms: seq<Member>): map<Text, Value>
    decreases ms, 1
  {
    if ms == [] then map[] else MeaningOfMembers(ms[1..])[ms[0].key := Meaning(ms[0].value)]
  }

  /** In every object, at every depth, the keys come in strictly ascending code-unit order. */
  ghost predicate Ascending(d: Doc)
    decreases d
  {
    match d
    case DArr(items) => forall i :: 0 <= i < |items| ==> Ascending(items[i])
    case DObj(members) =>
      && (forall i, j :: 0 <= i < j < |members| ==> Precedes(members[i].key, members[j].key))
      && (forall i :: 0 <= i < |members| ==> Ascending(members[i].value))
    case _ => true
  }

  // ------------------------------------------------------------ strings

  lemma HexReads(c: CodeUnit, x: Text)
    ensures ReadHex(Hex4(c) + x) == Got(c, x)
  {
    var t := Hex4(c) + x;
    assert t[0] == Hex4(c)[0] && t[1] == Hex4(c)[1] && t[2] == Hex4(c)[2] && t[3] == Hex4(c)[3];
    HexValue(c);
    assert t[4..] == x;
  }

  /** An encoded character reads back, whatever follows. */
  lemma UnitReads(c: CodeUnit, paired: bool, x: Text)
    ensures ReadUnit(Encoded(c, paired) + x) == Got(c, x) && (Encoded(c, paired) + x)[0] != QUOTE
  {
    var t := Encoded(c, paired) + x;
    assert t[0] == Encoded(c, paired)[0];
    if |Encoded(c, paired)| == 1 {
      assert t[1..] == x;
    } else {
      assert t[1] == Encoded(c, paired)[1];
      if |Encoded(c, paired)| == 2 {
        assert t[2..] == x;
      } else {
        assert t[2..] == Hex4(c) + x;
        HexReads(c, x);
      }
    }
  }

  lemma {:induction false} CharsRead(s: Text, second: bool, x: Text)
    ensures ReadChars(Escape(s, second) + [QUOTE] + x) == Got(s, x)
    decreases s
  {
    EscapeOpens(s, second, x);
    var t := Escape(s, second) + [QUOTE] + x;
    if s == [] {
      assert t[1..] == x;
    } else {
      var rest := Escape(s[1..], First(s, second)) + [QUOTE] + x;
      UnitReads(s[0], First(s, second) || second, rest);
      CharsRead(s[1..], First(s, second), x);
      assert s == [s[0]] + s[1..];
    }
  }

  lemma StringReads(s: Text, x: Text)
    ensures ReadString(Quoted(s) + x) == Got(s, x) && (Quoted(s) + x)[0] == QUOTE
  {
    var l := Escape(s, false) + [QUOTE] + x;
    assert Quoted(s) + x == [QUOTE] + l;
    assert l == ([QUOTE] + l)[1..];
    CharsRead(s, false, x);
  }

  lemma SpellingLength(c: CodeUnit, spelling: Text)
    requires ReadUnit(spelling) == Got(c, [])
    ensures |spelling| == 1 ==> c >= 32 && c != QUOTE && c != BACKSLASH && spelling[0] == c
    ensures |spelling| == 2 ==> c in {QUOTE, BACKSLASH, 47, 8, 9, 10, 12, 13}
    ensures |spelling| in {1, 2, 6}
  {
    if |spelling| > 2 && spelling[0] == BACKSLASH && spelling[1] == 117 { assert spelling[2..][4..] == spelling[6..]; }
  }

  /**
   * No spelling that the grammar allows for a character is shorter than the printed one,
   * but for a surrogate outside a pair: that one is never left bare. Hexadecimal digits are
   * in lower case.
   */
  lemma ShortestSpelling(c: CodeUnit, paired: bool, spelling: Text)
    requires ReadUnit(spelling) == Got(c, [])
    ensures |Encoded(c, paired)| <= |spelling| || ((Lead(c) || Trail(c)) && !paired && spelling == [c])
    ensures (Lead(c) || Trail(c)) && !paired ==> c !in Encoded(c, paired)
    ensures |Encoded(c, paired)| == 6 ==> forall i :: 2 <= i < 6 ==> IsDigit(Encoded(c, paired)[i]) || 97 <= Encoded(c, paired)[i] <= 102
  {
    SpellingLength(c, spelling);
  }

  // ------------------------------------------------------------ numbers

  /** The reader knows the printer's tokens. */
  ghost predicate KnowsNumbers(show: Show, num: Numbers) {
    forall m, e :: num(show(m, e)) == Some((m, e))
  }

  lemma {:induction false} TokenLength(a: Text, x: Text)
    requires (forall i :: 0 <= i < |a| ==> NumberChar(a[i])) && (x == [] || !NumberChar(x[0]))
    ensures NumberLength(a + x) == |a|
  {
    if a == [] {
      assert a + x == x;
    } else {
      assert (a + x)[1..] == a[1..] + x;
      TokenLength(a[1..], x);
    }
  }

  lemma NumberReads(show: Show, num: Numbers, m: int, e: int, x: Text)
    requires NumberPrinter(show) && KnowsNumbers(show, num) && Delimited(x)
    ensures ReadValue(num, show(m, e) + x) == Got(DNum(m, e), x)
  {
    var a := show(m, e);
    assert a != [] && NumberChar(a[0]);
    TokenLength(a, x);
    assert (a + x)[0] == a[0] && (a + x)[..|a|] == a && (a + x)[|a|..] == x;
    assert forall w: Text :: Starts(a + x, w) && w != [] ==> w[0] == a[0];
    assert num(show(m, e)) == Some((m, e));
  }

  // ------------------------------------------------------------ values

  /** What reading a printed value gives. */
  ghost predicate ReadsAs(num: Numbers, t: Text, x: Text, v: Value, d: Doc) {
    ReadValue(num, t) == Got(d, x) && Meaning(d) == v && Ascending(d)
  }

  lemma WordReads(num: Numbers, w: Text, x: Text)
    requires w == NULL || w == TRUE || w == FALSE
    ensures ReadValue(num, w + x) == Got(if w == NULL then DNull else DBool(w == TRUE), x)
  {
    var t := w + x;
    assert t[0] == w[0] && t[1] == w[1] && t[..|w|] == w && t[|w|..] == x;
    assert Starts(t, NULL) <==> w == NULL by { assert Starts(t, NULL) ==> t[..4][0] == 110; }
    assert Starts(t, TRUE) <==> w == TRUE by { assert Starts(t, TRUE) ==> t[..4][0] == 116; }
  }

  lemma {:induction false} ValueReads(show: Show, num: Numbers, v: Json, x: Text) returns (d: Doc)
    requires NumberPrinter(show) && KnowsNumbers(show, num) && UniqueKeys(v) && Print(show, v).Ok? && Delimited(x)
    ensures ReadsAs(num, Print(show, v).text + x, x, Forget(v), d)
    decreases Size(v), 3
  {
    match v
    case Null =>
      WordReads(num, NULL, x);
      d := DNull;
    case Bool(b) =>
      WordReads(num, if b then TRUE else FALSE, x);
      d := DBool(b);
    case Str(s) =>
      StringReads(s, x);
      d := DStr(s);
    case Num(n) =>
      var (m, e) := NumberToken(n);
      NumberReads(show, num, m, e, x);
      d := DNum(m, e);
    case Arr(items) =>
      d := ArrayReads(show, num, items, x);
    case Obj(entries) =>
      d := ObjectReads(show, num, entries, x);
  }

  lemma {:induction false} ArrayReads(show: Show, num: Numbers, items: seq<Json>, x: Text) returns (d: Doc)
    requires NumberPrinter(show) && KnowsNumbers(show, num) && UniqueKeys(Arr(items)) && Print(show, Arr(items)).Ok?
    ensures ReadsAs(num, Print(show, Arr(items)).text + x, x, Forget(Arr(items)), d)
    decreases Size(Arr(items)), 2
  {
    var l := PrintItems(show, items).text + [93] + x;
    var t := Print(show, Arr(items)).text + x;
    assert t == [91] + l && t[1..] == l;
    ItemsOpen(show, items, x);
    assert t[1] == l[0];
    if items == [] {
      assert t[2..] == x;
      d := DArr([]);
    } else {
      var ds := ItemsRead(show, num, items, x);
      d := DArr(ds);
    }
  }

  lemma {:induction false} ItemsRead(show: Show, num: Numbers, vs: seq<Json>, x: Text) returns (ds: seq<Doc>)
    requires NumberPrinter(show) && KnowsNumbers(show, num) && vs != [] && PrintItems(show, vs).Ok?
    requires forall i :: 0 <= i < |vs| ==> UniqueKeys(vs[i])
    ensures ReadItems(num, PrintItems(show, vs).text + [93] + x) == Got(ds, x)
    ensures MeaningOfItems(ds) == ForgetItems(vs) && forall i :: 0 <= i < |ds| ==> Ascending(ds[i])
    decreases SizeItems(vs), 4
  {
    ItemsOpen(show, vs, x);
    var after := AfterItem(show, vs, x);
    var d := ValueReads(show, num, vs[0], after);
    if |vs| == 1 {
      assert after[1..] == x && vs[1..] == [];
      ds := [d];
      assert ds[1..] == [];
    } else {
      assert after[1..] == PrintItems(show, vs[1..]).text + [93] + x;
      var more := ItemsRead(show, num, vs[1..], x);
      ds := [d] + more;
      assert ds[1..] == more;
    }
  }

  lemma {:induction false} ObjectReads(show: Show, num: Numbers, entries: seq<Entry>, x: Text) returns (d: Doc)
    requires NumberPrinter(show) && KnowsNumbers(show, num) && UniqueKeys(Obj(entries)) && Print(show, Obj(entries)).Ok?
    ensures ReadsAs(num, Print(show, Obj(entries)).text + x, x, Forget(Obj(entries)), d)
    decreases Size(Obj(entries)), 2
  {
    var es := SortByKey(Present(entries));
    EntriesReady(entries);
    ObjectText(show, entries, x);
    d := SortedReads(show, num, es, Print(show, Obj(entries)).text + x, x);
  }

  lemma {:induction false} SortedReads(show: Show, num: Numbers, es: seq<Entry>, t: Text, x: Text) returns (d: Doc)
    requires NumberPrinter(show) && KnowsNumbers(show, num) && PrintEntries(show, es).Ok?
    requires Ordered(es) && forall e :: e in es ==> UniqueKeys(e.value)
    requires t != [] && t[0] == 123 && t[1..] == PrintEntries(show, es).text + [125] + x
    ensures ReadsAs(num, t, x, VObj(ForgetEntries(es)), d)
    decreases SizeEntries(es), 6
  {
    EntriesOpen(show, es, x);
    assert t[1] == t[1..][0];
    if es == [] {
      assert t[2..] == t[1..][1..] == x;
      d := DObj([]);
    } else {
      var ms := MembersRead(show, num, es, x);
      d := DObj(ms);
      MembersAscend(es, ms);
    }
  }

  lemma MembersAscend(es: seq<Entry>, ms: seq<Member>)
    requires Ordered(es) && |ms| == |es| && (forall i :: 0 <= i < |ms| ==> ms[i].key == es[i].key)
    requires forall i :: 0 <= i < |ms| ==> Ascending(ms[i].value)
    ensures Ascending(DObj(ms))
  {
    OrderedAscends(es);
    assert forall i, j :: 0 <= i < j < |ms| ==> Precedes(es[i].key, es[j].key) ==> Precedes(ms[i].key, ms[j].key);
  }

  lemma {:induction false} MembersRead(show: Show, num: Numbers, es: seq<Entry>, x: Text) returns (ms: seq<Member>)
    requires NumberPrinter(show) && KnowsNumbers(show, num) && es != [] && PrintEntries(show, es).Ok?
    requires forall e :: e in es ==> UniqueKeys(e.value)
    ensures ReadMembers(num, PrintEntries(show, es).text + [125] + x) == Got(ms, x)
    ensures MeaningOfMembers(ms) == ForgetEntries(es) && (forall i :: 0 <= i < |ms| ==> Ascending(ms[i].value))
    ensures |ms| == |es| && forall i :: 0 <= i < |ms| ==> ms[i].key == es[i].key
    decreases SizeEntries(es), 5
  {
    var after := AfterEntry(show, es, x);
    var d := FirstMemberReads(show, num, es, x);
    if |es| == 1 {
      assert after[1..] == x && es[1..] == [];
      ms := [Member(es[0].key, d)];
      assert ms[1..] == [];
    } else {
      assert after[1..] == PrintEntries(show, es[1..]).text + [125] + x;
      var more := MembersRead(show, num, es[1..], x);
      ms := [Member(es[0].key, d)] + more;
      MembersCons(Member(es[0].key, d), more);
    }
  }

  lemma MembersCons(m: Member, ms: seq<Member>)
    ensures MeaningOfMembers([m] + ms) == MeaningOfMembers(ms)[m.key := Meaning(m.value)]
  {
    assert ([m] + ms)[1..] == ms;
  }

  /** The key, the colon and the value of the first entry, up to what follows the value. */
  lemma {:induction false} FirstMemberReads(show: Show, num: Numbers, es: seq<Entry>, x: Text) returns (d: Doc)
    requires NumberPrinter(show) && KnowsNumbers(show, num) && es != [] && PrintEntries(show, es).Ok?
    requires forall e :: e in es ==> UniqueKeys(e.value)
    ensures Print(show, es[0].value).Ok? && PrintEntries(show, es[1..]).Ok?
    ensures var value := Print(show, es[0].value).text + AfterEntry(show, es, x);
      && ReadString(PrintEntries(show, es).text + [125] + x) == Got(es[0].key, [58] + value)
      && ([58] + value)[1..] == value
      && ReadsAs(num, value, AfterEntry(show, es, x), Forget(es[0].value), d)
    decreases SizeEntries(es), 4
  {
    EntriesOpen(show, es, x);
    var after := AfterEntry(show, es, x);
    StringReads(es[0].key, [58] + (Print(show, es[0].value).text + after));
    assert es[0] in es;
    d := ValueReads(show, num, es[0].value, after);
  }

  /**
   * Reading what was printed gives the value back, with key order forgotten and undefined
   * entries dropped, and meets the keys of every object in strictly ascending order.
   */
  lemma PrintReads(show: Show, num: Numbers, v: Json)
    requires NumberPrinter(show) && KnowsNumbers(show, num) && UniqueKeys(v) && Print(show, v).Ok?
    ensures
      var read := ReadText(num, Print(show, v).text);
      read.Some? && Meaning(read.value) == Forget(v) && Ascending(read.value)
  {
    var d := ValueReads(show, num, v, []);
    assert Print(show, v).text + [] == Print(show, v).text;
  }
}
