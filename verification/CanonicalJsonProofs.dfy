/** Canonical JSON is injective modulo key order. */
module CanonicalJsonProofs {
  import opened Text
  import opened CanonicalJson
  import Decimal

  lemma Regroup(a: Text, b: Text, c: Text, d: Text)
    ensures a + b + c + d == a + (b + c + d)
  {
  }

  // ------------------------------------------------------------ string tokens are uniquely readable

  lemma HexDigitInjective(x: int, y: int)
    requires 0 <= x < 16 && 0 <= y < 16 && HexDigit(x) == HexDigit(y)
    ensures x == y
  {
  }

  lemma HexInjective(c: CodeUnit, d: CodeUnit)
    requires Hex4(c) == Hex4(d)
    ensures c == d
  {
    assert Hex4(c)[0] == Hex4(d)[0] && Hex4(c)[1] == Hex4(d)[1] && Hex4(c)[2] == Hex4(d)[2] && Hex4(c)[3] == Hex4(d)[3];
    HexDigitInjective(c / 4096, d / 4096);
    HexDigitInjective(c / 256 % 16, d / 256 % 16);
    HexDigitInjective(c / 16 % 16, d / 16 % 16);
    HexDigitInjective(c % 16, d % 16);
    HexValue(c);
    HexValue(d);
  }

  lemma HexValue(c: CodeUnit)
    ensures c == c / 4096 * 4096 + c / 256 % 16 * 256 + c / 16 % 16 * 16 + c % 16
  {
    assert c / 256 == c / 16 / 16 && c / 4096 == c / 256 / 16;
  }

  /** One encoded unit can be read off the front of any text, and never looks like the closing quote. */
  lemma UnitReadable(c: CodeUnit, p: bool, d: CodeUnit, q: bool, x: Text, y: Text)
    requires Encoded(c, p) + x == Encoded(d, q) + y
    ensures c == d && x == y
  {
    var t := Encoded(c, p) + x;
    assert t == Encoded(d, q) + y;
    assert t[0] == Encoded(c, p)[0] == Encoded(d, q)[0];
    if |Encoded(c, p)| > 1 {
      assert t[1] == Encoded(c, p)[1] == Encoded(d, q)[1];
      if |Encoded(c, p)| > 2 {
        assert Hex4(c) == t[2..6] == Hex4(d);
        HexInjective(c, d);
      }
    }
    assert |Encoded(c, p)| == |Encoded(d, q)|;
    assert x == t[|Encoded(c, p)|..] == y;
  }

  function First(s: Text, second: bool): bool
    requires s != []
  {
    !second && Lead(s[0]) && |s| > 1 && Trail(s[1])
  }

  function HeadUnit(s: Text, second: bool): (t: Text)
    requires s != []
    ensures t != [] && t[0] != QUOTE
  {
    Encoded(s[0], First(s, second) || second)
  }

  /** The escaped text opens with its first unit, or with the closing quote exactly when it is over. */
  lemma EscapeOpens(s: Text, p: bool, x: Text)
    ensures (Escape(s, p) + [QUOTE] + x)[0] == QUOTE <==> s == []
    ensures s != [] ==> Escape(s, p) + [QUOTE] + x == HeadUnit(s, p) + (Escape(s[1..], First(s, p)) + [QUOTE] + x)
  {
    if s != [] {
      Regroup(HeadUnit(s, p), Escape(s[1..], First(s, p)), [QUOTE], x);
      assert Escape(s, p) == HeadUnit(s, p) + Escape(s[1..], First(s, p));
      assert (HeadUnit(s, p) + (Escape(s[1..], First(s, p)) + [QUOTE] + x))[0] == HeadUnit(s, p)[0];
    }
  }

  lemma {:induction false} EscapeReadable(s: Text, p: bool, t: Text, q: bool, x: Text, y: Text)
    requires Escape(s, p) + [QUOTE] + x == Escape(t, q) + [QUOTE] + y
    ensures s == t && x == y
    decreases s
  {
    EscapeOpens(s, p, x);
    EscapeOpens(t, q, y);
    if s == [] {
      assert x == (Escape(s, p) + [QUOTE] + x)[1..];
      assert y == (Escape(t, q) + [QUOTE] + y)[1..];
    } else {
      var xs, ys := Escape(s[1..], First(s, p)) + [QUOTE] + x, Escape(t[1..], First(t, q)) + [QUOTE] + y;
      UnitReadable(s[0], First(s, p) || p, t[0], First(t, q) || q, xs, ys);
      EscapeReadable(s[1..], First(s, p), t[1..], First(t, q), x, y);
      assert s == [s[0]] + s[1..] && t == [t[0]] + t[1..];
    }
  }

  /** A string token followed by anything determines the string and what follows. */
  lemma QuotedReadable(s: Text, t: Text, x: Text, y: Text)
    requires Quoted(s) + x == Quoted(t) + y
    ensures s == t && x == y
  {
    var l, r := Escape(s, false) + [QUOTE] + x, Escape(t, false) + [QUOTE] + y;
    assert Quoted(s) + x == [QUOTE] + l && Quoted(t) + y == [QUOTE] + r;
    assert l == ([QUOTE] + l)[1..] && r == ([QUOTE] + r)[1..];
    EscapeReadable(s, false, t, false, x, y);
  }

  // ------------------------------------------------------------ number tokens

  /** What may follow a value inside a document: nothing, a comma, or a closing bracket. */
  predicate Delimited(x: Text) {
    x == [] || x[0] == COMMA || x[0] == 93 || x[0] == 125
  }

  lemma TokenReadable(a: Text, b: Text, x: Text, y: Text)
    requires forall i :: 0 <= i < |a| ==> NumberChar(a[i])
    requires forall i :: 0 <= i < |b| ==> NumberChar(b[i])
    requires Delimited(x) && Delimited(y) && a + x == b + y
    ensures a == b && x == y
  {
    var t := a + x;
    assert forall i :: 0 <= i < |a| ==> t[i] == a[i];
    assert forall i :: 0 <= i < |b| ==> t[i] == b[i];
    assert |a| < |t| ==> t[|a|] == x[0] && !NumberChar(t[|a|]);
    assert |b| < |t| ==> t[|b|] == y[0] && !NumberChar(t[|b|]);
    assert |a| == |b|;
    assert a == t[..|a|] && b == t[..|b|] && x == t[|a|..] && y == t[|b|..];
  }

  // ------------------------------------------------------------ values are uniquely readable

  /** The first character tells the kind of value. */
  function Opens(v: Json): CodeUnit {
    match v
    case Null => 110
    case Bool(b) => if b then 116 else 102
    case Str(_) => QUOTE
    case Arr(_) => 91
    case Obj(_) => 123
    case _ => 48
  }

  lemma Head(show: Show, v: Json)
    requires NumberPrinter(show) && Print(show, v).Ok?
    ensures Print(show, v).text != []
    ensures if v.Num? then NumberChar(Print(show, v).text[0]) else Print(show, v).text[0] == Opens(v)
  {
  }

  function NumberToken(n: Number): (int, int) {
    if n.Finite? then (n.mantissa, n.exponent) else (0, 0)
  }

  lemma ReadableNumber(show: Show, m: Number, n: Number, x: Text, y: Text)
    requires NumberPrinter(show) && Print(show, Num(m)).Ok? && Print(show, Num(n)).Ok?
    requires Delimited(x) && Delimited(y) && Print(show, Num(m)).text + x == Print(show, Num(n)).text + y
    ensures Forget(Num(m)) == Forget(Num(n)) && x == y
  {
    var (a, b) := NumberToken(m);
    var (c, d) := NumberToken(n);
    assert Print(show, Num(m)).text == show(a, b) && Print(show, Num(n)).text == show(c, d);
    TokenReadable(show(a, b), show(c, d), x, y);
  }

  lemma {:induction false} Readable(show: Show, v: Json, w: Json, x: Text, y: Text)
    requires NumberPrinter(show) && Print(show, v).Ok? && Print(show, w).Ok?
    requires Delimited(x) && Delimited(y) && Print(show, v).text + x == Print(show, w).text + y
    ensures Forget(v) == Forget(w) && x == y
    decreases Size(v), 3
  {
    var a, b := Print(show, v).text, Print(show, w).text;
    var t := a + x;
    assert t == b + y;
    Head(show, v);
    Head(show, w);
    assert t[0] == a[0] && t[0] == b[0];
    match v
    case Num(n) =>
      ReadableNumber(show, n, w.n, x, y);
    case Str(s) =>
      QuotedReadable(s, w.s, x, y);
    case Arr(items) =>
      ReadableArray(show, items, w.items, x, y);
    case Obj(entries) =>
      ReadableObject(show, entries, w.entries, x, y);
    case Null =>
      assert x == t[4..] && y == t[4..];
    case Bool(c) =>
      assert |a| == |b| && x == t[|a|..] && y == t[|b|..];
    case Undefined =>
    case Unsupported =>
  }

  lemma {:induction false} ReadableArray(show: Show, vs: seq<Json>, ws: seq<Json>, x: Text, y: Text)
    requires NumberPrinter(show) && PrintItems(show, vs).Ok? && PrintItems(show, ws).Ok?
    requires Print(show, Arr(vs)).text + x == Print(show, Arr(ws)).text + y
    ensures Forget(Arr(vs)) == Forget(Arr(ws)) && x == y
    decreases Size(Arr(vs)), 2
  {
    var l, r := PrintItems(show, vs).text + [93] + x, PrintItems(show, ws).text + [93] + y;
    assert Print(show, Arr(vs)).text + x == [91] + l && Print(show, Arr(ws)).text + y == [91] + r;
    assert l == ([91] + l)[1..] && r == ([91] + r)[1..];
    ReadableItems(show, vs, ws, x, y);
  }

  lemma ObjectText(show: Show, vs: seq<Entry>, x: Text)
    requires Print(show, Obj(vs)).Ok?
    ensures var p := PrintEntries(show, SortByKey(Present(vs))); p.Ok? && p.text + [125] + x == (Print(show, Obj(vs)).text + x)[1..]
  {
    var p := PrintEntries(show, SortByKey(Present(vs))).text;
    Regroup([123], p, [125], x);
    assert p + [125] + x == ([123] + (p + [125] + x))[1..];
  }

  lemma {:induction false} ReadableObject(show: Show, vs: seq<Entry>, ws: seq<Entry>, x: Text, y: Text)
    requires NumberPrinter(show) && Print(show, Obj(vs)).Ok? && Print(show, Obj(ws)).Ok?
    requires Print(show, Obj(vs)).text + x == Print(show, Obj(ws)).text + y
    ensures Forget(Obj(vs)) == Forget(Obj(ws)) && x == y
    decreases Size(Obj(vs)), 2
  {
    var es, fs := SortByKey(Present(vs)), SortByKey(Present(ws));
    ObjectText(show, vs, x);
    ObjectText(show, ws, y);
    ReadableEntries(show, es, fs, x, y);
    SortKeepsMeaning(Present(vs));
    SortKeepsMeaning(Present(ws));
  }

  /** What follows the first item: the closing bracket, or a comma and the rest. */
  function AfterItem(show: Show, vs: seq<Json>, x: Text): Text
    requires vs != [] && PrintItems(show, vs).Ok?
  {
    if |vs| == 1 then [93] + x else [COMMA] + (PrintItems(show, vs[1..]).text + [93] + x)
  }

  lemma ItemsOpen(show: Show, vs: seq<Json>, x: Text)
    requires NumberPrinter(show) && PrintItems(show, vs).Ok?
    ensures (PrintItems(show, vs).text + [93] + x)[0] == 93 <==> vs == []
    ensures vs != [] ==> Print(show, vs[0]).Ok? && PrintItems(show, vs[1..]).Ok?
    ensures vs != [] ==> PrintItems(show, vs).text + [93] + x == Print(show, vs[0]).text + AfterItem(show, vs, x)
  {
    if vs != [] {
      Head(show, vs[0]);
      var h := Print(show, vs[0]).text;
      var after := AfterItem(show, vs, x);
      if |vs| > 1 {
        var t := PrintItems(show, vs[1..]).text;
        Regroup(h + [COMMA], t, [93], x);
        Regroup(h, [COMMA], [], t + [93] + x);
        assert [COMMA] + [] == [COMMA] && h + [COMMA] + [] == h + [COMMA];
      } else {
        Regroup(h, [], [93], x);
        assert h + [] == h && [] + [93] == [93];
      }
      assert (h + after)[0] == h[0];
    }
  }

  lemma {:induction false} ReadableItems(show: Show, vs: seq<Json>, ws: seq<Json>, x: Text, y: Text)
    requires NumberPrinter(show) && PrintItems(show, vs).Ok? && PrintItems(show, ws).Ok?
    requires PrintItems(show, vs).text + [93] + x == PrintItems(show, ws).text + [93] + y
    ensures ForgetItems(vs) == ForgetItems(ws) && x == y
    decreases SizeItems(vs), 4
  {
    ItemsOpen(show, vs, x);
    ItemsOpen(show, ws, y);
    if vs == [] {
      assert x == (PrintItems(show, vs).text + [93] + x)[1..];
      assert y == (PrintItems(show, ws).text + [93] + y)[1..];
    } else {
      var l, r := AfterItem(show, vs, x), AfterItem(show, ws, y);
      Readable(show, vs[0], ws[0], l, r);
      assert l[0] == r[0];
      if |vs| == 1 {
        assert x == l[1..] && y == r[1..];
        assert vs[1..] == [] && ws[1..] == [];
      } else {
        var l', r' := PrintItems(show, vs[1..]).text + [93] + x, PrintItems(show, ws[1..]).text + [93] + y;
        assert l' == l[1..] && r' == r[1..];
        ReadableItems(show, vs[1..], ws[1..], x, y);
      }
    }
  }

  function AfterEntry(show: Show, es: seq<Entry>, x: Text): Text
    requires es != [] && PrintEntries(show, es).Ok?
  {
    if |es| == 1 then [125] + x else [COMMA] + (PrintEntries(show, es[1..]).text + [125] + x)
  }

  lemma EntriesOpen(show: Show, es: seq<Entry>, x: Text)
    requires NumberPrinter(show) && PrintEntries(show, es).Ok?
    ensures (PrintEntries(show, es).text + [125] + x)[0] == 125 <==> es == []
    ensures es != [] ==> Print(show, es[0].value).Ok? && PrintEntries(show, es[1..]).Ok?
    ensures es != [] ==>
      PrintEntries(show, es).text + [125] + x == Quoted(es[0].key) + ([58] + (Print(show, es[0].value).text + AfterEntry(show, es, x)))
  {
    if es != [] {
      var k, h := Quoted(es[0].key), Print(show, es[0].value).text;
      var after := AfterEntry(show, es, x);
      assert PrintEntries(show, es).text + [125] + x == (k + [58] + h) + after by {
        if |es| > 1 {
          var t := PrintEntries(show, es[1..]).text;
          Regroup(k + [58] + h + [COMMA], t, [125], x);
          Regroup(k + [58] + h, [COMMA], [], t + [125] + x);
          assert [COMMA] + [] == [COMMA] && k + [58] + h + [COMMA] + [] == k + [58] + h + [COMMA];
        } else {
          Regroup(k + [58] + h, [], [125], x);
          assert k + [58] + h + [] == k + [58] + h && [] + [125] == [125];
        }
      }
      Regroup(k, [58], h, after);
      Regroup([58], h, [], after);
      assert h + [] == h && [58] + h + [] == [58] + h;
      assert (k + ([58] + (h + after)))[0] == k[0];
    }
  }

  lemma {:induction false} ReadableEntries(show: Show, es: seq<Entry>, fs: seq<Entry>, x: Text, y: Text)
    requires NumberPrinter(show) && PrintEntries(show, es).Ok? && PrintEntries(show, fs).Ok?
    requires PrintEntries(show, es).text + [125] + x == PrintEntries(show, fs).text + [125] + y
    ensures ForgetEntries(es) == ForgetEntries(fs) && x == y
    decreases SizeEntries(es), 4
  {
    EntriesOpen(show, es, x);
    EntriesOpen(show, fs, y);
    if es == [] {
      assert x == (PrintEntries(show, es).text + [125] + x)[1..];
      assert y == (PrintEntries(show, fs).text + [125] + y)[1..];
    } else {
      var l, r := AfterEntry(show, es, x), AfterEntry(show, fs, y);
      var lv, rv := Print(show, es[0].value).text + l, Print(show, fs[0].value).text + r;
      QuotedReadable(es[0].key, fs[0].key, [58] + lv, [58] + rv);
      assert lv == ([58] + lv)[1..] && rv == ([58] + rv)[1..];
      Readable(show, es[0].value, fs[0].value, l, r);
      assert l[0] == r[0];
      if |es| == 1 {
        assert x == l[1..] && y == r[1..];
        assert es[1..] == [] && fs[1..] == [];
      } else {
        var l', r' := PrintEntries(show, es[1..]).text + [125] + x, PrintEntries(show, fs[1..]).text + [125] + y;
        assert l' == l[1..] && r' == r[1..];
        ReadableEntries(show, es[1..], fs[1..], x, y);
      }
    }
  }

  // ------------------------------------------------------------ sorting

  lemma {:induction false} BeforeIsStrictOrder(a: Text, b: Text, c: Text)
    ensures !Before(a, a)
    ensures Before(a, b) && Before(b, c) ==> Before(a, c)
    ensures a == b || Before(a, b) || Before(b, a)
    decreases a, b
  {
    if a != [] {
      BeforeIsStrictOrder(a[1..], if b == [] then [] else b[1..], if c == [] then [] else c[1..]);
      if b != [] && a[0] == b[0] && a[1..] == b[1..] { assert a == [a[0]] + a[1..] && b == [b[0]] + b[1..]; }
    }
  }

  /** `a < b` of ECMAScript strings: `b` goes on where `a` ends, or has the greater unit where they first differ. */
  ghost predicate Precedes(a: Text, b: Text) {
    exists k: nat :: FirstDifference(a, b, k)
  }

  predicate FirstDifference(a: Text, b: Text, k: nat) {
    && k <= |a| && k < |b| && a[..k] == b[..k]
    && (k < |a| ==> a[k] < b[k])
  }

  lemma {:induction false} BeforeIff(a: Text, b: Text)
    ensures Before(a, b) <==> Precedes(a, b)
    decreases a
  {
    if a == [] {
      if b != [] { assert FirstDifference(a, b, 0); }
    } else if b != [] {
      BeforeIff(a[1..], b[1..]);
      if Before(a, b) && a[0] == b[0] {
        var k: nat :| FirstDifference(a[1..], b[1..], k);
        assert a[..k + 1] == [a[0]] + a[1..][..k] && b[..k + 1] == [b[0]] + b[1..][..k];
        assert FirstDifference(a, b, k + 1);
      } else if Before(a, b) {
        assert FirstDifference(a, b, 0);
      }
      if k: nat :| FirstDifference(a, b, k) && k > 0 {
        assert a[0] == a[..k][0] == b[..k][0] == b[0];
        assert a[1..][..k - 1] == a[..k][1..] && b[1..][..k - 1] == b[..k][1..];
        assert FirstDifference(a[1..], b[1..], k - 1);
      }
    }
  }

  lemma ForgetCons(e: Entry, es: seq<Entry>)
    ensures ForgetEntries([e] + es) == ForgetEntries(es)[e.key := Forget(e.value)]
  {
    assert ([e] + es)[1..] == es;
  }

  lemma {:induction false} InsertKeepsMeaning(e: Entry, es: seq<Entry>)
    ensures ForgetEntries(Insert(e, es)) == ForgetEntries([e] + es)
    decreases es
  {
    if es != [] && Before(es[0].key, e.key) {
      BeforeIsStrictOrder(es[0].key, e.key, e.key);
      InsertKeepsMeaning(e, es[1..]);
      ForgetCons(es[0], Insert(e, es[1..]));
      ForgetCons(e, es[1..]);
      ForgetCons(e, es);
      ForgetCons(es[0], es[1..]);
      assert es == [es[0]] + es[1..];
    }
  }

  lemma {:induction false} SortKeepsMeaning(es: seq<Entry>)
    ensures ForgetEntries(SortByKey(es)) == ForgetEntries(es)
  {
    if es != [] {
      var tail := SortByKey(es[1..]);
      SortKeepsMeaning(es[1..]);
      InsertKeepsMeaning(es[0], tail);
      assert ([es[0]] + tail)[1..] == tail;
    }
  }

  lemma {:induction false} InsertKeepsOrder(e: Entry, es: seq<Entry>)
    requires Ordered(es) && forall i :: 0 <= i < |es| ==> es[i].key != e.key
    ensures Ordered(Insert(e, es))
    decreases es
  {
    var r := Insert(e, es);
    if es == [] {
    } else if Before(es[0].key, e.key) {
      InsertKeepsOrder(e, es[1..]);
      forall j | 0 < j < |r| ensures Before(r[0].key, r[j].key) {
        assert r[j] in Insert(e, es[1..]);
        if r[j] != e {
          var k :| 0 <= k < |es[1..]| && es[1..][k] == r[j];
          assert es[k + 1] == r[j];
        }
      }
      assert forall j :: 0 < j < |r| ==> r[j] == Insert(e, es[1..])[j - 1];
    } else {
      forall j | 0 < j < |r| ensures Before(r[0].key, r[j].key) {
        BeforeIsStrictOrder(e.key, es[0].key, es[j - 1].key);
      }
    }
  }

  /** Sorting entries with different keys puts them in strict ascending code-unit order. */
  lemma {:induction false} SortOrders(es: seq<Entry>)
    requires DistinctKeys(es)
    ensures Ordered(SortByKey(es))
    ensures forall i, j :: 0 <= i < j < |SortByKey(es)| ==> Precedes(SortByKey(es)[i].key, SortByKey(es)[j].key)
  {
    if es != [] {
      var tail := SortByKey(es[1..]);
      SortOrders(es[1..]);
      forall i | 0 <= i < |tail| ensures tail[i].key != es[0].key {
        assert tail[i] in es[1..];
        var k :| 0 <= k < |es[1..]| && es[1..][k] == tail[i];
        assert es[k + 1] == tail[i];
      }
      InsertKeepsOrder(es[0], tail);
    }
    OrderedAscends(SortByKey(es));
  }

  lemma OrderedAscends(es: seq<Entry>)
    requires Ordered(es)
    ensures forall i, j :: 0 <= i < j < |es| ==> Precedes(es[i].key, es[j].key)
  {
    forall i, j | 0 <= i < j < |es| ensures Precedes(es[i].key, es[j].key) {
      BeforeIff(es[i].key, es[j].key);
    }
  }

  lemma {:induction false} PresentKeepsUnique(es: seq<Entry>)
    requires DistinctKeys(es)
    ensures DistinctKeys(Present(es))
  {
    if es != [] {
      PresentKeepsUnique(es[1..]);
      var r := Present(es);
      if es[0].value != Undefined {
        forall j | 0 < j < |r| ensures r[0].key != r[j].key {
          assert r[j] == Present(es[1..])[j - 1];
          assert r[j] in Present(es[1..]);
          var k :| 0 <= k < |es[1..]| && es[1..][k] == r[j];
          assert es[k + 1] == r[j];
        }
        assert forall j :: 0 < j < |r| ==> r[j] == Present(es[1..])[j - 1];
      }
    }
  }

  // ------------------------------------------------------------ equal values print alike

  /** The first key of an ordered list is the least key of its map. */
  lemma {:induction false} FirstKeyIsLeast(es: seq<Entry>, k: Text)
    requires Ordered(es) && k in ForgetEntries(es)
    ensures es != [] && (k == es[0].key || Before(es[0].key, k))
    decreases es
  {
    if k != es[0].key {
      FirstKeyIsLeast(es[1..], k);
      BeforeIsStrictOrder(es[0].key, es[1].key, k);
    }
  }

  lemma SameFirstKey(es: seq<Entry>, fs: seq<Entry>)
    requires es != [] && Ordered(es) && Ordered(fs) && ForgetEntries(es) == ForgetEntries(fs)
    ensures fs != [] && es[0].key == fs[0].key
  {
    FirstKeyIsLeast(fs, es[0].key);
    FirstKeyIsLeast(es, fs[0].key);
    BeforeIsStrictOrder(es[0].key, fs[0].key, es[0].key);
  }

  lemma KeyNotInTail(es: seq<Entry>)
    requires es != [] && Ordered(es)
    ensures es[0].key !in ForgetEntries(es[1..])
  {
    if es[0].key in ForgetEntries(es[1..]) {
      FirstKeyIsLeast(es[1..], es[0].key);
      BeforeIsStrictOrder(es[0].key, es[1].key, es[0].key);
      assert false;
    }
  }

  lemma EmptyMeaning(es: seq<Entry>)
    ensures ForgetEntries(es) == map[] <==> es == []
  {
    if es != [] { assert es[0].key in ForgetEntries(es); }
  }

  /** Two ordered entry lists with the same meaning agree entry by entry. */
  lemma SameTail(es: seq<Entry>, fs: seq<Entry>)
    requires es != [] && Ordered(es) && Ordered(fs) && ForgetEntries(es) == ForgetEntries(fs)
    ensures fs != [] && es[0].key == fs[0].key && Forget(es[0].value) == Forget(fs[0].value)
    ensures ForgetEntries(es[1..]) == ForgetEntries(fs[1..])
  {
    SameFirstKey(es, fs);
    KeyNotInTail(es);
    KeyNotInTail(fs);
    ForgetCons(es[0], es[1..]);
    ForgetCons(fs[0], fs[1..]);
    assert es == [es[0]] + es[1..] && fs == [fs[0]] + fs[1..];
    Uncovered(ForgetEntries(es[1..]), es[0].key, Forget(es[0].value));
    Uncovered(ForgetEntries(fs[1..]), fs[0].key, Forget(fs[0].value));
  }

  lemma Uncovered(m: map<Text, Value>, k: Text, v: Value)
    requires k !in m
    ensures m[k := v] - {k} == m && m[k := v][k] == v
  {
  }

  lemma {:induction false} SameText(show: Show, v: Json, w: Json)
    requires UniqueKeys(v) && UniqueKeys(w) && Print(show, v).Ok? && Print(show, w).Ok? && Forget(v) == Forget(w)
    ensures Print(show, v) == Print(show, w)
    decreases Size(v), 3
  {
    match v
    case Arr(items) =>
      SameItems(show, items, w.items);
    case Obj(entries) =>
      EntriesReady(entries);
      EntriesReady(w.entries);
      SameEntries(show, SortByKey(Present(entries)), SortByKey(Present(w.entries)));
    case _ =>
  }

  lemma EntriesReady(entries: seq<Entry>)
    requires UniqueKeys(Obj(entries))
    ensures var es := SortByKey(Present(entries));
      Ordered(es) && ForgetEntries(es) == ForgetEntries(Present(entries)) && forall e :: e in es ==> UniqueKeys(e.value)
  {
    var ps := Present(entries);
    SortKeepsMeaning(ps);
    PresentKeepsUnique(entries);
    SortOrders(ps);
    forall e | e in SortByKey(ps) ensures UniqueKeys(e.value) {
      EntryUnique(entries, e);
    }
  }

  lemma EntryUnique(entries: seq<Entry>, e: Entry)
    requires UniqueKeys(Obj(entries)) && e in entries
    ensures UniqueKeys(e.value)
  {
    var i :| 0 <= i < |entries| && entries[i] == e;
    assert UniqueKeys(entries[i].value);
  }

  lemma {:induction false} SameItems(show: Show, vs: seq<Json>, ws: seq<Json>)
    requires forall i :: 0 <= i < |vs| ==> UniqueKeys(vs[i])
    requires forall i :: 0 <= i < |ws| ==> UniqueKeys(ws[i])
    requires PrintItems(show, vs).Ok? && PrintItems(show, ws).Ok? && ForgetItems(vs) == ForgetItems(ws)
    ensures PrintItems(show, vs) == PrintItems(show, ws)
    decreases SizeItems(vs), 4
  {
    if vs != [] {
      assert ForgetItems(vs)[0] == Forget(vs[0]) && ForgetItems(ws)[0] == Forget(ws[0]);
      assert ForgetItems(vs[1..]) == ForgetItems(vs)[1..] && ForgetItems(ws[1..]) == ForgetItems(ws)[1..];
      SameText(show, vs[0], ws[0]);
      SameItems(show, vs[1..], ws[1..]);
    }
  }

  lemma {:induction false} SameEntries(show: Show, es: seq<Entry>, fs: seq<Entry>)
    requires forall e :: e in es ==> UniqueKeys(e.value)
    requires forall f :: f in fs ==> UniqueKeys(f.value)
    requires Ordered(es) && Ordered(fs) && ForgetEntries(es) == ForgetEntries(fs)
    requires PrintEntries(show, es).Ok? && PrintEntries(show, fs).Ok?
    ensures PrintEntries(show, es) == PrintEntries(show, fs)
    decreases SizeEntries(es), 4
  {
    EmptyMeaning(es);
    EmptyMeaning(fs);
    if es != [] {
      SameTail(es, fs);
      assert es[0] in es && fs[0] in fs;
      SameText(show, es[0].value, fs[0].value);
      SameEntries(show, es[1..], fs[1..]);
      EmptyMeaning(es[1..]);
      EmptyMeaning(fs[1..]);
    }
  }

  // ------------------------------------------------------------ the fingerprint law

  /**
   * Two values print to the same text if and only if they are the same value once key
   * order is forgotten and undefined entries are dropped. Array order still matters.
   */
  lemma SameTextIffSameValue(show: Show, v: Json, w: Json)
    requires NumberPrinter(show) && UniqueKeys(v) && UniqueKeys(w) && Print(show, v).Ok? && Print(show, w).Ok?
    ensures Print(show, v) == Print(show, w) <==> Forget(v) == Forget(w)
  {
    if Print(show, v) == Print(show, w) {
      Readable(show, v, w, [], []);
    }
    if Forget(v) == Forget(w) {
      SameText(show, v, w);
    }
  }

  /** Which values have no text: a number that is not finite, or an unsupported value where one is printed. */
  predicate Printable(v: Json)
    decreases v
  {
    match v
    case Num(n) => n.NegativeZero? || n.Finite?
    case Arr(items) => forall i :: 0 <= i < |items| ==> Printable(items[i])
    case Obj(entries) => forall i :: 0 <= i < |entries| ==> entries[i].value == Undefined || Printable(entries[i].value)
    case Undefined => false
    case Unsupported => false
    case _ => true
  }

  lemma {:induction false} PrintsExactlyPrintable(show: Show, v: Json)
    ensures Print(show, v).Ok? <==> Printable(v)
    decreases Size(v), 1
  {
    match v
    case Arr(items) =>
      PrintsItems(show, items);
    case Obj(entries) =>
      var es := SortByKey(Present(entries));
      PrintsEntries(show, es);
      if forall e :: e in es ==> Printable(e.value) {
        forall i | 0 <= i < |entries| ensures entries[i].value == Undefined || Printable(entries[i].value) {
          assert entries[i].value != Undefined ==> entries[i] in Present(entries);
        }
      }
    case _ =>
  }

  lemma {:induction false} PrintsItems(show: Show, items: seq<Json>)
    ensures PrintItems(show, items).Ok? <==> forall i :: 0 <= i < |items| ==> Printable(items[i])
    decreases SizeItems(items), 2
  {
    if items != [] {
      PrintsExactlyPrintable(show, items[0]);
      PrintsItems(show, items[1..]);
      assert forall i :: 0 < i < |items| ==> items[i] == items[1..][i - 1];
    }
  }

  lemma {:induction false} PrintsEntries(show: Show, es: seq<Entry>)
    ensures PrintEntries(show, es).Ok? <==> forall e :: e in es ==> Printable(e.value)
    decreases SizeEntries(es), 2
  {
    if es != [] {
      PrintsExactlyPrintable(show, es[0].value);
      PrintsEntries(show, es[1..]);
      assert forall e :: e in es <==> e == es[0] || e in es[1..];
    }
  }

  /** The leaves of a value in the order of its text: array order, and ascending keys. */
  function Leaves(v: Json): seq<Json>
    decreases Size(v), 1
  {
    match v
    case Arr(items) => LeavesOfItems(items)
    case Obj(entries) => LeavesOfEntries(SortByKey(Present(entries)))
    case _ => [v]
  }

  function LeavesOfItems(items: seq<Json>): seq<Json>
    decreases SizeItems(items), 2
  {
    if items == [] then [] else Leaves(items[0]) + LeavesOfItems(items[1..])
  }

  function LeavesOfEntries(es: seq<Entry>): seq<Json>
    decreases SizeEntries(es), 2
  {
    if es == [] then [] else Leaves(es[0].value) + LeavesOfEntries(es[1..])
  }

  /** What is wrong with a leaf. */
  function Fault(v: Json): Option<Error> {
    match v
    case Num(NotANumber) => Some(NON_FINITE_NUMBER)
    case Num(Infinite(_)) => Some(NON_FINITE_NUMBER)
    case Undefined => Some(UNSUPPORTED_JSON_VALUE)
    case Unsupported => Some(UNSUPPORTED_JSON_VALUE)
    case _ => None
  }

  function FirstFault(leaves: seq<Json>): Option<Error> {
    if leaves == [] then None
    else if Fault(leaves[0]).Some? then Fault(leaves[0])
    else FirstFault(leaves[1..])
  }

  lemma {:induction false} FirstFaultConcat(a: seq<Json>, b: seq<Json>)
    ensures FirstFault(a + b) == if FirstFault(a).Some? then FirstFault(a) else FirstFault(b)
  {
    if a == [] {
      assert a + b == b;
    } else {
      assert (a + b)[0] == a[0] && (a + b)[1..] == a[1..] + b;
      FirstFaultConcat(a[1..], b);
    }
  }

  function ErrorOf(r: Result): Option<Error> {
    if r.Fail? then Some(r.error) else None
  }

  /** Printing fails if and only if some leaf is at fault, and with the error of the first one in the order of the text. */
  lemma {:induction false} FailsAtFirstFault(show: Show, v: Json)
    ensures ErrorOf(Print(show, v)) == FirstFault(Leaves(v))
    decreases Size(v), 1
  {
    match v
    case Arr(items) => FailsAtFirstItem(show, items);
    case Obj(entries) => FailsAtFirstEntry(show, SortByKey(Present(entries)));
    case _ => assert [v][1..] == [];
  }

  lemma {:induction false} FailsAtFirstItem(show: Show, items: seq<Json>)
    ensures ErrorOf(PrintItems(show, items)) == FirstFault(LeavesOfItems(items))
    decreases SizeItems(items), 2
  {
    if items != [] {
      FailsAtFirstFault(show, items[0]);
      FailsAtFirstItem(show, items[1..]);
      FirstFaultConcat(Leaves(items[0]), LeavesOfItems(items[1..]));
    }
  }

  lemma {:induction false} FailsAtFirstEntry(show: Show, es: seq<Entry>)
    ensures ErrorOf(PrintEntries(show, es)) == FirstFault(LeavesOfEntries(es))
    decreases SizeEntries(es), 2
  {
    if es != [] {
      FailsAtFirstFault(show, es[0].value);
      FailsAtFirstEntry(show, es[1..]);
      FirstFaultConcat(Leaves(es[0].value), LeavesOfEntries(es[1..]));
    }
  }

  // ------------------------------------------------------------ a printer exists

  function Signed(n: int): Text {
    if n < 0 then [45] + Decimal.Digits(-n) else Decimal.Digits(n)
  }

  /** Mantissa and exponent in decimal: one token printer that meets `NumberPrinter`. */
  function Plain(m: int, e: int): Text {
    Signed(m) + [101] + Signed(e)
  }

  /** A text without the exponent mark, followed by nothing or the mark, determines itself. */
  lemma UpToMark(a: Text, b: Text, x: Text, y: Text)
    requires 101 !in a && 101 !in b && (x == [] || x[0] == 101) && (y == [] || y[0] == 101) && a + x == b + y
    ensures a == b && x == y
  {
    var t := a + x;
    assert forall i :: 0 <= i < |a| ==> t[i] == a[i];
    assert forall i :: 0 <= i < |b| ==> t[i] == b[i];
    assert |a| < |t| ==> t[|a|] == x[0];
    assert |b| < |t| ==> t[|b|] == y[0];
    assert |a| == |b|;
    assert a == t[..|a|] && b == t[..|b|] && x == t[|a|..] && y == t[|b|..];
  }

  lemma SignedChars(n: int)
    ensures Signed(n) != [] && 101 !in Signed(n) && (n < 0 <==> Signed(n)[0] == 45)
    ensures forall i :: 0 <= i < |Signed(n)| ==> NumberChar(Signed(n)[i])
  {
  }

  lemma SignedInjective(m: int, n: int)
    requires Signed(m) == Signed(n)
    ensures m == n
  {
    SignedChars(m);
    SignedChars(n);
    if m < 0 {
      assert Decimal.Digits(-m) == Signed(m)[1..] && Decimal.Digits(-n) == Signed(n)[1..];
      Decimal.DigitsInjective(-m, -n);
    } else {
      Decimal.DigitsInjective(m, n);
    }
  }

  lemma SignedReadable(m: int, n: int, x: Text, y: Text)
    requires (x == [] || x[0] == 101) && (y == [] || y[0] == 101)
    requires Signed(m) + x == Signed(n) + y
    ensures m == n && x == y
  {
    SignedChars(m);
    SignedChars(n);
    UpToMark(Signed(m), Signed(n), x, y);
    SignedInjective(m, n);
  }

  function Marked(e: int): (t: Text)
    ensures t != [] && t[0] == 101 && t[1..] == Signed(e)
  {
    [101] + Signed(e)
  }

  lemma PlainSplits(m: int, e: int)
    ensures Plain(m, e) == Signed(m) + Marked(e)
  {
  }

  lemma PlainInjective(m: int, e: int, m': int, e': int)
    requires Plain(m, e) == Plain(m', e')
    ensures m == m' && e == e'
  {
    PlainSplits(m, e);
    PlainSplits(m', e');
    SignedReadable(m, m', Marked(e), Marked(e'));
    SignedInjective(e, e');
  }

  lemma PlainChars(m: int, e: int)
    ensures Plain(m, e) != [] && forall i :: 0 <= i < |Plain(m, e)| ==> NumberChar(Plain(m, e)[i])
  {
    SignedChars(m);
    SignedChars(e);
    var t := Plain(m, e);
    assert t == Signed(m) + [101] + Signed(e);
    forall i | 0 <= i < |t| ensures NumberChar(t[i]) {
      if i < |Signed(m)| {
        assert t[i] == Signed(m)[i];
      } else if i > |Signed(m)| {
        assert t[i] == Signed(e)[i - |Signed(m)| - 1];
      }
    }
  }

  lemma PlainIsNumberPrinter()
    ensures NumberPrinter(Plain)
  {
    forall m, e ensures Plain(m, e) != [] && forall i :: 0 <= i < |Plain(m, e)| ==> NumberChar(Plain(m, e)[i]) {
      PlainChars(m, e);
    }
    forall m, e, m', e' | Plain(m, e) == Plain(m', e') ensures m == m' && e == e' {
      PlainInjective(m, e, m', e');
    }
  }
}
