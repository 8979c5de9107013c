/** What canonical text looks like, unit by unit: the form that RFC 8785 asks for, stated without the reader. */
module CanonicalForm {
  import opened Store
  import opened JsonText
  import opened Canonical
  import Words

  // ---- strings --------------------------------------------------------------------------------

  predicate Pair(a: int, b: int) { High(a) && Low(b) }

  /** Strings are escaped unit by unit, except that a surrogate pair is kept whole. */
  lemma {:induction false} EscapesInPlace(a: Text, b: Text)
    requires a != [] && b != [] ==> !Pair(a[|a| - 1], b[0])
    ensures Escape(a + b) == Escape(a) + Escape(b)
    decreases |a|
  {
    if a == [] {
      assert a + b == b;
    } else if |a| > 1 && Pair(a[0], a[1]) {
      assert (a + b)[2..] == a[2..] + b;
      EscapesInPlace(a[2..], b);
    } else {
      assert (a + b)[1..] == a[1..] + b;
      EscapesInPlace(a[1..], b);
    }
  }

  /** Lower-case hexadecimal digit of value `n`. */
  predicate IsDigit(c: int, n: int) {
    if n < 10 then c == '0' as int + n else c == 'a' as int + (n - 10)
  }

  /** The long escape of `c`: a backslash, a `u` and four lower-case hexadecimal digits. */
  ghost predicate LongEscape(t: Text, c: int) {
    && |t| == 6 && t[0] == '\\' as int && t[1] == 'u' as int
    && exists x, y, z, w :: 0 <= x < 16 && 0 <= y < 16 && 0 <= z < 16 && 0 <= w < 16
                            && c == ((x * 16 + y) * 16 + z) * 16 + w
                            && IsDigit(t[2], x) && IsDigit(t[3], y) && IsDigit(t[4], z) && IsDigit(t[5], w)
  }

  /** One unit: the short escapes where there is one, the long one for other control characters and for lone
      surrogates, and the unit itself otherwise. */
  lemma UnitText(c: int)
    requires IsUnit(c)
    ensures Escape([c]) == Escape1(c)
    ensures c == 8 ==> Escape1(c) == ['\\' as int, 'b' as int]
    ensures c == 9 ==> Escape1(c) == ['\\' as int, 't' as int]
    ensures c == 10 ==> Escape1(c) == ['\\' as int, 'n' as int]
    ensures c == 12 ==> Escape1(c) == ['\\' as int, 'f' as int]
    ensures c == 13 ==> Escape1(c) == ['\\' as int, 'r' as int]
    ensures c == '\"' as int || c == '\\' as int ==> Escape1(c) == ['\\' as int, c]
    ensures (c < 32 && c !in {8, 9, 10, 12, 13}) || 0xd800 <= c < 0xe000 ==> LongEscape(Escape1(c), c)
    ensures 32 <= c && c != '\"' as int && c != '\\' as int && !(0xd800 <= c < 0xe000) ==> Escape1(c) == [c]
  {
    assert [c][1..] == [] && Escape1(c) + [] == Escape1(c);
    if (c < 32 && c !in {8, 9, 10, 12, 13}) || 0xd800 <= c < 0xe000 { LongText(c); }
  }

  lemma LongText(c: int)
    requires IsUnit(c)
    ensures LongEscape([BACKSLASH, LOWER_U] + Hex4(c), c)
  {
    var x, y, z, w := c / 4096 % 16, c / 256 % 16, c / 16 % 16, c % 16;
    var t := [BACKSLASH, LOWER_U] + Hex4(c);
    DigitsSum(c);
    assert IsDigit(t[2], x) && IsDigit(t[3], y) && IsDigit(t[4], z) && IsDigit(t[5], w);
    assert c == ((x * 16 + y) * 16 + z) * 16 + w;
  }

  /** A pair is kept, and a string stands between quotes. */
  lemma PairText(a: int, b: int, s: Text)
    requires Pair(a, b)
    ensures Escape([a, b]) == [a, b]
    ensures Quote(s) == ['\"' as int] + Escape(s) + ['\"' as int]
  {
    assert [a, b][2..] == [] && Escape([]) == [];
  }

  // ---- values ---------------------------------------------------------------------------------

  function Ascii(s: string): Text { Words.Units(s) }

  lemma Constants(nm: Numbers, n: nat, s: Text)
    ensures TextOf(nm, Null) == Ascii("null") == TextOf(nm, Undefined) == TextOf(nm, Function) == TextOf(nm, Symbol)
    ensures TextOf(nm, Bool(true)) == Ascii("true") && TextOf(nm, Bool(false)) == Ascii("false")
    ensures TextOf(nm, Num(n)) == nm.show(n) && TextOf(nm, NegZero) == nm.show(0) && TextOf(nm, Str(s)) == Quote(s)
  {
  }

  lemma {:induction false} CommasSnoc(ts: seq<Text>, t: Text)
    ensures Commas(ts + [t]) == if ts == [] then t else Commas(ts) + [',' as int] + t
    decreases |ts|
  {
    if ts == [] {
      assert ts + [t] == [t];
    } else {
      assert (ts + [t])[1..] == ts[1..] + [t];
      CommasSnoc(ts[1..], t);
      if |ts| > 1 { assert ts[1..] != []; }
    }
  }

  /** A list of texts in brackets. */
  function Listed(open: char, ts: seq<Text>, close: char): Text { [open as int] + (Commas(ts) + [close as int]) }

  lemma {:induction false} TextsSnoc(nm: Numbers, items: seq<Value>, x: Value)
    requires Printable(Arr(items)) && Printable(x)
    ensures Printable(Arr(items + [x])) && TextsOf(nm, items + [x]) == TextsOf(nm, items) + [TextOf(nm, x)]
    decreases |items|
  {
    if items == [] {
      assert items + [x] == [x];
    } else {
      assert (items + [x])[1..] == items[1..] + [x];
      assert Printable(Arr(items[1..]));
      TextsSnoc(nm, items[1..], x);
    }
  }

  /** An array: its elements in brackets, in their order, separated by commas. */
  lemma ArrayText(nm: Numbers, items: seq<Value>, x: Value, ts: seq<Text>, t: Text)
    requires Printable(Arr(items)) && Printable(x)
    ensures TextOf(nm, Arr(items)) == Listed('[', TextsOf(nm, items), ']')
    ensures TextsOf(nm, []) == [] && TextsOf(nm, items + [x]) == TextsOf(nm, items) + [TextOf(nm, x)]
    ensures Commas([]) == [] && Commas(ts + [t]) == if ts == [] then t else Commas(ts) + [',' as int] + t
  {
    TextsSnoc(nm, items, x);
    CommasSnoc(ts, t);
  }

  /** No key in `ms` comes after `key`. */
  ghost predicate IsLargest(key: Text, ms: seq<Member>) { forall m :: m in ms ==> Words.Le(m.key, key) && m.key != key }

  lemma {:induction false} EntriesSnoc(nm: Numbers, ms: seq<Member>, m: Member)
    requires Members(ms) && !Omitted(m.value) && Printable(m.value)
    ensures Members(ms + [m]) && Entries(nm, ms + [m]) == Entries(nm, ms) + [EntryOf(nm, m)]
    decreases |ms|
  {
    if ms == [] {
      assert ms + [m] == [m];
      assert Entries(nm, [m][1..]) == [];
    } else {
      assert (ms + [m])[1..] == ms[1..] + [m];
      EntriesSnoc(nm, ms[1..], m);
    }
  }

  lemma {:induction false} InsertSnoc(e: Entry, es: seq<Entry>, last: Entry)
    requires Words.Le(e.key, last.key)
    ensures Insert(e, es + [last]) == Insert(e, es) + [last]
    decreases |es|
  {
    if es == [] {
      assert es + [last] == [last];
    } else {
      assert (es + [last])[1..] == es[1..] + [last];
      InsertSnoc(e, es[1..], last);
    }
  }

  lemma {:induction false} SortSnoc(es: seq<Entry>, last: Entry)
    requires forall e :: e in es ==> Words.Le(e.key, last.key)
    ensures Sort(es + [last]) == Sort(es) + [last]
    decreases |es|
  {
    if es == [] {
      assert es + [last] == [last] && Sort([last][1..]) == [];
    } else {
      assert (es + [last])[1..] == es[1..] + [last];
      SortSnoc(es[1..], last);
      InsertSnoc(es[0], Sort(es[1..]), last);
    }
  }

  lemma {:induction false} LinesSnoc(es: seq<Entry>, e: Entry)
    ensures Lines(es + [e]) == Lines(es) + [Line(e)]
    decreases |es|
  {
    if es == [] {
      assert es + [e] == [e] && Lines([e][1..]) == [];
    } else {
      assert (es + [e])[1..] == es[1..] + [e];
      LinesSnoc(es[1..], e);
    }
  }

  /** The member lines of an object, in their order in the text. */
  function MemberLines(nm: Numbers, ms: seq<Member>): seq<Text>
    requires Members(ms)
  {
    Lines(Sort(Entries(nm, ms)))
  }

  /** An object: its member lines in braces, separated by commas. The member with the largest key comes last: key,
      colon, value. Together with `Canonical.TextIsFaithful`, which says that the member order and omitted members
      make no difference, this fixes the text of every object. */
  lemma ObjectText(nm: Numbers, ms: seq<Member>, m: Member)
    requires Members(ms) && !Omitted(m.value) && Printable(m.value) && IsLargest(m.key, ms)
    ensures TextOf(nm, Obj(ms)) == Listed('{', MemberLines(nm, ms), '}')
    ensures MemberLines(nm, []) == [] && Members(ms + [m])
    ensures MemberLines(nm, ms + [m]) == MemberLines(nm, ms) + [Quote(m.key) + ([':' as int] + TextOf(nm, m.value))]
  {
    LinesGrow(nm, ms, m);
  }

  lemma LinesGrow(nm: Numbers, ms: seq<Member>, m: Member)
    requires Members(ms) && !Omitted(m.value) && Printable(m.value) && IsLargest(m.key, ms)
    ensures Members(ms + [m]) && MemberLines(nm, ms + [m]) == MemberLines(nm, ms) + [Line(EntryOf(nm, m))]
    ensures Entries(nm, ms) == [] <==> MemberLines(nm, ms) == []
  {
    var es, e := Entries(nm, ms), EntryOf(nm, m);
    EntriesFrom(nm, ms);
    EntriesSnoc(nm, ms, m);
    SortSnoc(es, e);
    SortHas(es);
    LinesSnoc(Sort(es), e);
    if es != [] { assert es[0] in es && es[0] in Sort(es); }
    if es == [] { assert Sort(es) == []; }
  }
}
