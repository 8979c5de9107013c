/** JSON string literals as RFC 8785 writes them (section 3.2.2.2), over UTF-16 code units, with a
    reader that inverts the writer. */
module JsonText {
  import opened Store

  type Text = seq<int>

  const QUOTE := 0x22
  const BACKSLASH := 0x5c
  const COMMA := 0x2c
  const COLON := 0x3a
  const OPEN_ARRAY := 0x5b
  const CLOSE_ARRAY := 0x5d
  const OPEN_OBJECT := 0x7b
  const CLOSE_OBJECT := 0x7d
  const LOWER_U := 0x75

  datatype Parsed<+T> = Parsed(value: T, rest: Text)

  predicate IsUnit(c: int) { 0 <= c < 0x10000 }
  predicate High(c: int) { 0xd800 <= c < 0xdc00 }
  predicate Low(c: int) { 0xdc00 <= c < 0xe000 }

  // ---- writing --------------------------------------------------------------------------------

  /** Lower-case hexadecimal digit. */
  function Hex(n: int): int { if n < 10 then 0x30 + n else 0x57 + n }

  function Hex4(c: int): Text { [Hex(c / 4096 % 16), Hex(c / 256 % 16), Hex(c / 16 % 16), Hex(c % 16)] }

  /** The letter of the short escapes: backspace, tab, newline, form feed, carriage return. */
  function Short(c: int): Option<int> {
    match c
    case 8 => Some(0x62)
    case 9 => Some(0x74)
    case 10 => Some(0x6e)
    case 12 => Some(0x66)
    case 13 => Some(0x72)
    case _ => None
  }

  /** One code unit that is not half of a surrogate pair. */
  function Escape1(c: int): Text {
    if c == QUOTE || c == BACKSLASH then [BACKSLASH, c]
    else if Short(c).Some? then [BACKSLASH, Short(c).value]
    else if c < 0x20 || High(c) || Low(c) then [BACKSLASH, LOWER_U] + Hex4(c)
    else [c]
  }

  /** Surrogate pairs are kept, lone surrogates are escaped. */
  function Escape(s: Text): Text {
    if s == [] then []
    else if High(s[0]) && |s| > 1 && Low(s[1]) then [s[0]] + ([s[1]] + Escape(s[2..]))
    else Escape1(s[0]) + Escape(s[1..])
  }

  function Quote(s: Text): Text { [QUOTE] + (Escape(s) + [QUOTE]) }

  // ---- reading --------------------------------------------------------------------------------

  function UnHex(c: int): Option<int> {
    if 0x30 <= c < 0x3a then Some(c - 0x30) else if 0x61 <= c < 0x67 then Some(c - 0x57) else None
  }

  function UnShort(c: int): Option<int> {
    match c
    case 0x22 => Some(QUOTE)
    case 0x5c => Some(BACKSLASH)
    case 0x62 => Some(8)
    case 0x74 => Some(9)
    case 0x6e => Some(10)
    case 0x66 => Some(12)
    case 0x72 => Some(13)
    case _ => None
  }

  function UnHex4(t: Text): Option<int>
    requires |t| >= 4
  {
    var a, b, c, d := UnHex(t[0]), UnHex(t[1]), UnHex(t[2]), UnHex(t[3]);
    if a.None? || b.None? || c.None? || d.None? then None
    else Some(a.value * 4096 + b.value * 256 + c.value * 16 + d.value)
  }

  function Push(c: int, p: Option<Parsed<Text>>): Option<Parsed<Text>> {
    if p.None? then None else Some(Parsed([c] + p.value.value, p.value.rest))
  }

  /** Read up to and including the closing quote. */
  function ReadChars(t: Text): (p: Option<Parsed<Text>>)
    ensures p.Some? ==> |p.value.rest| < |t|
  {
    if t == [] then None
    else if t[0] == QUOTE then Some(Parsed([], t[1..]))
    else if t[0] != BACKSLASH then Push(t[0], ReadChars(t[1..]))
    else if |t| < 2 then None
    else if UnShort(t[1]).Some? then Push(UnShort(t[1]).value, ReadChars(t[2..]))
    else if t[1] != LOWER_U || |t| < 6 || UnHex4(t[2..]).None? then None
    else Push(UnHex4(t[2..]).value, ReadChars(t[6..]))
  }

  // ---- reading inverts writing ----------------------------------------------------------------

  lemma DigitInverse(n: int)
    requires 0 <= n < 16
    ensures UnHex(Hex(n)) == Some(n)
  {
  }

  lemma DigitsSum(c: int)
    requires IsUnit(c)
    ensures c == c / 4096 % 16 * 4096 + c / 256 % 16 * 256 + c / 16 % 16 * 16 + c % 16
  {
    assert c / 256 == c / 4096 * 16 + c / 256 % 16;
    assert c / 16 == c / 256 * 16 + c / 16 % 16;
  }

  lemma HexInverse(c: int, t: Text)
    requires IsUnit(c)
    ensures UnHex4(Hex4(c) + t) == Some(c)
  {
    DigitInverse(c / 4096 % 16);
    DigitInverse(c / 256 % 16);
    DigitInverse(c / 16 % 16);
    DigitInverse(c % 16);
    DigitsSum(c);
  }

  lemma Drop(a: Text, b: Text)
    ensures (a + b)[|a|..] == b && (a + b)[..|a|] == a
  {
  }

  lemma Assoc(a: Text, b: Text, c: Text)
    ensures (a + b) + c == a + (b + c)
  {
  }

  lemma PlainInverse(c: int, t: Text)
    requires c != QUOTE && c != BACKSLASH
    ensures ReadChars([c] + t) == Push(c, ReadChars(t))
  {
    Drop([c], t);
  }

  lemma ShortInverse(c: int, e: int, t: Text)
    requires UnShort(e) == Some(c)
    ensures ReadChars([BACKSLASH, e] + t) == Push(c, ReadChars(t))
  {
    Drop([BACKSLASH, e], t);
  }

  lemma LongInverse(c: int, t: Text)
    requires IsUnit(c)
    ensures ReadChars([BACKSLASH, LOWER_U] + Hex4(c) + t) == Push(c, ReadChars(t))
  {
    var head := [BACKSLASH, LOWER_U];
    Drop(head + Hex4(c), t);
    Assoc(head, Hex4(c), t);
    Drop(head, Hex4(c) + t);
    HexInverse(c, t);
  }

  lemma EscapeInverse(c: int, t: Text)
    requires IsUnit(c)
    ensures ReadChars(Escape1(c) + t) == Push(c, ReadChars(t))
  {
    if c == QUOTE || c == BACKSLASH {
      ShortInverse(c, c, t);
    } else if Short(c).Some? {
      ShortInverse(c, Short(c).value, t);
    } else if c < 0x20 || High(c) || Low(c) {
      LongInverse(c, t);
    } else {
      PlainInverse(c, t);
    }
  }

  lemma PairInverse(s: Text, t: Text)
    requires |s| > 1 && High(s[0]) && Low(s[1]) && ReadChars(Escape(s[2..]) + t).Some?
    ensures
      var p := ReadChars(Escape(s[2..]) + t).value;
      ReadChars(Escape(s) + t) == Some(Parsed(s[..2] + p.value, p.rest))
  {
    var after := Escape(s[2..]) + t;
    Assoc([s[0]], [s[1]] + Escape(s[2..]), t);
    Assoc([s[1]], Escape(s[2..]), t);
    PlainInverse(s[1], after);
    PlainInverse(s[0], [s[1]] + after);
    var p := ReadChars(after).value;
    assert [s[0]] + ([s[1]] + p.value) == s[..2] + p.value;
  }

  lemma {:induction false} CharsInverse(s: Text, rest: Text)
    requires forall c :: c in s ==> IsUnit(c)
    ensures ReadChars(Escape(s) + ([QUOTE] + rest)) == Some(Parsed(s, rest))
    decreases |s|
  {
    var tail := [QUOTE] + rest;
    if s == [] {
      assert Escape(s) + tail == tail;
      Drop([QUOTE], rest);
    } else if High(s[0]) && |s| > 1 && Low(s[1]) {
      CharsInverse(s[2..], rest);
      PairInverse(s, tail);
      assert s == s[..2] + s[2..];
    } else {
      CharsInverse(s[1..], rest);
      Assoc(Escape1(s[0]), Escape(s[1..]), tail);
      EscapeInverse(s[0], Escape(s[1..]) + tail);
      assert s == [s[0]] + s[1..];
    }
  }
}
