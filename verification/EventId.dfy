/** Event-id material: the string that is hashed into an event id. The escaping makes it injective,
    shown by a parser that undoes the join. */
module EventId {
  import opened Store

  datatype Parts = Parts(
    source: string, partition: string, identity: string, version: string, schemaVersion: int, kind: EventType)

  const PREFIX := "watukuy|v1|"

  /** Backslash-escape every separator and every backslash. */
  function EscapePart(part: string): string {
    if part == "" then ""
    else EscapeChar(part[0]) + EscapePart(part[1..])
  }

  function EscapeChar(c: char): string { if c == '\\' || c == '|' then ['\\', c] else [c] }

  function Join(parts: seq<string>): string {
    if parts == [] then ""
    else if |parts| == 1 then EscapePart(parts[0])
    else EscapePart(parts[0]) + "|" + Join(parts[1..])
  }

  function KindText(kind: EventType): string {
    match kind case Created => "created" case Updated => "updated" case Deleted => "deleted"
  }

  function Digit(d: nat): char
    requires d < 10
  {
    ('0' as int + d) as char
  }

  function NatText(n: nat): string {
    if n < 10 then [Digit(n)] else NatText(n / 10) + [Digit(n % 10)]
  }

  function IntText(n: int): string { if n < 0 then "-" + NatText(-n) else NatText(n) }

  function Fields(p: Parts): seq<string> {
    [p.source, p.partition, p.identity, p.version, IntText(p.schemaVersion), KindText(p.kind)]
  }

  function Material(p: Parts): string { PREFIX + Join(Fields(p)) }

  // ---- the inverse ----------------------------------------------------------------------------

  /** Undo the escaping and split at bare separators; `cur` is the part read so far. */
  function Split(text: string, cur: string): seq<string> {
    if text == "" then [cur]
    else if text[0] == '|' then [cur] + Split(text[1..], "")
    else if text[0] == '\\' && |text| >= 2 then Split(text[2..], cur + [text[1]])
    else Split(text[1..], cur + [text[0]])
  }

  lemma SplitChar(c: char, rest: string, cur: string)
    ensures Split(EscapeChar(c) + rest, cur) == Split(rest, cur + [c])
  {
    assert (EscapeChar(c) + rest)[|EscapeChar(c)|..] == rest;
  }

  lemma {:induction false} SplitEscaped(part: string, rest: string, cur: string)
    ensures Split(EscapePart(part) + rest, cur) == Split(rest, cur + part)
    decreases |part|
  {
    if part == "" {
      assert EscapePart(part) + rest == rest && cur + part == cur;
    } else {
      var tail := EscapePart(part[1..]) + rest;
      assert EscapePart(part) + rest == EscapeChar(part[0]) + tail;
      SplitChar(part[0], tail, cur);
      SplitEscaped(part[1..], rest, cur + [part[0]]);
      assert cur + [part[0]] + part[1..] == cur + part;
    }
  }

  lemma SplitFirst(part: string, more: string)
    ensures Split(EscapePart(part) + "|" + more, "") == [part] + Split(more, "")
  {
    var rest := "|" + more;
    assert EscapePart(part) + "|" + more == EscapePart(part) + rest && "" + part == part && rest[1..] == more;
    SplitEscaped(part, rest, "");
  }

  /** Splitting a join gives back every part, whatever characters the parts contain. */
  lemma {:induction false} SplitJoin(parts: seq<string>)
    requires parts != []
    ensures Split(Join(parts), "") == parts
  {
    if |parts| == 1 {
      assert EscapePart(parts[0]) + "" == EscapePart(parts[0]) && "" + parts[0] == parts[0];
      SplitEscaped(parts[0], "", "");
    } else {
      SplitJoin(parts[1..]);
      SplitFirst(parts[0], Join(parts[1..]));
    }
  }

  function DigitValue(c: char): nat { if '0' <= c <= '9' then c as int - '0' as int else 0 }

  function NatValue(s: string): nat {
    if s == "" then 0 else NatValue(s[..|s| - 1]) * 10 + DigitValue(s[|s| - 1])
  }

  lemma DigitValueOf(d: nat)
    requires d < 10
    ensures DigitValue(Digit(d)) == d && Digit(d) != '-'
  {
  }

  lemma {:induction false} NatTextValue(n: nat)
    ensures NatValue(NatText(n)) == n && NatText(n) != "" && '-' !in NatText(n)
    decreases n
  {
    if n < 10 {
      assert NatText(n)[..0] == "";
    } else {
      var init := NatText(n / 10);
      NatTextValue(n / 10);
      DigitValueOf(n % 10);
      assert NatText(n)[..|init|] == init;
    }
  }

  function IntValue(s: string): int {
    if s != "" && s[0] == '-' then -(NatValue(s[1..]) as int) else NatValue(s)
  }

  lemma IntTextValue(n: int)
    ensures IntValue(IntText(n)) == n
  {
    NatTextValue(if n < 0 then -n else n);
    if n < 0 { assert IntText(n)[1..] == NatText(-n); }
    else { assert NatText(n)[0] in NatText(n); }
  }

  function KindValue(s: string): EventType {
    if s == "created" then Created else if s == "updated" then Updated else Deleted
  }

  /** Read the six fields back out of the material. */
  function Recover(material: string): Parts {
    var fields := if |material| < |PREFIX| then [] else Split(material[|PREFIX|..], "");
    if |fields| != 6 then Parts("", "", "", "", 0, Created)
    else Parts(fields[0], fields[1], fields[2], fields[3], IntValue(fields[4]), KindValue(fields[5]))
  }

  /** The material determines its parts. */
  lemma RecoverMaterial(p: Parts)
    ensures Recover(Material(p)) == p
  {
    SplitJoin(Fields(p));
    IntTextValue(p.schemaVersion);
    assert Material(p)[|PREFIX|..] == Join(Fields(p));
  }

  /** Distinct tuples never share material, even when parts contain separators and backslashes. */
  lemma MaterialInjective(p: Parts, q: Parts)
    requires Material(p) == Material(q)
    ensures p == q
  {
    RecoverMaterial(p);
    RecoverMaterial(q);
  }

  /** The event id: a digest of the material. */
  function IdOf(sha: string -> string): Parts -> string { (p: Parts) => sha(Material(p)) }

  /** With a collision-free digest, two events share an id only if all six fields agree. */
  lemma IdsDetermineParts(sha: string -> string, p: Parts, q: Parts)
    requires forall a, b :: sha(a) == sha(b) ==> a == b
    ensures IdOf(sha)(p) == IdOf(sha)(q) <==> p == q
  {
    if IdOf(sha)(p) == IdOf(sha)(q) { MaterialInjective(p, q); }
  }

  // ---- how the material looks -------------------------------------------------------------------

  /** Separators and backslashes get a backslash in front; everything else stays as it is, in order. */
  lemma {:induction false} EscapesInPlace(a: string, b: string)
    ensures EscapePart(a + b) == EscapePart(a) + EscapePart(b)
    ensures EscapePart("|") == "\\|" && EscapePart("\\") == "\\\\"
    ensures '|' !in a && '\\' !in a ==> EscapePart(a) == a
    decreases |a|
  {
    if a == "" {
      assert a + b == b;
    } else {
      assert (a + b)[1..] == a[1..] + b && a == [a[0]] + a[1..];
      EscapesInPlace(a[1..], b);
    }
    assert "|"[1..] == "" && "\\"[1..] == "";
  }

  /** Decimal digits without leading zeros. */
  lemma {:induction false} DigitsOnly(n: nat)
    ensures forall c :: c in NatText(n) ==> '0' <= c <= '9'
    ensures NatText(n)[0] == '0' <==> n == 0
    decreases n
  {
    if n >= 10 { DigitsOnly(n / 10); }
  }

  /** The fields in their order, between bare separators, after the prefix. */
  lemma MaterialLayout(p: Parts)
    ensures Material(p) ==
            "watukuy|v1|" + (EscapePart(p.source) + "|" + (EscapePart(p.partition) + "|" + (
              EscapePart(p.identity) + "|" + (EscapePart(p.version) + "|" + (IntText(p.schemaVersion) + "|" + (
                match p.kind { case Created => "created" case Updated => "updated" case Deleted => "deleted" }))))))
  {
    var number, kind := IntText(p.schemaVersion), KindText(p.kind);
    PlainFields(p);
    LastTwo(number, kind);
    Before(p.version, [number, kind]);
    Before(p.identity, [p.version, number, kind]);
    Before(p.partition, [p.identity, p.version, number, kind]);
    Before(p.source, [p.partition, p.identity, p.version, number, kind]);
    assert Fields(p) == [p.source] + [p.partition, p.identity, p.version, number, kind];
    assert [p.partition, p.identity, p.version, number, kind] == [p.partition] + [p.identity, p.version, number, kind];
    assert [p.identity, p.version, number, kind] == [p.identity] + [p.version, number, kind];
    assert [p.version, number, kind] == [p.version] + [number, kind];
  }

  lemma PlainFields(p: Parts)
    ensures EscapePart(IntText(p.schemaVersion)) == IntText(p.schemaVersion)
    ensures EscapePart(KindText(p.kind)) == KindText(p.kind)
  {
    NatTextPlain(if p.schemaVersion < 0 then -p.schemaVersion else p.schemaVersion);
    EscapesInPlace(IntText(p.schemaVersion), "");
    EscapesInPlace(KindText(p.kind), "");
  }

  lemma NatTextPlain(n: nat)
    ensures '|' !in NatText(n) && '\\' !in NatText(n)
  {
    DigitsOnly(n);
  }

  lemma LastTwo(a: string, b: string)
    ensures Join([a, b]) == EscapePart(a) + "|" + EscapePart(b)
  {
  }

  lemma Before(a: string, rest: seq<string>)
    requires rest != []
    ensures Join([a] + rest) == EscapePart(a) + "|" + Join(rest)
  {
    assert ([a] + rest)[1..] == rest;
  }
}
