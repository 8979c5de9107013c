/** Canonical JSON text (RFC 8785) as a faithful key: a reader that inverts the writer shows that two
    values get the same text exactly when they are the same JSON value, whatever the member order,
    the omitted members and the sign of zero. */
module Canonical {
  import opened Store
  import opened JsonText
  import Words

  /** Finite numbers other than negative zero, numbered from zero, and how they print. */
  datatype Numbers = Numbers(show: nat -> Text, unshow: Text -> nat)

  predicate NumberUnit(c: int) { 0x30 <= c < 0x3a || c == 0x2b || c == 0x2d || c == 0x2e || c == 0x65 }

  /** The printer is injective and uses digits, signs, the point and `e` only. */
  ghost predicate NumbersOk(nm: Numbers) {
    && (forall n :: nm.show(n) != [] && nm.unshow(nm.show(n)) == n)
    && (forall n, i :: 0 <= i < |nm.show(n)| ==> NumberUnit(nm.show(n)[i]))
  }

  datatype Value =
    | Undefined | Function | Symbol | Null | Bool(b: bool)
    | Num(n: nat) | NegZero | NonFinite | BigInt | Collection
    | Str(s: Text) | Arr(items: seq<Value>) | Obj(members: seq<Member>)
  datatype Member = Member(key: Text, value: Value)

  /** JSON values as they are compared: objects are maps. */
  datatype Json =
    | JNull | JBool(b: bool) | JNum(n: nat) | JStr(s: Text) | JArr(items: seq<Json>) | JObj(members: map<Text, Json>)

  predicate Omitted(v: Value) { v.Undefined? || v.Function? || v.Symbol? }

  /** No number, BigInt, Map or Set that the scheme refuses is looked at. */
  predicate Printable(v: Value) {
    match v
    case NonFinite => false
    case BigInt => false
    case Collection => false
    case Arr(items) => forall i :: 0 <= i < |items| ==> Printable(items[i])
    case Obj(ms) => forall i :: 0 <= i < |ms| ==> Omitted(ms[i].value) || Printable(ms[i].value)
    case _ => true
  }

  predicate IsText(s: Text) { forall c :: c in s ==> IsUnit(c) }

  /** Strings are code units, and an object has each key once. */
  predicate WellFormed(v: Value) {
    match v
    case Str(s) => IsText(s)
    case Arr(items) => forall i :: 0 <= i < |items| ==> WellFormed(items[i])
    case Obj(ms) =>
      && (forall i :: 0 <= i < |ms| ==> IsText(ms[i].key) && WellFormed(ms[i].value))
      && (forall i, j :: 0 <= i < j < |ms| ==> ms[i].key != ms[j].key)
    case _ => true
  }

  // ---- writing --------------------------------------------------------------------------------

  const NULL_TEXT: Text := [0x6e, 0x75, 0x6c, 0x6c]
  const TRUE_TEXT: Text := [0x74, 0x72, 0x75, 0x65]
  const FALSE_TEXT: Text := [0x66, 0x61, 0x6c, 0x73, 0x65]

  datatype Entry = Entry(key: Text, text: Text, json: Json)

  function TextOf(nm: Numbers, v: Value): Text
    requires Printable(v)
  {
    match v
    case Undefined => NULL_TEXT
    case Function => NULL_TEXT
    case Symbol => NULL_TEXT
    case Null => NULL_TEXT
    case Bool(b) => if b then TRUE_TEXT else FALSE_TEXT
    case Num(n) => nm.show(n)
    case NegZero => nm.show(0)
    case Str(s) => Quote(s)
    case Arr(items) => [OPEN_ARRAY] + (Commas(TextsOf(nm, items)) + [CLOSE_ARRAY])
    case Obj(ms) => [OPEN_OBJECT] + (Commas(Lines(Sort(Entries(nm, ms)))) + [CLOSE_OBJECT])
  }

  function TextsOf(nm: Numbers, items: seq<Value>): (r: seq<Text>)
    requires forall i :: 0 <= i < |items| ==> Printable(items[i])
    ensures |r| == |items|
  {
    if items == [] then [] else [TextOf(nm, items[0])] + TextsOf(nm, items[1..])
  }

  /** The members that are kept, each with its text and its meaning. */
  function Entries(nm: Numbers, ms: seq<Member>): seq<Entry>
    requires forall i :: 0 <= i < |ms| ==> Omitted(ms[i].value) || Printable(ms[i].value)
  {
    if ms == [] then []
    else if Omitted(ms[0].value) then Entries(nm, ms[1..])
    else [Entry(ms[0].key, TextOf(nm, ms[0].value), Denote(ms[0].value))] + Entries(nm, ms[1..])
  }

  function Commas(ts: seq<Text>): Text {
    if ts == [] then [] else if |ts| == 1 then ts[0] else ts[0] + ([COMMA] + Commas(ts[1..]))
  }

  function Line(e: Entry): Text { Quote(e.key) + ([COLON] + e.text) }

  function Lines(es: seq<Entry>): (r: seq<Text>)
    ensures |r| == |es|
  {
    if es == [] then [] else [Line(es[0])] + Lines(es[1..])
  }

  /** Sorting by code units of the key. */
  function Insert(e: Entry, es: seq<Entry>): seq<Entry> {
    if es == [] || Words.Le(e.key, es[0].key) then [e] + es else [es[0]] + Insert(e, es[1..])
  }

  function Sort(es: seq<Entry>): seq<Entry> { if es == [] then [] else Insert(es[0], Sort(es[1..])) }

  // ---- meaning --------------------------------------------------------------------------------

  function Denote(v: Value): Json {
    match v
    case Bool(b) => JBool(b)
    case Num(n) => JNum(n)
    case NegZero => JNum(0)
    case Str(s) => JStr(s)
    case Arr(items) => JArr(Denotes(items))
    case Obj(ms) => JObj(DenoteMembers(ms))
    case _ => JNull
  }

  function Denotes(items: seq<Value>): (r: seq<Json>)
    ensures |r| == |items|
  {
    if items == [] then [] else [Denote(items[0])] + Denotes(items[1..])
  }

  function DenoteMembers(ms: seq<Member>): map<Text, Json> {
    if ms == [] then map[]
    else if Omitted(ms[0].value) then DenoteMembers(ms[1..])
    else DenoteMembers(ms[1..])[ms[0].key := Denote(ms[0].value)]
  }

  // ---- reading --------------------------------------------------------------------------------

  function NumberLength(t: Text): (n: nat)
    ensures n <= |t|
  {
    if t == [] || !NumberUnit(t[0]) then 0 else 1 + NumberLength(t[1..])
  }

  function Word(word: Text, json: Json, t: Text): Option<Parsed<Json>> {
    if word <= t then Some(Parsed(json, t[|word|..])) else None
  }

  function ReadValue(nm: Numbers, t: Text): (p: Option<Parsed<Json>>)
    ensures p.Some? ==> |p.value.rest| < |t|
    decreases |t|, 1
  {
    if t == [] then None
    else if t[0] == QUOTE then
      var p := ReadChars(t[1..]);
      if p.None? then None else Some(Parsed(JStr(p.value.value), p.value.rest))
    else if t[0] == OPEN_ARRAY then
      if |t| > 1 && t[1] == CLOSE_ARRAY then Some(Parsed(JArr([]), t[2..]))
      else
        var p := ReadItems(nm, t[1..]);
        if p.None? then None else Some(Parsed(JArr(p.value.value), p.value.rest))
    else if t[0] == OPEN_OBJECT then
      if |t| > 1 && t[1] == CLOSE_OBJECT then Some(Parsed(JObj(map[]), t[2..]))
      else
        var p := ReadMembers(nm, t[1..]);
        if p.None? then None else Some(Parsed(JObj(p.value.value), p.value.rest))
    else if NumberUnit(t[0]) then Some(Parsed(JNum(nm.unshow(t[..NumberLength(t)])), t[NumberLength(t)..]))
    else if t[0] == 0x6e then Word(NULL_TEXT, JNull, t)
    else if t[0] == 0x74 then Word(TRUE_TEXT, JBool(true), t)
    else Word(FALSE_TEXT, JBool(false), t)
  }

  function ReadItems(nm: Numbers, t: Text): (p: Option<Parsed<seq<Json>>>)
    ensures p.Some? ==> |p.value.rest| < |t|
    decreases |t|, 2
  {
    var v := ReadValue(nm, t);
    if v.None? || v.value.rest == [] then None
    else if v.value.rest[0] == CLOSE_ARRAY then Some(Parsed([v.value.value], v.value.rest[1..]))
    else if v.value.rest[0] != COMMA then None
    else
      var more := ReadItems(nm, v.value.rest[1..]);
      if more.None? then None else Some(Parsed([v.value.value] + more.value.value, more.value.rest))
  }

  function ReadMembers(nm: Numbers, t: Text): (p: Option<Parsed<map<Text, Json>>>)
    ensures p.Some? ==> |p.value.rest| < |t|
    decreases |t|, 2
  {
    if t == [] || t[0] != QUOTE then None
    else
      var k := ReadChars(t[1..]);
      if k.None? || k.value.rest == [] || k.value.rest[0] != COLON then None
      else
        var v := ReadValue(nm, k.value.rest[1..]);
        if v.None? || v.value.rest == [] then None
        else if v.value.rest[0] == CLOSE_OBJECT then Some(Parsed(map[k.value.value := v.value.value],
                                                                 v.value.rest[1..]))
        else if v.value.rest[0] != COMMA then None
        else
          var more := ReadMembers(nm, v.value.rest[1..]);
          if more.None? then None else Some(Parsed(more.value.value[k.value.value := v.value.value], more.value.rest))
  }

  // ---- reading inverts writing ----------------------------------------------------------------

  predicate Delimited(r: Text) { r == [] || !NumberUnit(r[0]) }

  /** Whatever follows, the text reads as the value. */
  ghost predicate Reads(nm: Numbers, text: Text, json: Json) {
    forall r :: Delimited(r) ==> ReadValue(nm, text + r) == Some(Parsed(json, r))
  }

  lemma {:induction false} NumberEnds(s: Text, r: Text)
    requires (forall i :: 0 <= i < |s| ==> NumberUnit(s[i])) && Delimited(r)
    ensures NumberLength(s + r) == |s|
    decreases |s|
  {
    if s == [] { assert s + r == r; } else {
      assert (s + r)[1..] == s[1..] + r;
      NumberEnds(s[1..], r);
    }
  }

  lemma NumberReads(nm: Numbers, n: nat)
    requires NumbersOk(nm)
    ensures Reads(nm, nm.show(n), JNum(n))
  {
    var s := nm.show(n);
    forall r | Delimited(r) ensures ReadValue(nm, s + r) == Some(Parsed(JNum(n), r)) {
      NumberEnds(s, r);
      assert (s + r)[..|s|] == s && (s + r)[|s|..] == r && (s + r)[0] == s[0];
    }
  }

  lemma WordReads(nm: Numbers, word: Text, json: Json)
    requires (word == NULL_TEXT && json == JNull) || (word == TRUE_TEXT &&
               json == JBool(true)) || (word == FALSE_TEXT && json == JBool(false))
    ensures Reads(nm, word, json)
  {
    forall r | Delimited(r) ensures ReadValue(nm, word + r) == Some(Parsed(json, r)) {
      assert (word + r)[|word|..] == r && word <= word + r && (word + r)[0] == word[0];
    }
  }

  lemma StringReads(nm: Numbers, s: Text)
    requires IsText(s)
    ensures Reads(nm, Quote(s), JStr(s))
  {
    forall r | Delimited(r) ensures ReadValue(nm, Quote(s) + r) == Some(Parsed(JStr(s), r)) {
      KeyReads(s, r);
    }
  }

  /** A text that reads does not start like the end of a list. */
  lemma StartsValue(nm: Numbers, text: Text, json: Json)
    requires Reads(nm, text, json)
    ensures text != [] && text[0] != CLOSE_ARRAY && text[0] != CLOSE_OBJECT
  {
    assert ReadValue(nm, text + []) == Some(Parsed(json, []));
    assert text + [] == text;
  }

  lemma LastItemReads(nm: Numbers, text: Text, json: Json, r: Text)
    requires Reads(nm, text, json)
    ensures ReadItems(nm, text + ([CLOSE_ARRAY] + r)) == Some(Parsed([json], r))
  {
    assert ReadValue(nm, text + ([CLOSE_ARRAY] + r)) == Some(Parsed(json, [CLOSE_ARRAY] + r));
    Drop([CLOSE_ARRAY], r);
  }

  lemma FirstItemReads(nm: Numbers, text: Text, json: Json, more: Text, p: Parsed<seq<Json>>)
    requires Reads(nm, text, json) && ReadItems(nm, more) == Some(p)
    ensures ReadItems(nm, text + ([COMMA] + more)) == Some(Parsed([json] + p.value, p.rest))
  {
    assert ReadValue(nm, text + ([COMMA] + more)) == Some(Parsed(json, [COMMA] + more));
    Drop([COMMA], more);
  }

  lemma {:induction false} ItemsRead(nm: Numbers, ts: seq<Text>, js: seq<Json>, r: Text)
    requires |ts| == |js| > 0 && forall i :: 0 <= i < |ts| ==> Reads(nm, ts[i], js[i])
    ensures ReadItems(nm, Commas(ts) + ([CLOSE_ARRAY] + r)) == Some(Parsed(js, r))
    decreases |ts|
  {
    var close := [CLOSE_ARRAY] + r;
    if |ts| == 1 {
      LastItemReads(nm, ts[0], js[0], r);
      assert js == [js[0]];
    } else {
      ItemsRead(nm, ts[1..], js[1..], r);
      Assoc(ts[0], [COMMA] + Commas(ts[1..]), close);
      Assoc([COMMA], Commas(ts[1..]), close);
      FirstItemReads(nm, ts[0], js[0], Commas(ts[1..]) + close, Parsed(js[1..], r));
      assert js == [js[0]] + js[1..];
    }
  }

  lemma ArrayOpens(nm: Numbers, body: Text, js: seq<Json>, r: Text)
    requires body != [] && body[0] != CLOSE_ARRAY && ReadItems(nm, body + ([CLOSE_ARRAY] + r)) == Some(Parsed(js, r))
    ensures ReadValue(nm, [OPEN_ARRAY] + (body + [CLOSE_ARRAY]) + r) == Some(Parsed(JArr(js), r))
  {
    var rest := body + ([CLOSE_ARRAY] + r);
    Assoc([OPEN_ARRAY], body + [CLOSE_ARRAY], r);
    Assoc(body, [CLOSE_ARRAY], r);
    Drop([OPEN_ARRAY], rest);
    assert ([OPEN_ARRAY] + rest)[1] == body[0];
  }

  lemma EmptyReads(nm: Numbers, r: Text)
    ensures ReadValue(nm, [OPEN_ARRAY] + ([] + [CLOSE_ARRAY]) + r) == Some(Parsed(JArr([]), r))
    ensures ReadValue(nm, [OPEN_OBJECT] + ([] + [CLOSE_OBJECT]) + r) == Some(Parsed(JObj(map[]), r))
  {
    assert ([OPEN_ARRAY] + ([] + [CLOSE_ARRAY]) + r)[2..] == r;
    assert ([OPEN_OBJECT] + ([] + [CLOSE_OBJECT]) + r)[2..] == r;
  }

  lemma ArrayReads(nm: Numbers, ts: seq<Text>, js: seq<Json>)
    requires |ts| == |js| && forall i :: 0 <= i < |ts| ==> Reads(nm, ts[i], js[i])
    ensures Reads(nm, [OPEN_ARRAY] + (Commas(ts) + [CLOSE_ARRAY]), JArr(js))
  {
    forall r | Delimited(r)
      ensures ReadValue(nm, [OPEN_ARRAY] + (Commas(ts) + [CLOSE_ARRAY]) + r) == Some(Parsed(JArr(js), r)) {
      if ts == [] {
        EmptyReads(nm, r);
      } else {
        ItemsRead(nm, ts, js, r);
        StartsValue(nm, ts[0], js[0]);
        ArrayOpens(nm, Commas(ts), js, r);
      }
    }
  }

  function MapOf(es: seq<Entry>): map<Text, Json> {
    if es == [] then map[] else MapOf(es[1..])[es[0].key := es[0].json]
  }

  lemma KeyReads(key: Text, text: Text)
    requires IsText(key)
    ensures (Quote(key) + text)[0] == QUOTE && ReadChars((Quote(key) + text)[1..]) == Some(Parsed(key, text))
  {
    CharsInverse(key, text);
    Assoc([QUOTE], Escape(key) + [QUOTE], text);
    Drop([QUOTE], Escape(key) + [QUOTE] + text);
    Assoc(Escape(key), [QUOTE], text);
  }

  /** The reader's steps on one member: key, colon, value. */
  lemma MemberReads(nm: Numbers, e: Entry, r: Text)
    requires IsText(e.key) && Reads(nm, e.text, e.json) && Delimited(r)
    ensures
      var t := Line(e) + r;
      && t != [] && t[0] == QUOTE && ReadChars(t[1..]) == Some(Parsed(e.key, [COLON] + (e.text + r)))
      && ReadValue(nm, ([COLON] + (e.text + r))[1..]) == Some(Parsed(e.json, r))
  {
    KeyReads(e.key, [COLON] + (e.text + r));
    Assoc(Quote(e.key), [COLON] + e.text, r);
    Assoc([COLON], e.text, r);
    Drop([COLON], e.text + r);
  }

  lemma {:induction false} MembersRead(nm: Numbers, es: seq<Entry>, r: Text)
    requires es != [] && forall i :: 0 <= i < |es| ==> IsText(es[i].key) && Reads(nm, es[i].text, es[i].json)
    ensures ReadMembers(nm, Commas(Lines(es)) + ([CLOSE_OBJECT] + r)) == Some(Parsed(MapOf(es), r))
    decreases |es|
  {
    var close := [CLOSE_OBJECT] + r;
    if |es| == 1 {
      assert Lines(es) == [Line(es[0])] && MapOf(es[1..]) == map[];
      MemberReads(nm, es[0], close);
      Drop([CLOSE_OBJECT], r);
    } else {
      var more := Commas(Lines(es[1..])) + close;
      MembersRead(nm, es[1..], r);
      assert Lines(es)[1..] == Lines(es[1..]);
      Assoc(Line(es[0]), [COMMA] + Commas(Lines(es[1..])), close);
      Assoc([COMMA], Commas(Lines(es[1..])), close);
      MemberReads(nm, es[0], [COMMA] + more);
      Drop([COMMA], more);
    }
  }

  lemma ObjectOpens(nm: Numbers, body: Text, m: map<Text, Json>, r: Text)
    requires body != [] && body[0] != CLOSE_OBJECT && ReadMembers(nm, body + ([CLOSE_OBJECT] + r)) == Some(Parsed(m, r))
    ensures ReadValue(nm, [OPEN_OBJECT] + (body + [CLOSE_OBJECT]) + r) == Some(Parsed(JObj(m), r))
  {
    var rest := body + ([CLOSE_OBJECT] + r);
    Assoc([OPEN_OBJECT], body + [CLOSE_OBJECT], r);
    Assoc(body, [CLOSE_OBJECT], r);
    Drop([OPEN_OBJECT], rest);
    assert ([OPEN_OBJECT] + rest)[1] == body[0];
  }

  lemma LinesStart(es: seq<Entry>)
    requires es != []
    ensures Commas(Lines(es)) != [] && Commas(Lines(es))[0] == QUOTE
  {
    assert Lines(es)[0] == Line(es[0]) && Line(es[0])[0] == QUOTE;
  }

  lemma ObjectReads(nm: Numbers, es: seq<Entry>)
    requires forall i :: 0 <= i < |es| ==> IsText(es[i].key) && Reads(nm, es[i].text, es[i].json)
    ensures Reads(nm, [OPEN_OBJECT] + (Commas(Lines(es)) + [CLOSE_OBJECT]), JObj(MapOf(es)))
  {
    forall r | Delimited(r)
      ensures ReadValue(nm, [OPEN_OBJECT] + (Commas(Lines(es)) + [CLOSE_OBJECT]) + r) ==
                Some(Parsed(JObj(MapOf(es)), r)) {
      if es == [] {
        EmptyReads(nm, r);
      } else {
        MembersRead(nm, es, r);
        LinesStart(es);
        ObjectOpens(nm, Commas(Lines(es)), MapOf(es), r);
      }
    }
  }

  // ---- sorting --------------------------------------------------------------------------------

  ghost predicate Distinct(es: seq<Entry>) { forall i, j :: 0 <= i < j < |es| ==> es[i].key != es[j].key }

  lemma {:induction false} InsertHas(e: Entry, es: seq<Entry>)
    ensures forall x :: x in Insert(e, es) <==> x == e || x in es
    decreases |es|
  {
    if es != [] && !Words.Le(e.key, es[0].key) {
      InsertHas(e, es[1..]);
      assert es == [es[0]] + es[1..];
    }
  }

  lemma {:induction false} SortHas(es: seq<Entry>)
    ensures forall x :: x in Sort(es) <==> x in es
    decreases |es|
  {
    if es == [] {
    } else {
      SortHas(es[1..]);
      InsertHas(es[0], Sort(es[1..]));
      assert es == [es[0]] + es[1..];
    }
  }

  lemma {:induction false} InsertMap(e: Entry, es: seq<Entry>)
    requires forall x :: x in es ==> x.key != e.key
    ensures MapOf(Insert(e, es)) == MapOf(es)[e.key := e.json]
    decreases |es|
  {
    if es == [] || Words.Le(e.key, es[0].key) {
      assert ([e] + es)[1..] == es;
    } else {
      InsertMap(e, es[1..]);
      assert ([es[0]] + Insert(e, es[1..]))[1..] == Insert(e, es[1..]);
      assert es[0] in es;
    }
  }

  lemma {:induction false} SortMap(es: seq<Entry>)
    requires Distinct(es)
    ensures MapOf(Sort(es)) == MapOf(es)
    decreases |es|
  {
    if es == [] {
    } else {
      SortMap(es[1..]);
      SortHas(es[1..]);
      InsertMap(es[0], Sort(es[1..]));
    }
  }

  // ---- members and entries --------------------------------------------------------------------

  predicate Members(ms: seq<Member>) { forall i :: 0 <= i < |ms| ==> Omitted(ms[i].value) || Printable(ms[i].value) }

  function EntryOf(nm: Numbers, m: Member): Entry
    requires Printable(m.value)
  {
    Entry(m.key, TextOf(nm, m.value), Denote(m.value))
  }

  /** Entries come from the kept members, and from all of them. */
  lemma {:induction false} EntriesFrom(nm: Numbers, ms: seq<Member>)
    requires Members(ms)
    ensures forall e :: e in Entries(nm, ms) ==>
              exists i :: 0 <= i < |ms| && !Omitted(ms[i].value) && e == EntryOf(nm, ms[i])
    ensures MapOf(Entries(nm, ms)) == DenoteMembers(ms)
    decreases |ms|
  {
    if ms == [] {
    } else {
      EntriesFrom(nm, ms[1..]);
      var es, more := Entries(nm, ms), Entries(nm, ms[1..]);
      forall e | e in es ensures exists i :: 0 <= i < |ms| && !Omitted(ms[i].value) && e == EntryOf(nm, ms[i]) {
        if e in more {
          var i :| 0 <= i < |ms[1..]| && !Omitted(ms[1..][i].value) && e == EntryOf(nm, ms[1..][i]);
          assert ms[1..][i] == ms[i + 1];
        } else {
          assert e == EntryOf(nm, ms[0]);
        }
      }
      if !Omitted(ms[0].value) { assert es[1..] == more; }
    }
  }

  lemma {:induction false} EntriesDistinct(nm: Numbers, ms: seq<Member>)
    requires Members(ms) && forall i, j :: 0 <= i < j < |ms| ==> ms[i].key != ms[j].key
    ensures Distinct(Entries(nm, ms))
    decreases |ms|
  {
    if ms == [] {
    } else {
      EntriesDistinct(nm, ms[1..]);
      EntriesFrom(nm, ms[1..]);
      var more := Entries(nm, ms[1..]);
      forall k | 0 <= k < |more| ensures more[k].key != ms[0].key {
        assert more[k] in more;
        var i :| 0 <= i < |ms[1..]| && !Omitted(ms[1..][i].value) && more[k] == EntryOf(nm, ms[1..][i]);
        assert ms[1..][i] == ms[i + 1];
      }
    }
  }

  lemma {:induction false} TextsAt(nm: Numbers, items: seq<Value>, i: nat)
    requires (forall k :: 0 <= k < |items| ==> Printable(items[k])) && i < |items|
    ensures TextsOf(nm, items)[i] == TextOf(nm, items[i]) && Denotes(items)[i] == Denote(items[i])
    decreases |items|
  {
    if i == 0 {
    } else {
      TextsAt(nm, items[1..], i - 1);
    }
  }

  // ---- the text reads as the value ------------------------------------------------------------

  lemma {:induction false} ValueReads(nm: Numbers, v: Value)
    requires NumbersOk(nm) && Printable(v) && WellFormed(v)
    ensures Reads(nm, TextOf(nm, v), Denote(v))
    decreases v
  {
    match v
    case Bool(b) => WordReads(nm, if b then TRUE_TEXT else FALSE_TEXT, JBool(b));
    case Num(n) => NumberReads(nm, n);
    case NegZero => NumberReads(nm, 0);
    case Str(s) => StringReads(nm, s);
    case Arr(items) =>
      forall i | 0 <= i < |items| ensures Reads(nm, TextsOf(nm, items)[i], Denotes(items)[i]) {
        ValueReads(nm, items[i]);
        TextsAt(nm, items, i);
      }
      ArrayReads(nm, TextsOf(nm, items), Denotes(items));
    case Obj(ms) =>
      forall i | 0 <= i < |ms| && !Omitted(ms[i].value)
        ensures Reads(nm, TextOf(nm, ms[i].value), Denote(ms[i].value)) {
        ValueReads(nm, ms[i].value);
      }
      SortedReads(nm, ms);
    case _ => WordReads(nm, NULL_TEXT, JNull);
  }

  lemma SortedReads(nm: Numbers, ms: seq<Member>)
    requires Members(ms) && WellFormed(Obj(ms))
    requires forall i :: 0 <= i < |ms| && !Omitted(ms[i].value) ==>
               Reads(nm, TextOf(nm, ms[i].value), Denote(ms[i].value))
    ensures Reads(nm, TextOf(nm, Obj(ms)), Denote(Obj(ms)))
  {
    var es := Entries(nm, ms);
    EntriesFrom(nm, ms);
    EntriesDistinct(nm, ms);
    SortHas(es);
    SortMap(es);
    forall i | 0 <= i < |Sort(es)| ensures IsText(Sort(es)[i].key) && Reads(nm, Sort(es)[i].text, Sort(es)[i].json) {
      assert Sort(es)[i] in es;
      var j :| 0 <= j < |ms| && !Omitted(ms[j].value) && Sort(es)[i] == EntryOf(nm, ms[j]);
    }
    ObjectReads(nm, Sort(es));
  }

  lemma SameTextSameMeaning(nm: Numbers, a: Value, b: Value)
    requires NumbersOk(nm) && Printable(a) && WellFormed(a) && Printable(b) && WellFormed(b)
    requires TextOf(nm, a) == TextOf(nm, b)
    ensures Denote(a) == Denote(b)
  {
    ValueReads(nm, a);
    ValueReads(nm, b);
    assert ReadValue(nm, TextOf(nm, a) + []) == Some(Parsed(Denote(a), []));
    assert ReadValue(nm, TextOf(nm, b) + []) == Some(Parsed(Denote(b), []));
  }

  // ---- the value determines the text ----------------------------------------------------------

  ghost predicate Ascending(es: seq<Entry>) {
    forall i, j :: 0 <= i < j < |es| ==> Words.Le(es[i].key, es[j].key) && es[i].key != es[j].key
  }

  lemma {:induction false} InsertAscends(e: Entry, es: seq<Entry>)
    requires Ascending(es) && forall x :: x in es ==> x.key != e.key
    ensures Ascending(Insert(e, es))
    decreases |es|
  {
    if es == [] {
    } else {
      Words.LeTotal(e.key, es[0].key);
      if Words.Le(e.key, es[0].key) {
        forall j | 0 <= j < |es| ensures Words.Le(e.key, es[j].key) && e.key != es[j].key {
          assert es[j] in es;
          if j > 0 { Words.LeTransitive(e.key, es[0].key, es[j].key); }
        }
      } else {
        InsertAscends(e, es[1..]);
        InsertHas(e, es[1..]);
        var more := Insert(e, es[1..]);
        forall j | 0 <= j < |more| ensures Words.Le(es[0].key, more[j].key) && es[0].key != more[j].key {
          assert more[j] in more && es[0] in es;
        }
      }
    }
  }

  lemma {:induction false} SortAscends(es: seq<Entry>)
    requires Distinct(es)
    ensures Ascending(Sort(es))
    decreases |es|
  {
    if es == [] {
    } else {
      SortAscends(es[1..]);
      SortHas(es[1..]);
      InsertAscends(es[0], Sort(es[1..]));
    }
  }

  /** Every entry of `a` has one of the same key and text in `b`. */
  ghost predicate Covers(a: seq<Entry>, b: seq<Entry>) {
    forall x {:trigger Has(b, x.key, x.text)} :: x in a ==> Has(b, x.key, x.text)
  }

  ghost predicate Has(es: seq<Entry>, key: Text, text: Text) { exists y :: y in es && y.key == key && y.text == text }

  lemma HeadIsLeast(a: seq<Entry>, x: Entry)
    requires Ascending(a) && x in a
    ensures Words.Le(a[0].key, x.key) && (x.key == a[0].key ==> x == a[0])
  {
    Words.LeReflexive(x.key);
  }

  lemma HeadsMatch(a: seq<Entry>, b: seq<Entry>)
    requires Ascending(a) && Ascending(b) && Covers(a, b) && Covers(b, a) && a != [] && b != []
    ensures a[0].key == b[0].key && a[0].text == b[0].text
  {
    assert a[0] in a && b[0] in b && Has(b, a[0].key, a[0].text) && Has(a, b[0].key, b[0].text);
    var y :| y in b && y.key == a[0].key && y.text == a[0].text;
    var x :| x in a && x.key == b[0].key && x.text == b[0].text;
    HeadIsLeast(a, x);
    HeadIsLeast(b, y);
    Words.LeTotal(a[0].key, b[0].key);
  }

  lemma TailsMatch(a: seq<Entry>, b: seq<Entry>)
    requires Ascending(a) && Ascending(b) && Covers(a, b) && a != [] && b != [] && a[0].key == b[0].key
    ensures Covers(a[1..], b[1..])
  {
    forall x | x in a[1..] ensures Has(b[1..], x.key, x.text) {
      assert x in a && Has(b, x.key, x.text);
      var y :| y in b && y.key == x.key && y.text == x.text;
      assert x.key != a[0].key;
      assert b == [b[0]] + b[1..];
    }
  }

  lemma {:induction false} SortedUnique(a: seq<Entry>, b: seq<Entry>)
    requires Ascending(a) && Ascending(b) && Covers(a, b) && Covers(b, a)
    ensures Lines(a) == Lines(b)
    decreases |a|
  {
    assert a == [] || (a[0] in a && Has(b, a[0].key, a[0].text));
    assert b == [] || (b[0] in b && Has(a, b[0].key, b[0].text));
    if a != [] {
      HeadsMatch(a, b);
      TailsMatch(a, b);
      TailsMatch(b, a);
      SortedUnique(a[1..], b[1..]);
    }
  }

  lemma {:induction false} MapHas(es: seq<Entry>)
    requires Distinct(es)
    ensures forall e :: e in es ==> e.key in MapOf(es) && MapOf(es)[e.key] == e.json
    ensures forall k :: k in MapOf(es) ==> exists e :: e in es && e.key == k
    decreases |es|
  {
    if es == [] {
    } else {
      MapHas(es[1..]);
      assert es == [es[0]] + es[1..];
      forall e | e in es ensures e.key in MapOf(es) && MapOf(es)[e.key] == e.json {
        if e != es[0] {
          var i :| 0 <= i < |es| && es[i] == e;
          assert es[1..][i - 1] == e;
        }
      }
      assert es[0] in es;
    }
  }

  /** Equal meanings, and equal texts wherever meanings are equal: one member list covers the other. */
  lemma EntriesCover(a: seq<Entry>, b: seq<Entry>)
    requires Distinct(a) && Distinct(b) && MapOf(a) == MapOf(b)
    requires forall x, y :: x in a && y in b && x.json == y.json ==> x.text == y.text
    ensures Covers(a, b)
  {
    MapHas(a);
    MapHas(b);
    forall x | x in a ensures Has(b, x.key, x.text) {
      assert x.key in MapOf(b);
      var y :| y in b && y.key == x.key;
      assert x.json == y.json;
    }
  }

  lemma {:induction false} SameMeaningSameText(nm: Numbers, a: Value, b: Value)
    requires Printable(a) && WellFormed(a) && Printable(b) && WellFormed(b) && Denote(a) == Denote(b)
    ensures TextOf(nm, a) == TextOf(nm, b)
    decreases a
  {
    if a.Arr? {
      assert b.Arr?;
      forall i | 0 <= i < |a.items| ensures TextsOf(nm, a.items)[i] == TextsOf(nm, b.items)[i] {
        TextsAt(nm, a.items, i);
        TextsAt(nm, b.items, i);
        assert |Denotes(a.items)| == |Denotes(b.items)|;
        SameMeaningSameText(nm, a.items[i], b.items[i]);
      }
      assert TextsOf(nm, a.items) == TextsOf(nm, b.items);
    } else if a.Obj? {
      assert b.Obj?;
      forall i, j | 0 <= i < |a.members| && 0 <= j < |b.members| && !Omitted(a.members[i].value) &&
          !Omitted(b.members[j].value)
                    && Denote(a.members[i].value) == Denote(b.members[j].value)
        ensures TextOf(nm, a.members[i].value) == TextOf(nm, b.members[j].value)
      {
        SameMeaningSameText(nm, a.members[i].value, b.members[j].value);
      }
      SameMembersSameText(nm, a.members, b.members);
    }
  }

  lemma SameMembersSameText(nm: Numbers, xs: seq<Member>, ys: seq<Member>)
    requires Members(xs) && Members(ys) && WellFormed(Obj(xs)) && WellFormed(Obj(ys))
    requires DenoteMembers(xs) == DenoteMembers(ys)
    requires forall i, j :: 0 <= i < |xs| && 0 <= j < |ys| && !Omitted(xs[i].value) && !Omitted(ys[j].value) ==>
               (Denote(xs[i].value) == Denote(ys[j].value) ==> TextOf(nm, xs[i].value) == TextOf(nm, ys[j].value))
    ensures Lines(Sort(Entries(nm, xs))) == Lines(Sort(Entries(nm, ys)))
  {
    var a, b := Entries(nm, xs), Entries(nm, ys);
    EntriesFrom(nm, xs);
    EntriesFrom(nm, ys);
    EntriesDistinct(nm, xs);
    EntriesDistinct(nm, ys);
    forall x, y | x in a && y in b && x.json == y.json ensures x.text == y.text {
      var i :| 0 <= i < |xs| && !Omitted(xs[i].value) && x == EntryOf(nm, xs[i]);
      var j :| 0 <= j < |ys| && !Omitted(ys[j].value) && y == EntryOf(nm, ys[j]);
    }
    EntriesCover(a, b);
    EntriesCover(b, a);
    SortAscends(a);
    SortAscends(b);
    SortCovers(a, b);
    SortCovers(b, a);
    SortedUnique(Sort(a), Sort(b));
  }

  lemma SortCovers(a: seq<Entry>, b: seq<Entry>)
    requires Covers(a, b)
    ensures Covers(Sort(a), Sort(b))
  {
    SortHas(a);
    SortHas(b);
    forall x | x in Sort(a) ensures Has(Sort(b), x.key, x.text) {
      assert x in a && Has(b, x.key, x.text);
      var y :| y in b && y.key == x.key && y.text == x.text;
      assert y in Sort(b);
    }
  }

  /** The canonical text is a faithful key. */
  lemma TextIsFaithful(nm: Numbers, a: Value, b: Value)
    requires NumbersOk(nm) && Printable(a) && WellFormed(a) && Printable(b) && WellFormed(b)
    ensures TextOf(nm, a) == TextOf(nm, b) <==> Denote(a) == Denote(b)
  {
    if TextOf(nm, a) == TextOf(nm, b) { SameTextSameMeaning(nm, a, b); }
    if Denote(a) == Denote(b) { SameMeaningSameText(nm, a, b); }
  }

  // ---- the serializer -------------------------------------------------------------------------

  lemma {:induction false} CommasSnoc(ts: seq<Text>, x: Text)
    ensures Commas(ts + [x]) == if ts == [] then x else Commas(ts) + [COMMA] + x
    decreases |ts|
  {
    if |ts| > 1 {
      CommasSnoc(ts[1..], x);
      assert (ts + [x])[1..] == ts[1..] + [x];
      assert Commas(ts + [x]) == ts[0] + ([COMMA] + (Commas(ts[1..]) + [COMMA] + x));
    } else if |ts| == 1 {
      assert (ts + [x])[1..] == [x];
    }
  }

  lemma {:induction false} TextsSnoc(nm: Numbers, items: seq<Value>, v: Value)
    requires (forall k :: 0 <= k < |items| ==> Printable(items[k])) && Printable(v)
    ensures TextsOf(nm, items + [v]) == TextsOf(nm, items) + [TextOf(nm, v)]
    decreases |items|
  {
    if items == [] {
      assert [] + [v] == [v] && TextsOf(nm, []) == [];
    } else {
      assert (items + [v])[1..] == items[1..] + [v];
      TextsSnoc(nm, items[1..], v);
    }
  }

  lemma {:induction false} EntriesSnoc(nm: Numbers, ms: seq<Member>, m: Member)
    requires Members(ms) && (Omitted(m.value) || Printable(m.value))
    ensures Entries(nm, ms + [m]) == if Omitted(m.value) then Entries(nm, ms) else Entries(nm, ms) + [EntryOf(nm, m)]
    decreases |ms|
  {
    if ms == [] {
      assert ms + [m] == [m] && [m][1..] == [];
    } else {
      assert (ms + [m])[1..] == ms[1..] + [m];
      EntriesSnoc(nm, ms[1..], m);
    }
  }

  lemma {:induction false} LinesSnoc(es: seq<Entry>, e: Entry)
    ensures Lines(es + [e]) == Lines(es) + [Line(e)]
    decreases |es|
  {
    if es == [] {
      assert es + [e] == [e] && [e][1..] == [];
    } else {
      assert (es + [e])[1..] == es[1..] + [e];
      LinesSnoc(es[1..], e);
    }
  }

  /** One turn of the array loop. */
  lemma ArrayStep(nm: Numbers, items: seq<Value>, i: nat)
    requires i < |items| && forall k :: 0 <= k <= i ==> Printable(items[k])
    ensures Commas(TextsOf(nm, items[..i + 1])) ==
            if i == 0 then TextOf(nm, items[i]) else Commas(TextsOf(nm, items[..i])) + [COMMA] + TextOf(nm, items[i])
  {
    assert items[..i + 1] == items[..i] + [items[i]];
    TextsSnoc(nm, items[..i], items[i]);
    CommasSnoc(TextsOf(nm, items[..i]), TextOf(nm, items[i]));
  }

  /** One turn of the object loop. */
  lemma ObjectStep(nm: Numbers, ms: seq<Member>, i: nat)
    requires i < |ms| && Members(ms[..i]) && (Omitted(ms[i].value) || Printable(ms[i].value))
    ensures Members(ms[..i + 1])
    ensures Omitted(ms[i].value) ==> Entries(nm, ms[..i + 1]) == Entries(nm, ms[..i])
    ensures !Omitted(ms[i].value) ==> Entries(nm, ms[..i + 1]) != []
    ensures !Omitted(ms[i].value) ==>
              Commas(Lines(Entries(nm, ms[..i + 1]))) ==
              if Entries(nm, ms[..i]) == [] then Line(EntryOf(nm, ms[i]))
                else Commas(Lines(Entries(nm, ms[..i]))) + [COMMA] + Line(EntryOf(nm, ms[i]))
  {
    assert ms[..i + 1] == ms[..i] + [ms[i]];
    EntriesSnoc(nm, ms[..i], ms[i]);
    if !Omitted(ms[i].value) {
      LinesSnoc(Entries(nm, ms[..i]), EntryOf(nm, ms[i]));
      CommasSnoc(Lines(Entries(nm, ms[..i])), Line(EntryOf(nm, ms[i])));
    }
  }

  ghost predicate KeysAscend(ms: seq<Member>) {
    forall i, j :: 0 <= i < j < |ms| ==> Words.Le(ms[i].key, ms[j].key) && ms[i].key != ms[j].key
  }

  ghost predicate SameMembers(a: seq<Member>, b: seq<Member>) { forall m :: m in a <==> m in b }

  /** One step of the key sort: past every larger key. */
  method InsertMember(sorted: seq<Member>, m: Member) returns (r: seq<Member>)
    requires KeysAscend(sorted) && forall x :: x in sorted ==> x.key != m.key
    ensures KeysAscend(r) && forall x :: x in r <==> x == m || x in sorted
  {
    var p := |sorted|;
    while p > 0 && !Words.Le(sorted[p - 1].key, m.key)
      invariant 0 <= p <= |sorted| && forall k :: p <= k < |sorted| ==> Words.Le(m.key, sorted[k].key)
    {
      Words.LeTotal(sorted[p - 1].key, m.key);
      p := p - 1;
    }
    InsertedAscends(sorted, m, p);
    r := sorted[..p] + [m] + sorted[p..];
    assert sorted == sorted[..p] + sorted[p..];
  }

  lemma InsertedAscends(sorted: seq<Member>, m: Member, p: nat)
    requires KeysAscend(sorted) && (forall x :: x in sorted ==> x.key != m.key) && p <= |sorted|
    requires p > 0 ==> Words.Le(sorted[p - 1].key, m.key)
    requires forall k :: p <= k < |sorted| ==> Words.Le(m.key, sorted[k].key)
    ensures KeysAscend(sorted[..p] + [m] + sorted[p..])
  {
    forall k | 0 <= k < p ensures Words.Le(sorted[k].key, m.key) {
      if k < p - 1 { Words.LeTransitive(sorted[k].key, sorted[p - 1].key, m.key); }
    }
    forall k | 0 <= k < |sorted| ensures sorted[k].key != m.key { assert sorted[k] in sorted; }
  }

  method SortByKey(ms: seq<Member>) returns (r: seq<Member>)
    requires forall i, j :: 0 <= i < j < |ms| ==> ms[i].key != ms[j].key
    ensures KeysAscend(r) && SameMembers(r, ms)
  {
    r := [];
    for n := 0 to |ms|
      invariant KeysAscend(r) && SameMembers(r, ms[..n])
    {
      assert ms[..n + 1] == ms[..n] + [ms[n]];
      forall x | x in r ensures x.key != ms[n].key {
        assert x in ms[..n];
      }
      r := InsertMember(r, ms[n]);
    }
    assert ms[..|ms|] == ms;
  }

  /** Sorting the keys first and skipping members afterwards gives the same lines. */
  lemma SortThenSkip(nm: Numbers, ms: seq<Member>, sorted: seq<Member>)
    requires Members(ms) && WellFormed(Obj(ms)) && KeysAscend(sorted) && SameMembers(sorted, ms) && Members(sorted)
    ensures Lines(Entries(nm, sorted)) == Lines(Sort(Entries(nm, ms)))
  {
    var a, b := Entries(nm, sorted), Entries(nm, ms);
    EntriesDistinct(nm, ms);
    SortAscends(b);
    EntriesAscend(nm, sorted);
    SortHas(b);
    EntriesInclude(nm, sorted, ms);
    EntriesInclude(nm, ms, sorted);
    assert Covers(a, Sort(b)) by {
      forall x | x in a ensures Has(Sort(b), x.key, x.text) { assert x in Sort(b); }
    }
    assert Covers(Sort(b), a) by {
      forall x | x in Sort(b) ensures Has(a, x.key, x.text) { assert x in a; }
    }
    SortedUnique(a, Sort(b));
  }

  lemma {:induction false} EntriesAscend(nm: Numbers, ms: seq<Member>)
    requires Members(ms) && KeysAscend(ms)
    ensures Ascending(Entries(nm, ms))
    decreases |ms|
  {
    if ms == [] {
    } else {
      EntriesAscend(nm, ms[1..]);
      EntriesFrom(nm, ms[1..]);
      var more := Entries(nm, ms[1..]);
      forall k | 0 <= k < |more| ensures Words.Le(ms[0].key, more[k].key) && ms[0].key != more[k].key {
        assert more[k] in more;
        var i :| 0 <= i < |ms[1..]| && !Omitted(ms[1..][i].value) && more[k] == EntryOf(nm, ms[1..][i]);
        assert ms[1..][i] == ms[i + 1];
      }
    }
  }

  lemma {:induction false} EntryIn(nm: Numbers, ms: seq<Member>, i: nat)
    requires Members(ms) && i < |ms| && !Omitted(ms[i].value)
    ensures EntryOf(nm, ms[i]) in Entries(nm, ms)
    decreases |ms|
  {
    if i == 0 {
    } else {
      EntryIn(nm, ms[1..], i - 1);
    }
  }

  lemma EntriesInclude(nm: Numbers, xs: seq<Member>, ys: seq<Member>)
    requires Members(xs) && Members(ys) && SameMembers(xs, ys)
    ensures forall e :: e in Entries(nm, xs) ==> e in Entries(nm, ys)
  {
    EntriesFrom(nm, xs);
    forall e | e in Entries(nm, xs) ensures e in Entries(nm, ys) {
      var i :| 0 <= i < |xs| && !Omitted(xs[i].value) && e == EntryOf(nm, xs[i]);
      assert xs[i] in ys;
      var j :| 0 <= j < |ys| && ys[j] == xs[i];
      EntryIn(nm, ys, j);
    }
  }

  /** `serialize`: the text, or nothing where the original throws. */
  method Serialize(nm: Numbers, v: Value) returns (r: Option<Text>)
    requires WellFormed(v)
    ensures r == if Printable(v) then Some(TextOf(nm, v)) else None
    decreases v
  {
    match v {
      case Bool(b) => r := Some(if b then TRUE_TEXT else FALSE_TEXT);
      case Num(n) => r := Some(nm.show(n));
      case NegZero => r := Some(nm.show(0));
      case NonFinite => r := None;
      case BigInt => r := None;
      case Collection => r := None;
      case Str(s) => r := Some(Quote(s));
      case Arr(items) => r := SerializeArray(nm, items);
      case Obj(ms) => r := SerializeObject(nm, ms);
      case _ => r := Some(NULL_TEXT);
    }
  }

  method SerializeArray(nm: Numbers, items: seq<Value>) returns (r: Option<Text>)
    requires WellFormed(Arr(items))
    ensures r == if Printable(Arr(items)) then Some(TextOf(nm, Arr(items))) else None
    decreases items
  {
    var out: Text := [];
    for i := 0 to |items|
      invariant forall k :: 0 <= k < i ==> Printable(items[k])
      invariant out == Commas(TextsOf(nm, items[..i]))
    {
      var x := Serialize(nm, items[i]);
      if x.None? { return None; }
      ArrayStep(nm, items, i);
      out := if i > 0 then out + [COMMA] + x.value else x.value;
    }
    assert items[..|items|] == items;
    r := Some([OPEN_ARRAY] + (out + [CLOSE_ARRAY]));
  }

  method SerializeObject(nm: Numbers, ms: seq<Member>) returns (r: Option<Text>)
    requires WellFormed(Obj(ms))
    ensures r == if Printable(Obj(ms)) then Some(TextOf(nm, Obj(ms))) else None
    decreases ms
  {
    var sorted := SortByKey(ms);
    var out: Text, first := [], true;
    for i := 0 to |sorted|
      invariant Members(sorted[..i])
      invariant out == Commas(Lines(Entries(nm, sorted[..i]))) && first == (Entries(nm, sorted[..i]) == [])
    {
      var m := sorted[i];
      assert m in ms;
      if !Omitted(m.value) {
        ghost var j :| 0 <= j < |ms| && ms[j] == m;
        assert WellFormed(m.value) && ms[j].value == m.value;
        var x := Serialize(nm, m.value);
        if x.None? { return None; }
        var line := Quote(m.key) + ([COLON] + x.value);
        out := if first then line else out + [COMMA] + line;
        first := false;
      }
      ObjectStep(nm, sorted, i);
    }
    assert sorted[..|sorted|] == sorted;
    forall i | 0 <= i < |ms| ensures Omitted(ms[i].value) || Printable(ms[i].value) { assert ms[i] in sorted; }
    SortThenSkip(nm, ms, sorted);
    r := Some([OPEN_OBJECT] + (out + [CLOSE_OBJECT]));
  }
}
