/** The timestamp cursor strategy: the keyset watermark `(value, tieBreak)` with lag and overlap. */
module Timestamp {
  import opened Store
  import Words

  /** `stamp` and `tieOf` read the configured fields; `parse` turns a stamp into epoch milliseconds. */
  datatype Config = Config(
    stamp: Item -> Option<string>, hasTie: bool, tieOf: Item -> Option<string>,
    parse: string -> Option<int>, format: (int, string) -> string,
    lagMs: nat, overlapMs: int, initial: Option<string>)

  datatype Advanced = Advanced(cursor: Cursor, done: bool, items: seq<Item>) | BadCursor

  /** The parsed timestamp of an item; absent when the field is missing or unparseable. */
  function Millis(cfg: Config, item: Item): Option<int> {
    if cfg.stamp(item).None? then None else cfg.parse(cfg.stamp(item).value)
  }

  predicate Keeps(cfg: Config, cutoff: int, item: Item) {
    Millis(cfg, item).None? || Millis(cfg, item).value <= cutoff
  }

  function Kept(cfg: Config, cutoff: int, items: seq<Item>): seq<Item> {
    if items == [] then []
    else Kept(cfg, cutoff, items[..|items| - 1]) +
         if Keeps(cfg, cutoff, items[|items| - 1]) then [items[|items| - 1]] else []
  }

  /** Larger of two tie-breaks by code units; an absent one loses to anything. */
  function MaxString(a: Option<string>, b: Option<string>): Option<string> {
    if a.None? then b else if b.None? then a else if Words.StringLe(b.value, a.value) then a else b
  }

  /** The largest stamp of the kept items so far, with its own string and the largest tie at it. */
  datatype Best = NoBest | Best(ms: int, raw: string, tie: Option<string>)

  function TieOf(cfg: Config, item: Item): Option<string> { if cfg.hasTie then cfg.tieOf(item) else None }

  function Raise(cfg: Config, best: Best, item: Item): Best {
    if Millis(cfg, item).None? then best
    else
      var ms, raw := Millis(cfg, item).value, cfg.stamp(item).value;
      if best.NoBest? || ms > best.ms then Best(ms, raw, TieOf(cfg, item))
      else if ms == best.ms && cfg.hasTie then best.(tie := MaxString(best.tie, cfg.tieOf(item)))
      else best
  }

  function BestOf(cfg: Config, items: seq<Item>): Best {
    if items == [] then NoBest else Raise(cfg, BestOf(cfg, items[..|items| - 1]), items[|items| - 1])
  }

  function Move(cfg: Config, cursor: Cursor, best: Best): Option<Cursor> {
    if best.NoBest? then Some(cursor)
    else if cursor.value.None? then Some(Cursor(Some(best.raw), best.tie))
    else
      var current := cfg.parse(cursor.value.value);
      if current.None? then None
      else if best.ms > current.value then Some(Cursor(Some(best.raw), best.tie))
      else if best.ms == current.value && cfg.hasTie then
        Some(cursor.(tieBreak := MaxString(cursor.tieBreak, best.tie)))
      else Some(cursor)
  }

  /** The specification of one `advance`. `pageCursor` is an explicit watermark returned by `fetch`. */
  function AdvanceSpec(cfg: Config, cursor: Cursor, items: seq<Item>, pageCursor: Option<string>, hasMore: bool,
                       now: int): Advanced {
    if pageCursor.Some? then Advanced(Cursor(pageCursor, None), !hasMore, items)
    else
      var kept := Kept(cfg, now - cfg.lagMs, items);
      var next := Move(cfg, cursor, BestOf(cfg, kept));
      if next.None? then BadCursor else Advanced(next.value, !hasMore, kept)
  }

  method Advance(cfg: Config, cursor: Cursor, items: seq<Item>, pageCursor: Option<string>, hasMore: bool, now: int)
    returns (r: Advanced)
    ensures r == AdvanceSpec(cfg, cursor, items, pageCursor, hasMore, now)
  {
    var done := !hasMore;
    if pageCursor.Some? { return Advanced(Cursor(pageCursor, None), done, items); }
    var cutoff := now - cfg.lagMs;
    var kept: seq<Item> := [];
    var maxRaw: Option<string>, maxMs: int, maxTie: Option<string> := None, 0, None;
    for i := 0 to |items|
      invariant kept == Kept(cfg, cutoff, items[..i])
      invariant BestOf(cfg, kept) == if maxRaw.None? then NoBest else Best(maxMs, maxRaw.value, maxTie)
    {
      assert items[..i + 1][..i] == items[..i];
      var raw := cfg.stamp(items[i]);
      var ms := if raw.None? then None else cfg.parse(raw.value);
      if ms.None? {
        BestOfSnoc(cfg, kept, items[i]);
        kept := kept + [items[i]];
        continue;
      }
      if ms.value > cutoff { continue; }
      BestOfSnoc(cfg, kept, items[i]);
      kept := kept + [items[i]];
      if maxRaw.None? || ms.value > maxMs {
        maxMs, maxRaw := ms.value, raw;
        maxTie := if cfg.hasTie then cfg.tieOf(items[i]) else None;
      } else if ms.value == maxMs && cfg.hasTie {
        maxTie := MaxString(maxTie, cfg.tieOf(items[i]));
      }
    }
    assert items[..|items|] == items;
    if maxRaw.None? { return Advanced(cursor, done, kept); }
    if cursor.value.None? { return Advanced(Cursor(maxRaw, maxTie), done, kept); }
    var current := cfg.parse(cursor.value.value);
    if current.None? { return BadCursor; }
    if maxMs > current.value { return Advanced(Cursor(maxRaw, maxTie), done, kept); }
    if maxMs == current.value && cfg.hasTie {
      return Advanced(Cursor(cursor.value, MaxString(cursor.tieBreak, maxTie)), done, kept);
    }
    return Advanced(cursor, done, kept);
  }

  lemma BestOfSnoc(cfg: Config, items: seq<Item>, x: Item)
    ensures BestOf(cfg, items + [x]) == Raise(cfg, BestOf(cfg, items), x)
  {
    assert (items + [x])[..|items|] == items;
  }

  /** The cursor handed to the first request of a cycle. */
  function ForFetch(cfg: Config, cursor: Cursor): Option<Cursor> {
    if cfg.overlapMs <= 0 || cursor.value.None? then Some(cursor)
    else
      var ms := cfg.parse(cursor.value.value);
      if ms.None? then None else Some(Cursor(Some(cfg.format(ms.value - cfg.overlapMs, cursor.value.value)), None))
  }

  // ---- meaning of a watermark -----------------------------------------------------------------

  /** A cursor by its instant. */
  datatype Mark = Mark(ms: Option<int>, tie: Option<string>)

  function MarkOf(cfg: Config, cursor: Cursor): Mark {
    Mark(if cursor.value.None? then None else cfg.parse(cursor.value.value), cursor.tieBreak)
  }

  /** Cursors whose value parses; every other one makes `advance` fail. */
  predicate WellFormed(cfg: Config, cursor: Cursor) {
    cursor.value.Some? ==> cfg.parse(cursor.value.value).Some?
  }

  /** Marks in `(ms, tie)` order with ties by code units; absent parts come first. */
  ghost predicate MarkLe(a: Mark, b: Mark) {
    || a.ms.None?
    || (b.ms.Some? && (a.ms.value < b.ms.value || (a.ms.value == b.ms.value && TieLe(a.tie, b.tie))))
  }

  ghost predicate TieLe(a: Option<string>, b: Option<string>) {
    a.None? || (b.Some? && Words.StringLe(a.value, b.value))
  }

  function ItemMark(cfg: Config, item: Item): Mark { Mark(Millis(cfg, item), TieOf(cfg, item)) }

  lemma MaxStringIsMax(a: Option<string>, b: Option<string>)
    ensures MaxString(a, b) == a || MaxString(a, b) == b
    ensures TieLe(a, MaxString(a, b)) && TieLe(b, MaxString(a, b))
  {
    if a.Some? && b.Some? {
      Words.StringLeTotal(a.value, b.value);
      Words.LeReflexive(Words.Units(a.value));
      Words.LeReflexive(Words.Units(b.value));
    } else if a.Some? {
      Words.LeReflexive(Words.Units(a.value));
    } else if b.Some? {
      Words.LeReflexive(Words.Units(b.value));
    }
  }

  lemma TieLeTransitive(a: Option<string>, b: Option<string>, c: Option<string>)
    requires TieLe(a, b) && TieLe(b, c)
    ensures TieLe(a, c)
  {
    if a.Some? { Words.LeTransitive(Words.Units(a.value), Words.Units(b.value), Words.Units(c.value)); }
  }

  lemma TieLeReflexive(a: Option<string>)
    ensures TieLe(a, a)
  {
    if a.Some? { Words.LeReflexive(Words.Units(a.value)); }
  }

  function BestMark(best: Best): Mark { if best.NoBest? then Mark(None, None) else Mark(Some(best.ms), best.tie) }

  /** `BestOf` is an upper bound of the stamped items, and one of them. */
  lemma {:induction false} BestIsMax(cfg: Config, items: seq<Item>)
    ensures forall x :: x in items && Millis(cfg, x).Some? ==> MarkLe(ItemMark(cfg, x), BestMark(BestOf(cfg, items)))
    ensures BestOf(cfg, items).Best? ==>
              && cfg.parse(BestOf(cfg, items).raw) == Some(BestOf(cfg, items).ms)
              && exists x :: x in items && ItemMark(cfg, x) == BestMark(BestOf(cfg, items))
  {
    if items == [] {
    } else {
      var init, x := items[..|items| - 1], items[|items| - 1];
      assert items == init + [x];
      BestIsMax(cfg, init);
      BestIsMaxStep(cfg, init, x);
    }
  }

  lemma BestIsMaxStep(cfg: Config, init: seq<Item>, x: Item)
    requires forall y :: y in init && Millis(cfg, y).Some? ==> MarkLe(ItemMark(cfg, y), BestMark(BestOf(cfg, init)))
    requires BestOf(cfg, init).Best? ==>
               && cfg.parse(BestOf(cfg, init).raw) == Some(BestOf(cfg, init).ms)
               && exists y :: y in init && ItemMark(cfg, y) == BestMark(BestOf(cfg, init))
    ensures forall y :: y in init + [x] && Millis(cfg, y).Some? ==>
              MarkLe(ItemMark(cfg, y), BestMark(BestOf(cfg, init + [x])))
    ensures BestOf(cfg, init + [x]).Best? ==>
              && cfg.parse(BestOf(cfg, init + [x]).raw) == Some(BestOf(cfg, init + [x]).ms)
              && exists y :: y in init + [x] && ItemMark(cfg, y) == BestMark(BestOf(cfg, init + [x]))
  {
    BestOfSnoc(cfg, init, x);
    var b, b' := BestOf(cfg, init), BestOf(cfg, init + [x]);
    if b.Best? { MaxStringIsMax(b.tie, cfg.tieOf(x)); }
    TieLeReflexive(TieOf(cfg, x));
    forall y | y in init && Millis(cfg, y).Some? ensures MarkLe(ItemMark(cfg, y), BestMark(b')) {
      assert MarkLe(ItemMark(cfg, y), BestMark(b));
      if b.Best? && b'.ms == b.ms && Millis(cfg, y).value == b.ms && cfg.hasTie {
        TieLeTransitive(TieOf(cfg, y), b.tie, b'.tie);
      }
    }
    if b'.Best? {
      assert x in init + [x];
      if b.Best? && BestMark(b') == BestMark(b) {
        var y :| y in init && ItemMark(cfg, y) == BestMark(b);
        assert y in init + [x];
      } else {
        assert ItemMark(cfg, x) == BestMark(b');
      }
    }
  }

  lemma {:induction false} KeptFacts(cfg: Config, cutoff: int, items: seq<Item>)
    ensures forall x :: x in Kept(cfg, cutoff, items) <==> x in items && Keeps(cfg, cutoff, x)
  {
    if items == [] {
    } else {
      assert items == items[..|items| - 1] + [items[|items| - 1]];
      KeptFacts(cfg, cutoff, items[..|items| - 1]);
    }
  }

  /** The lag only drops: what it keeps stays in order, with its repetitions. */
  lemma {:induction false} KeptIsFilter(cfg: Config, cutoff: int, a: seq<Item>, b: seq<Item>)
    ensures Kept(cfg, cutoff, a + b) == Kept(cfg, cutoff, a) + Kept(cfg, cutoff, b)
    ensures |a| == 1 ==> Kept(cfg, cutoff, a) == if TooFresh(cfg, cutoff, a[0]) then [] else a
    decreases |b|
  {
    if b == [] {
      assert a + b == a;
    } else {
      assert (a + b)[..|a + b| - 1] == a + b[..|b| - 1];
      KeptIsFilter(cfg, cutoff, a, b[..|b| - 1]);
    }
  }

  /** An item with a stamp that parses to an instant after `cutoff`. */
  predicate TooFresh(cfg: Config, cutoff: int, item: Item) {
    var text := cfg.stamp(item);
    text.Some? && cfg.parse(text.value).Some? && cfg.parse(text.value).value > cutoff
  }

  /** The watermark is the larger of the old one and every kept item, and is one of those: it never
      moves back, never passes an item it did not keep, and keeps nothing newer than `now - lag`.
      The page is the last one unless the API says that there are more. */
  lemma AdvanceIsMax(cfg: Config, cursor: Cursor, items: seq<Item>, hasMore: bool, now: int)
    requires WellFormed(cfg, cursor)
    ensures
      var r := AdvanceSpec(cfg, cursor, items, None, hasMore, now);
      && r.Advanced? && WellFormed(cfg, r.cursor)
      && r.items == Kept(cfg, now - cfg.lagMs, items) && (r.done <==> !hasMore)
      && (forall x :: x in r.items <==> x in items && !TooFresh(cfg, now - cfg.lagMs, x))
      && (cfg.hasTie || cursor.tieBreak.None? ==> MarkLe(MarkOf(cfg, cursor), MarkOf(cfg, r.cursor)))
      && (cfg.hasTie || cursor.tieBreak.None? ==>
            forall x :: x in r.items && Millis(cfg, x).Some? ==> MarkLe(ItemMark(cfg, x), MarkOf(cfg, r.cursor)))
      && (r.cursor == cursor ||
          exists x :: x in r.items && Millis(cfg, x).Some? && ItemMark(cfg, x) == MarkOf(cfg, r.cursor))
  {
    var kept := Kept(cfg, now - cfg.lagMs, items);
    KeptFacts(cfg, now - cfg.lagMs, items);
    BestIsMax(cfg, kept);
    var best := BestOf(cfg, kept);
    var r := AdvanceSpec(cfg, cursor, items, None, hasMore, now);
    TieLeReflexive(cursor.tieBreak);
    if best.Best? {
      MaxStringIsMax(cursor.tieBreak, best.tie);
      if r.cursor != cursor {
        var x :| x in kept && ItemMark(cfg, x) == BestMark(best);
        assert MarkOf(cfg, r.cursor) == BestMark(best);
        assert x in r.items && Millis(cfg, x).Some? && ItemMark(cfg, x) == MarkOf(cfg, r.cursor);
      }
      forall x | x in kept && Millis(cfg, x).Some? && (cfg.hasTie || cursor.tieBreak.None?)
        ensures MarkLe(ItemMark(cfg, x), MarkOf(cfg, r.cursor))
      {
        assert MarkLe(ItemMark(cfg, x), BestMark(best));
        if Millis(cfg, x).value == best.ms && MarkOf(cfg, r.cursor).ms == Some(best.ms) && cfg.hasTie {
          TieLeTransitive(TieOf(cfg, x), best.tie, r.cursor.tieBreak);
        }
      }
    }
  }

  lemma {:induction false} BestIsStamp(cfg: Config, items: seq<Item>)
    ensures BestOf(cfg, items).Best? ==> exists x :: x in items && cfg.stamp(x) == Some(BestOf(cfg, items).raw)
  {
    if items == [] {
    } else {
      var init, x := items[..|items| - 1], items[|items| - 1];
      assert items == init + [x];
      BestIsStamp(cfg, init);
      if BestOf(cfg, init).Best? && BestOf(cfg, items).raw == BestOf(cfg, init).raw {
        var y :| y in init && cfg.stamp(y) == Some(BestOf(cfg, init).raw);
        assert y in items;
      }
    }
  }

  /** The text of the watermark is always one that was seen: the stored one while the instant stays, else
      the stamp of a kept item. */
  lemma WatermarkIsVerbatim(cfg: Config, cursor: Cursor, items: seq<Item>, hasMore: bool, now: int)
    requires WellFormed(cfg, cursor)
    ensures
      var r := AdvanceSpec(cfg, cursor, items, None, hasMore, now);
      && (r.cursor.value == cursor.value || exists x :: x in r.items && cfg.stamp(x) == r.cursor.value)
      && (MarkOf(cfg, r.cursor).ms == MarkOf(cfg, cursor).ms ==> r.cursor.value == cursor.value)
  {
    BestIsStamp(cfg, Kept(cfg, now - cfg.lagMs, items));
    BestIsMax(cfg, Kept(cfg, now - cfg.lagMs, items));
  }

  /** A watermark given by the page itself is taken as it is, without a tie; every item is kept, and no
      stored watermark is too malformed for that. */
  lemma PageCursorIsTrusted(cfg: Config, cursor: Cursor, items: seq<Item>, given: string, hasMore: bool, now: int)
    ensures
      var r := AdvanceSpec(cfg, cursor, items, Some(given), hasMore, now);
      && r.Advanced? && r.cursor.value == Some(given) && r.cursor.tieBreak.None?
      && r.items == items && (r.done <==> !hasMore)
  {
  }

  /** `advance` fails exactly on a stored watermark that does not parse and a kept item that has a stamp. */
  lemma FailsExactly(cfg: Config, cursor: Cursor, items: seq<Item>, given: Option<string>, hasMore: bool, now: int)
    ensures AdvanceSpec(cfg, cursor, items, given, hasMore, now).BadCursor? <==>
              && given.None? && !WellFormed(cfg, cursor)
              && exists x :: x in items && Millis(cfg, x).Some? && !TooFresh(cfg, now - cfg.lagMs, x)
  {
    var kept := Kept(cfg, now - cfg.lagMs, items);
    KeptFacts(cfg, now - cfg.lagMs, items);
    BestIsMax(cfg, kept);
  }

  /** The overlap moves the first request back by exactly `overlapMs` from the instant of the watermark, and
      asks for every tie there; without an overlap, or without a watermark, the request starts where the
      last one ended. */
  lemma OverlapMovesBack(cfg: Config, cursor: Cursor)
    requires forall ms, sample :: cfg.parse(cfg.format(ms, sample)) == Some(ms)
    ensures ForFetch(cfg, cursor).None? <==> cfg.overlapMs > 0 && !WellFormed(cfg, cursor)
    ensures cfg.overlapMs <= 0 || cursor.value.None? ==> ForFetch(cfg, cursor) == Some(cursor)
    ensures cfg.overlapMs > 0 && cursor.value.Some? && WellFormed(cfg, cursor) ==>
              MarkOf(cfg, ForFetch(cfg, cursor).value) == Mark(Some(MarkOf(cfg, cursor).ms.value - cfg.overlapMs), None)
  {
  }
}
