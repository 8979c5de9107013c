/** The live lane of one poll cycle: page after page from the stored cursor, until the cursor strategy says
    that the listing ended. */
module LiveCycle {
  import opened Store
  import opened Diff
  import opened Pages
  import opened Runner
  import Memory = MemoryStore
  import T = Timestamp

  datatype Reply = Reply(items: seq<Item>, given: Option<string>, hasMore: bool) | NoReply

  /** `reply(n, from)` is the answer to request `n` of the cycle, `clock(n)` the time read after it. */
  datatype World = World(reply: (nat, Cursor) -> Reply, clock: nat -> int, fate: Fate)

  /** Request `n` starts where the page before it ended, the first one earlier by the overlap. */
  function Ask(ts: T.Config, w: World, cursor: Cursor, n: nat): Reply {
    var from := if n == 1 then T.ForFetch(ts, cursor) else Some(cursor);
    if from.None? then NoReply else w.reply(n, from.value)
  }

  function Advanced(ts: T.Config, w: World, cursor: Cursor, n: nat): T.Advanced {
    var r := Ask(ts, w, cursor, n);
    if r.NoReply? then T.BadCursor else T.AdvanceSpec(ts, cursor, r.items, r.given, r.hasMore, w.clock(n))
  }

  /** The cursor after `n` pages; absent when one of them failed. */
  function CursorAfter(ts: T.Config, w: World, start: Cursor, n: nat): Option<Cursor> {
    if n == 0 then Some(start)
    else
      var c := CursorAfter(ts, w, start, n - 1);
      if c.None? || Advanced(ts, w, c.value, n).BadCursor? then None else Some(Advanced(ts, w, c.value, n).cursor)
  }

  function ReplyAt(ts: T.Config, w: World, start: Cursor, n: nat): Reply
    requires n > 0
  {
    var c := CursorAfter(ts, w, start, n - 1);
    if c.None? then NoReply else Ask(ts, w, c.value, n)
  }

  function KeptAt(ts: T.Config, w: World, start: Cursor, n: nat): seq<Item>
    requires n > 0
  {
    var c := CursorAfter(ts, w, start, n - 1);
    if c.None? || Advanced(ts, w, c.value, n).BadCursor? then [] else Advanced(ts, w, c.value, n).items
  }

  /** The valid identities the first `n` pages kept. */
  function KeptIds(p: Poller, ts: T.Config, w: World, start: Cursor, n: nat): set<string> {
    if n == 0 then {}
    else KeptIds(p, ts, w, start, n - 1) + Ids(p, ValidItems(p, KeptAt(ts, w, start, n)))
  }

  datatype CycleEnd = Done | Truncated | Halted | Failed | Lost

  datatype Cycle = Cycle(end: Option<CycleEnd>, n: nat, cursor: Cursor, sequence: nat, events: seq<OutboxRow>)

  ghost predicate HasMore(ts: T.Config, w: World, start: Cursor, n: nat)
    requires n > 0
  {
    ReplyAt(ts, w, start, n).Reply? && ReplyAt(ts, w, start, n).hasMore
  }

  /** The first `n` replies said that there is more. */
  ghost predicate AllMore(ts: T.Config, w: World, start: Cursor, n: nat) {
    n == 0 || (AllMore(ts, w, start, n - 1) && HasMore(ts, w, start, n))
  }

  /** What the cycle works under. */
  datatype Terms = Terms(p: Poller, ts: T.Config, onInvalid: OnInvalid, maxPages: nat)

  /** Why a cycle fails after page `n`: aborted, no reply, a cursor that does not parse, or an invalid item. */
  ghost predicate Breaks(c: Terms, w: World, start: Cursor, n: nat) {
    || w.fate.aborts(n) || CursorAfter(c.ts, w, start, n + 1).None?
    || Refused(c.p, c.onInvalid, KeptAt(c.ts, w, start, n + 1))
  }

  /** A cycle goes on, is cut short or fails only after a reply with more, and is done only after one without;
      it is cut short only by the page cap or the deadline. */
  ghost predicate EndsRight(c: Terms, w: World, start: Cursor, n: nat, end: Option<CycleEnd>) {
    var ts := c.ts;
    match end
    case Some(Done) => n > 0 && AllMore(ts, w, start, n - 1) && !HasMore(ts, w, start, n) && w.fate.held(n)
    case Some(Halted) => n > 0 && AllMore(ts, w, start, n - 1) && w.fate.halts(n)
    case Some(Lost) => n == 0 || AllMore(ts, w, start, n - 1)
    case Some(Truncated) => AllMore(ts, w, start, n) && (n >= c.maxPages || w.fate.late(n))
    case Some(Failed) => AllMore(ts, w, start, n) && Breaks(c, w, start, n)
    case None => AllMore(ts, w, start, n)
  }

  ghost predicate CycleAt(c: Terms, w: World, start: Cursor, s: Cycle) {
    CursorAfter(c.ts, w, start, s.n) == Some(s.cursor) && EndsRight(c, w, start, s.n, s.end)
  }

  /** Snapshot, stored cursor and sequence belong to the first `n` pages. */
  ghost predicate StoredAt(p: Poller, ts: T.Config, w: World, start: Cursor, before: KeyRecord, rec: KeyRecord,
                           n: nat, cursor: Cursor, events: seq<OutboxRow>) {
    && ScanOk(p, before.items, rec.items, KeptIds(p, ts, w, start, n), events)
    && LanesOf(rec) == (if n == 0 then LanesOf(before) else LanesOf(before)[Live := cursor])
    && Sequence(rec) == Sequence(before) + |events| && Numbered(events, Sequence(before))
  }

  ghost predicate CycleStored(p: Poller, ts: T.Config, w: World, start: Cursor, before: KeyRecord, rec: KeyRecord,
                              s: Cycle) {
    s.sequence == Sequence(rec) && StoredAt(p, ts, w, start, before, rec, s.n, s.cursor, s.events)
  }

  /** How a cycle goes on after a committed page. */
  function Verdict(events: seq<OutboxRow>, halted: bool, held: bool, done: bool, late: bool): Option<CycleEnd> {
    if events != [] && halted then Some(Halted)
    else if !held then Some(CycleEnd.Lost)
    else if done then Some(Done)
    else if late then Some(Truncated)
    else None
  }

  lemma CycleMoves(c: Terms, w: World, start: Cursor, s: Cycle, adv: T.Advanced, s': Cycle, events: seq<OutboxRow>)
    requires CycleAt(c, w, start, s) && s.end.None? && s'.n == s.n + 1
    requires adv == Advanced(c.ts, w, s.cursor, s.n + 1) && adv.Advanced? && s'.cursor == adv.cursor
    requires s'.end == Verdict(events, w.fate.halts(s.n + 1), w.fate.held(s.n + 1), adv.done, w.fate.late(s.n + 1))
    ensures CycleAt(c, w, start, s')
  {
    var ts := c.ts;
    var r := Ask(ts, w, s.cursor, s'.n);
    assert ReplyAt(ts, w, start, s'.n) == r;
    if r.given.Some? {
      T.PageCursorIsTrusted(ts, s.cursor, r.items, r.given.value, r.hasMore, w.clock(s'.n));
    } else if T.WellFormed(ts, s.cursor) {
      T.AdvanceIsMax(ts, s.cursor, r.items, r.hasMore, w.clock(s'.n));
    }
  }

  lemma StreamMoves(p: Poller, ts: T.Config, w: World, start: Cursor, before: KeyRecord, rec: KeyRecord, s: Cycle,
                    adv: T.Advanced, onInvalid: OnInvalid, c: PageCommit, rec': KeyRecord)
    requires ScanOk(p, before.items, rec.items, KeptIds(p, ts, w, start, s.n), s.events)
    requires CursorAfter(ts, w, start, s.n) == Some(s.cursor)
    requires adv == Advanced(ts, w, s.cursor, s.n + 1) && adv.Advanced?
    requires Some(c) == PageSpec(p, onInvalid, Live, false, false, adv.items,
                                 LoadVersions(rec, Elems(Identities(p, ValidItems(p, adv.items)))), s.sequence,
                                 w.clock(s.n + 1))
    requires rec'.items == PutItems(rec.items, c.upserts)
    ensures ScanOk(p, before.items, rec'.items, KeptIds(p, ts, w, start, s.n + 1), s.events + c.events)
  {
    var raw := adv.items;
    assert KeptAt(ts, w, start, s.n + 1) == raw;
    PageScans(p, before.items, rec, KeptIds(p, ts, w, start, s.n), s.events, onInvalid, Live, false, raw, s.sequence,
              w.clock(s.n + 1));
  }

  /** Committing page `s'.n` moves snapshot, cursor and stream together. */
  lemma StoredMoves(p: Poller, ts: T.Config, w: World, start: Cursor, before: KeyRecord, rec: KeyRecord, s: Cycle,
                    adv: T.Advanced, onInvalid: OnInvalid, c: PageCommit, rec': KeyRecord, s': Cycle)
    requires CycleStored(p, ts, w, start, before, rec, s) && CursorAfter(ts, w, start, s.n) == Some(s.cursor)
    requires s'.n == s.n + 1 && adv == Advanced(ts, w, s.cursor, s.n + 1) && adv.Advanced? && s'.cursor == adv.cursor
    requires Some(c) == PageSpec(p, onInvalid, Live, false, false, adv.items,
                                 LoadVersions(rec, Elems(Identities(p, ValidItems(p, adv.items)))), s.sequence,
                                 w.clock(s.n + 1))
    requires rec'.items == PutItems(rec.items, c.upserts) && LanesOf(rec') == LanesOf(before)[Live := s'.cursor]
    requires Sequence(rec') == c.sequence == s'.sequence && s'.events == s.events + c.events
    ensures CycleStored(p, ts, w, start, before, rec', s')
  {
    StreamMoves(p, ts, w, start, before, rec, s, adv, onInvalid, c, rec');
    NumberedPage(rec, p, onInvalid, adv.items, s.sequence, w.clock(s.n + 1));
    NumberedConcat(s.events, c.events, Sequence(before));
  }

  /** A cycle that stops before the next page was committed. */
  lemma Stops(c: Terms, w: World, start: Cursor, before: KeyRecord, rec: KeyRecord, s: Cycle, rec': KeyRecord,
              end: CycleEnd)
    requires CycleAt(c, w, start, s) && CycleStored(c.p, c.ts, w, start, before, rec, s)
    requires s.end.None? && (end.Failed? || end.Lost? || end.Truncated?)
    requires end.Truncated? ==> s.n >= c.maxPages || w.fate.late(s.n)
    requires end.Failed? ==> Breaks(c, w, start, s.n)
    requires rec'.items == rec.items && LanesOf(rec') == LanesOf(rec) && Sequence(rec') == Sequence(rec)
    ensures CycleAt(c, w, start, s.(end := Some(end)))
    ensures CycleStored(c.p, c.ts, w, start, before, rec', s.(end := Some(end)))
  {
  }

  /** Request page `s.n + 1` and advance the cursor over it. */
  method FetchPage(ts: T.Config, w: World, s: Cycle) returns (adv: T.Advanced)
    ensures adv == Advanced(ts, w, s.cursor, s.n + 1)
  {
    var from := if s.n == 0 then T.ForFetch(ts, s.cursor) else Some(s.cursor);
    if from.None? { return T.BadCursor; }
    var page := w.reply(s.n + 1, from.value);
    if page.NoReply? { return T.BadCursor; }
    adv := T.Advance(ts, s.cursor, page.items, page.given, page.hasMore, w.clock(s.n + 1));
  }

  lemma BadPage(c: Terms, w: World, start: Cursor, s: Cycle)
    requires CursorAfter(c.ts, w, start, s.n) == Some(s.cursor)
    ensures
      var adv := Advanced(c.ts, w, s.cursor, s.n + 1);
      adv.BadCursor? || (InvalidItems(c.p, adv.items) != [] && c.onInvalid == Fail) <==>
        CursorAfter(c.ts, w, start, s.n + 1).None? || Refused(c.p, c.onInvalid, KeptAt(c.ts, w, start, s.n + 1))
  {
    InvalidIsRefused(c.p, c.onInvalid, KeptAt(c.ts, w, start, s.n + 1));
    InvalidIsRefused(c.p, c.onInvalid, []);
  }

  /** Process and commit page `s.n + 1`. */
  method LiveTurn(store: Memory.MemoryStore, key: Memory.PKey, lease: Lease, c: Terms, w: World,
                  lanes: map<Lane, Cursor>, s: Cycle, ghost start: Cursor, ghost before: KeyRecord)
    returns (r: Cycle)
    requires store.Valid() && s.end.None? && s.n < c.maxPages && lanes == LanesOf(before)
    requires CycleAt(c, w, start, s) && CycleStored(c.p, c.ts, w, start, before, store.Rec(key), s)
    modifies store
    ensures store.Valid() && s.n <= r.n <= c.maxPages && (r.n == s.n ==> r.end.Some?)
    ensures CycleAt(c, w, start, r) && CycleStored(c.p, c.ts, w, start, before, store.Rec(key), r)
    ensures r.end == Some(CycleEnd.Lost) ==> !w.fate.held(r.n) || !Fenced(store.Rec(key), lease)
  {
    ghost var rec := store.Rec(key);
    BadPage(c, w, start, s);
    var adv := FetchPage(c.ts, w, s);
    if adv.BadCursor? {
      Stops(c, w, start, before, rec, s, rec, CycleEnd.Failed);
      return s.(end := Some(CycleEnd.Failed));
    }
    var now := w.clock(s.n + 1);
    var out := ProcessPage(store, key, c.p, c.onInvalid, Live, false, false, adv.items, s.sequence, now);
    if out.None? {
      Stops(c, w, start, before, rec, s, rec, CycleEnd.Failed);
      return s.(end := Some(CycleEnd.Failed));
    }
    r := CommitLive(store, key, lease, c, w, lanes, s, adv, out.value, start, before);
  }

  lemma LiveMoves(c: Terms, w: World, start: Cursor, before: KeyRecord, rec: KeyRecord, s: Cycle, adv: T.Advanced,
                  page: PageCommit, rec': KeyRecord, r: Cycle)
    requires CycleAt(c, w, start, s) && CycleStored(c.p, c.ts, w, start, before, rec, s) && s.end.None?
    requires adv == Advanced(c.ts, w, s.cursor, s.n + 1) && adv.Advanced?
    requires Some(page) == PageSpec(c.p, c.onInvalid, Live, false, false, adv.items,
                                    LoadVersions(rec, Elems(Identities(c.p, ValidItems(c.p, adv.items)))),
                                    s.sequence, w.clock(s.n + 1))
    requires rec'.items == PutItems(rec.items, page.upserts) && LanesOf(rec') == LanesOf(before)[Live := adv.cursor]
    requires Sequence(rec') == page.sequence == r.sequence && r.n == s.n + 1 && r.cursor == adv.cursor
    requires r.events == s.events + page.events
    requires r.end == Verdict(page.events, w.fate.halts(s.n + 1), w.fate.held(s.n + 1), adv.done, w.fate.late(s.n + 1))
    ensures CycleAt(c, w, start, r) && CycleStored(c.p, c.ts, w, start, before, rec', r)
    ensures r.end == Some(CycleEnd.Lost) ==> !w.fate.held(r.n)
  {
    StoredMoves(c.p, c.ts, w, start, before, rec, s, adv, c.onInvalid, page, rec', r);
    CycleMoves(c, w, start, s, adv, r, page.events);
  }

  method CommitLive(store: Memory.MemoryStore, key: Memory.PKey, lease: Lease, c: Terms, w: World,
                    lanes: map<Lane, Cursor>, s: Cycle, adv: T.Advanced, page: PageCommit, ghost start: Cursor,
                    ghost before: KeyRecord)
    returns (r: Cycle)
    requires store.Valid() && s.end.None? && s.n < c.maxPages && lanes == LanesOf(before)
    requires CycleAt(c, w, start, s) && CycleStored(c.p, c.ts, w, start, before, store.Rec(key), s)
    requires adv == Advanced(c.ts, w, s.cursor, s.n + 1) && adv.Advanced?
    requires Some(page) == PageSpec(c.p, c.onInvalid, Live, false, false, adv.items,
                                    LoadVersions(store.Rec(key), Elems(Identities(c.p, ValidItems(c.p, adv.items)))),
                                    s.sequence, w.clock(s.n + 1))
    modifies store
    ensures store.Valid() && s.n <= r.n <= c.maxPages && (r.n == s.n ==> r.end.Some?)
    ensures CycleAt(c, w, start, r) && CycleStored(c.p, c.ts, w, start, before, store.Rec(key), r)
    ensures r.end == Some(CycleEnd.Lost) ==> !w.fate.held(r.n) || !Fenced(store.Rec(key), lease)
  {
    ghost var rec := store.Rec(key);
    var ok := CommitPage(store, key, lease, c.p, Some(lanes[Live := adv.cursor]), page, w.clock(s.n + 1));
    if !ok {
      Stops(c, w, start, before, rec, s, store.Rec(key), CycleEnd.Lost);
      return s.(end := Some(CycleEnd.Lost));
    }
    var end := Verdict(page.events, w.fate.halts(s.n + 1), w.fate.held(s.n + 1), adv.done, w.fate.late(s.n + 1));
    r := Cycle(end, s.n + 1, adv.cursor, page.sequence, s.events + page.events);
    LiveMoves(c, w, start, before, rec, s, adv, page, store.Rec(key), r);
  }

  lemma NumberedPage(rec: KeyRecord, p: Poller, onInvalid: OnInvalid, raw: seq<Item>, seq0: nat, now: int)
    ensures
      var c := PageSpec(p, onInvalid, Live, false, false, raw,
                        LoadVersions(rec, Elems(Identities(p, ValidItems(p, raw)))), seq0, now);
      c.Some? ==> Numbered(c.value.events, seq0) && c.value.sequence == seq0 + |c.value.events|
  {
    var existing := LoadVersions(rec, Elems(Identities(p, ValidItems(p, raw))));
    if PageSpec(p, onInvalid, Live, false, false, raw, existing, seq0, now).Some? {
      PageSequences(p, onInvalid, Live, false, false, raw, existing, seq0, now);
    }
  }

  /** A live cycle. `Done` means that the last page said there is no more and every page before it that there
      is; no request follows a page without more. Every other end has its reason, and after any end, however
      early, the snapshot, the stream and the stored cursor are those of exactly the pages committed so far. */
  method Run(store: Memory.MemoryStore, key: Memory.PKey, lease: Lease, c: Terms, w: World)
    returns (s: Cycle, ghost start: Cursor)
    requires store.Valid()
    modifies store
    ensures store.Valid() && s.end.Some?
    ensures start == if Live in LanesOf(old(store.Rec(key))) then LanesOf(old(store.Rec(key)))[Live]
              else Cursor(c.ts.initial, None)
    ensures s.n <= c.maxPages && CycleAt(c, w, start, s)
    ensures CycleStored(c.p, c.ts, w, start, old(store.Rec(key)), store.Rec(key), s)
    ensures s.end == Some(CycleEnd.Lost) ==> !w.fate.held(s.n) || !Fenced(store.Rec(key), lease)
  {
    ghost var before := store.Rec(key);
    var lanes := LanesOf(store.Rec(key));
    var cursor := if Live in lanes then lanes[Live] else Cursor(c.ts.initial, None);
    start := cursor;
    s := Cycle(None, 0, cursor, Sequence(store.Rec(key)), []);
    while s.end.None?
      invariant store.Valid() && s.n <= c.maxPages && CycleAt(c, w, start, s)
      invariant CycleStored(c.p, c.ts, w, start, before, store.Rec(key), s)
      invariant s.end == Some(CycleEnd.Lost) ==> !w.fate.held(s.n) || !Fenced(store.Rec(key), lease)
      decreases s.end.None?, c.maxPages - s.n
    {
      if w.fate.aborts(s.n) {
        s := s.(end := Some(CycleEnd.Failed));
      } else if w.fate.late(s.n) || s.n >= c.maxPages {
        s := s.(end := Some(Truncated));
      } else {
        s := LiveTurn(store, key, lease, c, w, lanes, s, start, before);
      }
    }
  }

  /** A done cycle has seen the whole listing and not one request more. */
  lemma DoneIsLast(c: Terms, w: World, start: Cursor, s: Cycle)
    requires CycleAt(c, w, start, s) && s.end == Some(Done)
    ensures s.n > 0 && forall i :: 1 <= i <= s.n ==>
              ReplyAt(c.ts, w, start, i).Reply? && (ReplyAt(c.ts, w, start, i).hasMore <==> i < s.n)
  {
    forall i | 1 <= i <= s.n
      ensures ReplyAt(c.ts, w, start, i).Reply? && (ReplyAt(c.ts, w, start, i).hasMore <==> i < s.n)
    {
      if i < s.n { MoreAt(c.ts, w, start, s.n - 1, i); }
    }
  }

  lemma {:induction false} MoreAt(ts: T.Config, w: World, start: Cursor, n: nat, i: nat)
    requires 1 <= i <= n && AllMore(ts, w, start, n)
    ensures HasMore(ts, w, start, i)
  {
    if i < n { MoreAt(ts, w, start, n - 1, i); }
  }

  // ---- what the cursor of a cycle means -------------------------------------------------------

  /** No page of the cycle gave its own watermark. */
  ghost predicate Derived(ts: T.Config, w: World, start: Cursor, n: nat) {
    forall i :: 1 <= i <= n ==> ReplyAt(ts, w, start, i).Reply? && ReplyAt(ts, w, start, i).given.None?
  }

  ghost predicate Comparable(ts: T.Config, cursor: Cursor) {
    T.WellFormed(ts, cursor) && (ts.hasTie || cursor.tieBreak.None?)
  }

  lemma MarkLeTransitive(a: T.Mark, b: T.Mark, c: T.Mark)
    requires T.MarkLe(a, b) && T.MarkLe(b, c)
    ensures T.MarkLe(a, c)
  {
    if a.ms.Some? && a.ms == b.ms == c.ms { T.TieLeTransitive(a.tie, b.tie, c.tie); }
  }

  ghost predicate AllBelow(ts: T.Config, items: seq<Item>, m: T.Mark) {
    forall x :: x in items && T.Millis(ts, x).Some? ==> T.MarkLe(T.ItemMark(ts, x), m)
  }

  ghost predicate DroppedFresh(ts: T.Config, items: seq<Item>, kept: seq<Item>, now: int) {
    forall x :: x in items && x !in kept ==> T.TooFresh(ts, now - ts.lagMs, x)
  }

  lemma AdvanceRises(ts: T.Config, w: World, c: Cursor, n: nat)
    requires Comparable(ts, c) && Ask(ts, w, c, n).Reply? && Ask(ts, w, c, n).given.None?
    requires Advanced(ts, w, c, n).Advanced?
    ensures
      var r, adv := Ask(ts, w, c, n), Advanced(ts, w, c, n);
      && Comparable(ts, adv.cursor) && T.MarkLe(T.MarkOf(ts, c), T.MarkOf(ts, adv.cursor))
      && AllBelow(ts, adv.items, T.MarkOf(ts, adv.cursor)) && DroppedFresh(ts, r.items, adv.items, w.clock(n))
  {
    var r := Ask(ts, w, c, n);
    T.AdvanceIsMax(ts, c, r.items, r.hasMore, w.clock(n));
  }

  lemma BelowMore(ts: T.Config, items: seq<Item>, a: T.Mark, b: T.Mark)
    requires AllBelow(ts, items, a) && T.MarkLe(a, b)
    ensures AllBelow(ts, items, b)
  {
    forall x | x in items && T.Millis(ts, x).Some? ensures T.MarkLe(T.ItemMark(ts, x), b) {
      MarkLeTransitive(T.ItemMark(ts, x), a, b);
    }
  }

  lemma PageRises(ts: T.Config, w: World, start: Cursor, n: nat)
    requires n > 0 && CursorAfter(ts, w, start, n).Some? && Comparable(ts, CursorAfter(ts, w, start, n - 1).value)
    requires ReplyAt(ts, w, start, n).Reply? && ReplyAt(ts, w, start, n).given.None?
    ensures
      var c, c' := CursorAfter(ts, w, start, n - 1).value, CursorAfter(ts, w, start, n).value;
      && Comparable(ts, c') && T.MarkLe(T.MarkOf(ts, c), T.MarkOf(ts, c'))
      && AllBelow(ts, KeptAt(ts, w, start, n), T.MarkOf(ts, c'))
      && DroppedFresh(ts, ReplyAt(ts, w, start, n).items, KeptAt(ts, w, start, n), w.clock(n))
  {
    AdvanceRises(ts, w, CursorAfter(ts, w, start, n - 1).value, n);
  }

  /** In a cycle the cursor never moves back. */
  lemma {:induction false} CursorRises(ts: T.Config, w: World, start: Cursor, m: nat, n: nat)
    requires m <= n && CursorAfter(ts, w, start, n).Some? && Comparable(ts, start) && Derived(ts, w, start, n)
    ensures CursorAfter(ts, w, start, m).Some? && Comparable(ts, CursorAfter(ts, w, start, m).value)
    ensures T.MarkLe(T.MarkOf(ts, CursorAfter(ts, w, start, m).value), T.MarkOf(ts, CursorAfter(ts, w, start, n).value))
    decreases n
  {
    if m == n { T.TieLeReflexive(CursorAfter(ts, w, start, n).value.tieBreak); }
    if n > 0 {
      CursorRises(ts, w, start, if m == n then n - 1 else m, n - 1);
      if m < n { CursorRises(ts, w, start, n - 1, n - 1); }
      PageRises(ts, w, start, n);
      if m < n {
        MarkLeTransitive(T.MarkOf(ts, CursorAfter(ts, w, start, m).value),
                         T.MarkOf(ts, CursorAfter(ts, w, start, n - 1).value),
                         T.MarkOf(ts, CursorAfter(ts, w, start, n).value));
      }
    }
  }

  /** It ends at or after every item that page `i` kept, and what page `i` did not keep was newer than its
      clock less the lag. */
  lemma KeptIsBelow(ts: T.Config, w: World, start: Cursor, i: nat, n: nat)
    requires 1 <= i <= n && CursorAfter(ts, w, start, n).Some? && Comparable(ts, start) && Derived(ts, w, start, n)
    ensures AllBelow(ts, KeptAt(ts, w, start, i), T.MarkOf(ts, CursorAfter(ts, w, start, n).value))
    ensures DroppedFresh(ts, ReplyAt(ts, w, start, i).items, KeptAt(ts, w, start, i), w.clock(i))
  {
    CursorRises(ts, w, start, i, n);
    CursorRises(ts, w, start, i - 1, n);
    PageRises(ts, w, start, i);
    BelowMore(ts, KeptAt(ts, w, start, i), T.MarkOf(ts, CursorAfter(ts, w, start, i).value),
              T.MarkOf(ts, CursorAfter(ts, w, start, n).value));
  }
}
