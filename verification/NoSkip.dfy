/** No row is ever skipped: over every run, each API row at or below the persisted keyset cursor has
    its current version in the committed snapshot. */
module NoSkip {
  import opened Store
  import opened Diff
  import opened Pages
  import opened Polling
  import opened PollingSafety
  import L = Leases
  import T = Timestamp

  /** Lag exceeds commit lateness plus fetch latency; formatting for overlap never moves forward. */
  ghost predicate LagOk(cfg: Config) {
    && cfg.lateness + cfg.latency < cfg.ts.lagMs
    && T.WellFormed(cfg.ts, Cursor(cfg.ts.initial, None))
    && forall ms: int, sample: string ::
         cfg.ts.parse(cfg.ts.format(ms, sample)).Some? && cfg.ts.parse(cfg.ts.format(ms, sample)).value <= ms
  }

  /** Rows older than the configured start are nobody's business. */
  predicate InScope(cfg: Config, ts: int) {
    var m := T.MarkOf(cfg.ts, Cursor(cfg.ts.initial, None));
    m.ms.None? || m.ms.value <= ts
  }

  /** In scope, and at or below the cursor in the API's own order. */
  predicate Below(cfg: Config, c: Cursor, ts: int, id: string) { InScope(cfg, ts) && !After(cfg, c, ts, id) }

  /** Nothing at or below `c` can still appear at time `t`. */
  ghost predicate Settled(cfg: Config, c: Cursor, t: int) {
    forall ts: int, id: string :: Below(cfg, c, ts, id) ==> ts + cfg.lateness < t
  }

  /** Every valid row at or below `c` is stored in its current version. */
  ghost predicate Covered(cfg: Config, api: map<string, Item>, items: map<string, ItemRow>, c: Cursor) {
    forall id :: id in api && cfg.p.valid(api[id]) && Below(cfg, c, Ts(cfg, api[id]), id) ==>
      id in items && Shows(cfg.p, items[id], api[id])
  }

  /** Items fetched at `at` are current wherever the API row is old enough not to have changed since. */
  ghost predicate Agrees(cfg: Config, api: map<string, Item>, page: seq<Item>, at: int) {
    forall x :: x in page && cfg.p.identity(x) in api && Ts(cfg, api[cfg.p.identity(x)]) + cfg.lateness < at ==>
      api[cfg.p.identity(x)] == x
  }

  /** No old row between the start of the request and the items of the reply is missing from it. */
  ghost predicate NoGap(cfg: Config, api: map<string, Item>, page: seq<Item>, from: Cursor, at: int) {
    forall id, x :: id in api && x in page && Ts(cfg, api[id]) + cfg.lateness < at ==>
      After(cfg, from, Ts(cfg, api[id]), id) && KeyLe(cfg, Ts(cfg, api[id]), id, x) ==> api[id] in page
  }

  ghost predicate StartsBefore(cfg: Config, from: Cursor, c: Cursor) {
    forall ts: int, id: string :: After(cfg, c, ts, id) ==> After(cfg, from, ts, id)
  }

  /** The page fills the distance from `c` to `d`. */
  ghost predicate Fills(cfg: Config, api: map<string, Item>, page: seq<Item>, c: Cursor, d: Cursor) {
    forall id :: id in api && Below(cfg, d, Ts(cfg, api[id]), id) ==>
        Below(cfg, c, Ts(cfg, api[id]), id) || api[id] in page
  }

  ghost predicate AllStamped(cfg: Config, page: seq<Item>) { forall x :: x in page ==> Stamped(cfg, x) }

  /** The live cursor once the page in hand is committed. */
  function NextLive(cfg: Config, w: Work): Cursor
    requires w.phase.Ready? || w.phase.Loaded?
  {
    if w.phase.lane == Live then w.phase.next else LiveCursor(cfg, w.lanes)
  }

  ghost predicate CursorOk(cfg: Config, s: Sys, c: Cursor) {
    T.WellFormed(cfg.ts, c) && Covered(cfg, s.api, s.rec.items, c) && Settled(cfg, c, s.now)
  }

  ghost predicate FetchedOk(cfg: Config, api: map<string, Item>, now: int, w: Work)
    requires w.phase.Fetched?
  {
    var q, c := w.phase, LiveCursor(cfg, w.lanes);
    && q.at <= now && Settled(cfg, c, q.at) && StartsBefore(cfg, q.from, c) && AllStamped(cfg, q.page)
    && Agrees(cfg, api, q.page, q.at) && NoGap(cfg, api, q.page, q.from, q.at)
  }

  ghost predicate ReadyOk(cfg: Config, api: map<string, Item>, now: int, w: Work)
    requires w.phase.Ready? || w.phase.Loaded?
  {
    var q, c, d := w.phase, LiveCursor(cfg, w.lanes), NextLive(cfg, w);
    && q.at <= now && T.WellFormed(cfg.ts, d) && Settled(cfg, c, q.at) && Settled(cfg, d, q.at)
    && Agrees(cfg, api, q.raw, q.at) && Fills(cfg, api, q.raw, c, d)
  }

  /** Every valid row at or below `c` was listed. */
  ghost predicate Lists(cfg: Config, api: map<string, Item>, seen: set<string>, c: Cursor) {
    forall id :: id in api && cfg.p.valid(api[id]) && Below(cfg, c, Ts(cfg, api[id]), id) ==> id in seen
  }

  /** A full scan under way began when nothing at or below the cursors could appear any more, and once
      its listing has ended it has shown all of that. */
  ghost predicate ScanFits(cfg: Config, s: Sys, w: Work) {
    w.scan.Some? ==>
      var scan, mine, stored := w.scan.value, LiveCursor(cfg, w.lanes), LiveCursor(cfg, RecLanes(s.rec));
      && scan.since <= s.now && !w.phase.Fetched? && Settled(cfg, mine, scan.since) && Settled(cfg, stored, scan.since)
      && (w.phase.Ready? || w.phase.Loaded? ==> Settled(cfg, NextLive(cfg, w), scan.since))
      && (w.phase.Streamed? || w.phase.ScanLoaded? ==>
          Lists(cfg, s.api, scan.seen, mine) && Lists(cfg, s.api, scan.seen, stored))
  }

  ghost predicate SessionOk(cfg: Config, s: Sys, w: Work) {
    && CursorOk(cfg, s, LiveCursor(cfg, w.lanes)) && ScanFits(cfg, s, w)
    && (w.phase.Fetched? ==> FetchedOk(cfg, s.api, s.now, w))
    && (w.phase.Ready? || w.phase.Loaded? ==> ReadyOk(cfg, s.api, s.now, w))
  }

  ghost predicate NoSkipInv(cfg: Config, s: Sys) {
    && ApiOk(cfg, s.api)
    && CursorOk(cfg, s, LiveCursor(cfg, RecLanes(s.rec)))
    && forall sid :: Current(s, sid) && sid in s.work && s.work[sid].loaded ==> SessionOk(cfg, s, s.work[sid])
  }

  /** Side pages list rows as the API holds them, and the listing of a full scan has shown every valid
      row that was visible from its beginning to its end. */
  ghost predicate Honest(cfg: Config, s: Sys, step: Step) {
    && (step.SideFetch? ==> forall x :: x in step.page ==> x in s.api.Values)
    && (step.StreamIds? && Has(s, step.sid) && s.work[step.sid].scan.Some? ==>
          ShowsOld(cfg, s.api, s.work[step.sid].scan.value))
  }

  /** Every valid row that was visible when the scan began is listed. */
  ghost predicate ShowsOld(cfg: Config, api: map<string, Item>, scan: Scan) {
    forall id :: id in api && cfg.p.valid(api[id]) && Ts(cfg, api[id]) + cfg.lateness < scan.since ==> id in scan.seen
  }

  ghost predicate HonestRun(cfg: Config, s: Sys, steps: seq<Step>) {
    steps == [] || (HonestRun(cfg, s, steps[..|steps| - 1]) &&
        Honest(cfg, Run(cfg, s, steps[..|steps| - 1]), steps[|steps| - 1]))
  }

  // ---- the API moves --------------------------------------------------------------------------

  lemma ApiWriteKeepsSession(cfg: Config, s: Sys, item: Item, w: Work)
    requires SessionOk(cfg, s, w) && s.now <= Ts(cfg, item) + cfg.lateness
    ensures SessionOk(cfg, s.(api := s.api[cfg.p.identity(item) := item]), w)
  {
    var api' := s.api[cfg.p.identity(item) := item];
    assert Covered(cfg, api', s.rec.items, LiveCursor(cfg, w.lanes));
    if w.phase.Fetched? {
      assert Agrees(cfg, api', w.phase.page, w.phase.at);
      assert NoGap(cfg, api', w.phase.page, w.phase.from, w.phase.at);
    }
    if w.phase.Ready? || w.phase.Loaded? {
      assert Agrees(cfg, api', w.phase.raw, w.phase.at);
      assert Fills(cfg, api', w.phase.raw, LiveCursor(cfg, w.lanes), NextLive(cfg, w));
    }
  }

  lemma ApiDeleteKeepsSession(cfg: Config, s: Sys, id: string, w: Work)
    requires SessionOk(cfg, s, w)
    ensures SessionOk(cfg, s.(api := s.api - {id}), w)
  {
    var api' := s.api - {id};
    if w.phase.Fetched? {
      assert Agrees(cfg, api', w.phase.page, w.phase.at);
      assert NoGap(cfg, api', w.phase.page, w.phase.from, w.phase.at);
    }
    if w.phase.Ready? || w.phase.Loaded? {
      assert Agrees(cfg, api', w.phase.raw, w.phase.at);
      assert Fills(cfg, api', w.phase.raw, LiveCursor(cfg, w.lanes), NextLive(cfg, w));
    }
  }

  lemma TickKeepsSession(cfg: Config, s: Sys, d: nat, w: Work)
    requires SessionOk(cfg, s, w)
    ensures SessionOk(cfg, s.(now := s.now + d), w)
  {
  }

  lemma ApiStepKeepsNoSkip(cfg: Config, s: Sys, step: Step)
    requires NoSkipInv(cfg, s) && ApiStep(step)
    ensures NoSkipInv(cfg, Apply(cfg, s, step))
  {
    var s' := Apply(cfg, s, step);
    if s' == s { return; }
    forall sid | Current(s', sid) && sid in s'.work && s'.work[sid].loaded ensures SessionOk(cfg, s', s'.work[sid]) {
      ApiStepKeepsSession(cfg, s, step, s.work[sid]);
    }
    ApiStepKeepsSession(cfg, s, step, Work(true, RecLanes(s.rec), 0, None, Idle));
  }

  lemma ApiStepKeepsSession(cfg: Config, s: Sys, step: Step, w: Work)
    requires SessionOk(cfg, s, w) && ApiStep(step)
    ensures SessionOk(cfg, Apply(cfg, s, step), w)
  {
    match step
    case Tick(d) => TickKeepsSession(cfg, s, d, w);
    case ApiDelete(id) => ApiDeleteKeepsSession(cfg, s, id, w);
    case ApiWrite(item) => if s.now <= Ts(cfg, item) + cfg.lateness { ApiWriteKeepsSession(cfg, s, item, w); }
  }

  // ---- fetching and advancing -----------------------------------------------------------------

  lemma StartIsBefore(cfg: Config, w: Work, first: bool)
    requires LagOk(cfg) && StartOf(cfg, w, first).Some?
    ensures StartsBefore(cfg, StartOf(cfg, w, first).value, LiveCursor(cfg, w.lanes))
  {
    var c := LiveCursor(cfg, w.lanes);
    var from := StartOf(cfg, w, first).value;
    if from != c {
      var ms := cfg.ts.parse(c.value.value).value;
      assert cfg.ts.parse(cfg.ts.format(ms - cfg.ts.overlapMs, c.value.value)).Some?;
    }
  }

  lemma FetchIsOk(cfg: Config, s: Sys, w: Work, first: bool, page: seq<Item>)
    requires LagOk(cfg) && ApiOk(cfg, s.api) && SessionOk(cfg, s, w)
    requires StartOf(cfg, w, first).Some? && IsPage(cfg, s.api, StartOf(cfg, w, first).value, page)
    ensures SessionOk(cfg, s, w.(scan := None, phase := Fetched(page, StartOf(cfg, w, first).value, s.now)))
  {
    StartIsBefore(cfg, w, first);
    assert AllStamped(cfg, page);
  }

  /** Every row the new watermark passes was passed before or was kept. */
  lemma AdvanceFills(cfg: Config, api: map<string, Item>, now: int, w: Work, r: T.Advanced)
    requires LagOk(cfg) && w.phase.Fetched? && FetchedOk(cfg, api, now, w) && now <= w.phase.at + cfg.latency
    requires T.WellFormed(cfg.ts, LiveCursor(cfg, w.lanes))
    requires r == T.AdvanceSpec(cfg.ts, LiveCursor(cfg, w.lanes), w.phase.page, None, true, now) && r.Advanced?
    ensures T.WellFormed(cfg.ts, r.cursor) && Settled(cfg, r.cursor, w.phase.at)
    ensures Agrees(cfg, api, r.items, w.phase.at) && Fills(cfg, api, r.items, LiveCursor(cfg, w.lanes), r.cursor)
  {
    var c, q := LiveCursor(cfg, w.lanes), w.phase;
    T.AdvanceIsMax(cfg.ts, c, q.page, true, now);
    if r.cursor == c { return; }
    var x :| x in r.items && T.Millis(cfg.ts, x).Some? && T.ItemMark(cfg.ts, x) == T.MarkOf(cfg.ts, r.cursor);
    assert x in q.page && Stamped(cfg, x) && Ts(cfg, x) <= now - cfg.ts.lagMs;
    forall ts: int, id: string | Below(cfg, r.cursor, ts, id)
      ensures ts + cfg.lateness < q.at && KeyLe(cfg, ts, id, x) {}
    forall id | id in api && Below(cfg, r.cursor, Ts(cfg, api[id]), id) && !Below(cfg, c, Ts(cfg, api[id]), id)
      ensures api[id] in r.items {
      assert After(cfg, q.from, Ts(cfg, api[id]), id);
      assert api[id] in q.page;
    }
  }

  lemma AdvanceIsOk(cfg: Config, s: Sys, w: Work, r: T.Advanced)
    requires LagOk(cfg) && w.phase.Fetched? && SessionOk(cfg, s, w) && s.now <= w.phase.at + cfg.latency
    requires r == T.AdvanceSpec(cfg.ts, LiveCursor(cfg, w.lanes), w.phase.page, None, true, s.now) && r.Advanced?
    ensures SessionOk(cfg, s, w.(phase := Ready(r.items, Live, r.cursor, w.phase.at, false, false)))
  {
    AdvanceFills(cfg, s.api, s.now, w, r);
  }

  lemma SideFetchIsOk(cfg: Config, s: Sys, w: Work, page: seq<Item>, lane: Lane, laneCursor: Cursor, force: bool,
                      fullScan: bool)
    requires ApiOk(cfg, s.api) && SessionOk(cfg, s, w) && forall x :: x in page ==> x in s.api.Values
    ensures
      var next := if lane == Live then LiveCursor(cfg, w.lanes) else laneCursor;
      SessionOk(cfg, s, w.(phase := Ready(page, lane, next, s.now, force, fullScan)))
  {
  }

  lemma LocalKeepsNoSkip(cfg: Config, s: Sys, sid: nat, w: Work)
    requires NoSkipInv(cfg, s) && Has(s, sid)
    requires Current(s, sid) && w.loaded ==> SessionOk(cfg, s, w)
    ensures NoSkipInv(cfg, Put(s, sid, w))
  {
    var s' := Put(s, sid, w);
    forall t | Current(s', t) && t in s'.work && s'.work[t].loaded ensures SessionOk(cfg, s', s'.work[t]) {
      if t != sid { assert SessionOk(cfg, s, s.work[t]); }
    }
  }

  lemma FetchKeepsNoSkip(cfg: Config, s: Sys, sid: nat, first: bool, page: seq<Item>)
    requires LagOk(cfg) && NoSkipInv(cfg, s)
    ensures NoSkipInv(cfg, Apply(cfg, s, Fetch(sid, first, page)))
  {
    if !Has(s, sid) || !s.work[sid].loaded || !s.work[sid].phase.Idle? { return; }
    var w := s.work[sid];
    var from := StartOf(cfg, w, first);
    if from.None? || !IsPage(cfg, s.api, from.value, page) { return; }
    if Current(s, sid) { FetchIsOk(cfg, s, w, first, page); }
    LocalKeepsNoSkip(cfg, s, sid, w.(scan := None, phase := Fetched(page, from.value, s.now)));
  }

  lemma AdvanceKeepsNoSkip(cfg: Config, s: Sys, sid: nat)
    requires LagOk(cfg) && NoSkipInv(cfg, s)
    ensures NoSkipInv(cfg, Apply(cfg, s, Step.Advance(sid)))
  {
    if !Has(s, sid) || !s.work[sid].phase.Fetched? || s.now > s.work[sid].phase.at + cfg.latency { return; }
    var w := s.work[sid];
    var r := T.AdvanceSpec(cfg.ts, LiveCursor(cfg, w.lanes), w.phase.page, None, true, s.now);
    if r.BadCursor? { return; }
    if Current(s, sid) && w.loaded { AdvanceIsOk(cfg, s, w, r); }
    LocalKeepsNoSkip(cfg, s, sid, w.(phase := Ready(r.items, Live, r.cursor, w.phase.at, false, false)));
  }

  lemma SideFetchKeepsNoSkip(cfg: Config, s: Sys, step: Step)
    requires NoSkipInv(cfg, s) && step.SideFetch? && Honest(cfg, s, step)
    ensures NoSkipInv(cfg, Apply(cfg, s, step))
  {
    var sid := step.sid;
    if !Has(s, sid) || !s.work[sid].loaded || !s.work[sid].phase.Idle? { return; }
    var w := s.work[sid];
    if Current(s, sid) { SideFetchIsOk(cfg, s, w, step.page, step.lane, step.laneCursor, step.force, step.fullScan); }
    LocalKeepsNoSkip(cfg, s, sid, Apply(cfg, s, step).work[sid]);
  }

  lemma ReadKeepsNoSkip(cfg: Config, s: Sys, sid: nat)
    requires NoSkipInv(cfg, s)
    ensures NoSkipInv(cfg, Apply(cfg, s, ReadRows(sid)))
  {
    if !Has(s, sid) || !s.work[sid].phase.Ready? { return; }
    LocalKeepsNoSkip(cfg, s, sid, Apply(cfg, s, ReadRows(sid)).work[sid]);
  }

  predicate PlainStep(step: Step) { step.LoadState? || step.BeginScan? || step.LoadMissing? }

  lemma PlainKeepsNoSkip(cfg: Config, s: Sys, step: Step)
    requires NoSkipInv(cfg, s) && PlainStep(step)
    ensures NoSkipInv(cfg, Apply(cfg, s, step))
  {
    var s' := Apply(cfg, s, step);
    if s' != s { LocalKeepsNoSkip(cfg, s, step.sid, s'.work[step.sid]); }
  }

  lemma StreamIdsKeepsNoSkip(cfg: Config, s: Sys, step: Step)
    requires NoSkipInv(cfg, s) && step.StreamIds? && Honest(cfg, s, step)
    ensures NoSkipInv(cfg, Apply(cfg, s, step))
  {
    var s' := Apply(cfg, s, step);
    if s' == s { return; }
    var w := s.work[step.sid];
    if Current(s, step.sid) { ListingIsWhole(cfg, s, w, step.missing); }
    LocalKeepsNoSkip(cfg, s, step.sid, w.(phase := Streamed(step.missing)));
  }

  lemma ListingIsWhole(cfg: Config, s: Sys, w: Work, missing: seq<string>)
    requires SessionOk(cfg, s, w) && w.scan.Some? && ShowsOld(cfg, s.api, w.scan.value)
    ensures SessionOk(cfg, s, w.(phase := Streamed(missing)))
  {
  }

  // ---- committing -----------------------------------------------------------------------------

  /** After the page is stored, the rows up to `d` are. */
  lemma CommitCovers(cfg: Config, api: map<string, Item>, items: map<string, ItemRow>, items': map<string, ItemRow>,
                     raw: seq<Item>, at: int, c: Cursor, d: Cursor)
    requires ApiOk(cfg, api) && Covered(cfg, api, items, c) && Settled(cfg, d, at)
    requires Agrees(cfg, api, raw, at) && Fills(cfg, api, raw, c, d)
    requires PageEffect(cfg.p, Latest(cfg.p, ValidItems(cfg.p, raw)), items, items')
    ensures Covered(cfg, api, items', d)
  {
    var valid := ValidItems(cfg.p, raw);
    ValidItemsFacts(cfg.p, raw);
    LatestIsDistinct(cfg.p, valid);
    forall id | id in api && cfg.p.valid(api[id]) && Below(cfg, d, Ts(cfg, api[id]), id)
      ensures id in items' && Shows(cfg.p, items'[id], api[id])
    {
      if id in Ids(cfg.p, Latest(cfg.p, valid)) {
        var x :| x in Latest(cfg.p, valid) && cfg.p.identity(x) == id;
        assert x in raw;
      } else {
        assert api[id] !in valid;
        assert id in items;
      }
    }
  }

  /** What a page commit makes of the persisted cursor and of the session's own. */
  lemma CommitCoversBoth(cfg: Config, s: Sys, w: Work, c: PageCommit)
    requires ApiOk(cfg, s.api)
    requires w.phase.Loaded? && ReadsHold(cfg, s.rec, w) && SessionOk(cfg, s, w) && PageOf(cfg, w, s.now) == Some(c)
    ensures
      var s' := s.(rec := AfterPage(cfg, s.rec, w, c, s.now));
      && CursorOk(cfg, s', LiveCursor(cfg, w.lanes)) && CursorOk(cfg, s', NextLive(cfg, w))
      && RecLanes(s'.rec) == w.lanes[w.phase.lane := w.phase.next]
  {
    PageCommitEffect(cfg, s.rec, w, s.now);
    var cur, next, items' := LiveCursor(cfg, w.lanes), NextLive(cfg, w), AfterPage(cfg, s.rec, w, c, s.now).items;
    CommitCovers(cfg, s.api, s.rec.items, items', w.phase.raw, w.phase.at, cur, cur);
    CommitCovers(cfg, s.api, s.rec.items, items', w.phase.raw, w.phase.at, cur, next);
  }

  lemma LiveAfter(cfg: Config, w: Work)
    requires w.phase.Loaded?
    ensures LiveCursor(cfg, w.lanes[w.phase.lane := w.phase.next]) == NextLive(cfg, w)
  {
  }

  lemma WriteKeepsNoSkip(cfg: Config, s: Sys, sid: nat, rec: KeyRecord, events: seq<Event>, w: Work)
    requires LeaseInv(s) && NoSkipInv(cfg, s) && Has(s, sid) && rec.lease == s.rec.lease
    requires rec.epochCounter == s.rec.epochCounter
    requires Current(s, sid) ==>
               && CursorOk(cfg, s.(rec := rec), LiveCursor(cfg, RecLanes(rec)))
               && CursorOk(cfg, s.(rec := rec), LiveCursor(cfg, w.lanes)) && w.phase.Idle? &&
                   ScanFits(cfg, s.(rec := rec), w)
    ensures NoSkipInv(cfg, Write(s, sid, rec, events, w))
  {
    WriteKeepsLeases(s, sid, rec, events, w);
    var s' := Write(s, sid, rec, events, w);
    forall t | Current(s', t) && t in s'.work && s'.work[t].loaded ensures SessionOk(cfg, s', s'.work[t]) {
      if !Current(s, sid) { assert SessionOk(cfg, s, s.work[t]); }
    }
  }

  lemma CommitKeepsNoSkip(cfg: Config, s: Sys, sid: nat, applied: bool, replied: bool)
    requires Inv(cfg, s) && NoSkipInv(cfg, s)
    requires Has(s, sid) && s.work[sid].phase.Loaded?
    ensures NoSkipInv(cfg, ApplyCommit(cfg, s, sid, applied, replied))
  {
    var w := s.work[sid];
    var page := PageOf(cfg, w, s.now);
    if page.None? {
      LocalKeepsNoSkip(cfg, s, sid, w.(phase := Idle, scan := None));
    } else if !applied {
      LocalKeepsNoSkip(cfg, s, sid, CycleOver(w, page.value.sequence));
    } else {
      PageWriteKeepsNoSkip(cfg, s, sid, w, page.value,
                           if replied then Committed(cfg, w, page.value) else CycleOver(w, page.value.sequence));
    }
  }

  lemma PageWriteKeepsNoSkip(cfg: Config, s: Sys, sid: nat, w: Work, c: PageCommit, w': Work)
    requires Inv(cfg, s) && NoSkipInv(cfg, s)
    requires Has(s, sid) && s.work[sid] == w && w.phase.Loaded? && PageOf(cfg, w, s.now) == Some(c)
    requires w' == Committed(cfg, w, c) || w' == CycleOver(w, c.sequence)
    ensures NoSkipInv(cfg, Write(s, sid, AfterPage(cfg, s.rec, w, c, s.now), EventsOf(c.events), w'))
  {
    if Current(s, sid) {
      CommitCoversBoth(cfg, s, w, c);
      LiveAfter(cfg, w);
    }
    WriteKeepsNoSkip(cfg, s, sid, AfterPage(cfg, s.rec, w, c, s.now), EventsOf(c.events), w');
  }

  /** Deleting what the listing did not show leaves everything at or below the cursors in place. */
  lemma DeletesCover(cfg: Config, s: Sys, w: Work, events: seq<OutboxRow>)
    requires w.phase.ScanLoaded? && ReadsHold(cfg, s.rec, w) && SessionOk(cfg, s, w)
    requires CursorOk(cfg, s, LiveCursor(cfg, RecLanes(s.rec)))
    ensures
      var s' := s.(rec := AfterDeletes(cfg, s.rec, w, events, s.now));
      && RecLanes(s'.rec) == RecLanes(s.rec)
      && CursorOk(cfg, s', LiveCursor(cfg, RecLanes(s.rec))) && CursorOk(cfg, s', LiveCursor(cfg, w.lanes))
  {
    var rec' := AfterDeletes(cfg, s.rec, w, events, s.now);
    assert rec'.items == s.rec.items - Elems(w.phase.missing);
    forall id | id in s.rec.items && id in w.scan.value.seen
      ensures id in rec'.items && rec'.items[id] == s.rec.items[id] {}
  }

  lemma DeletesKeepNoSkip(cfg: Config, s: Sys, sid: nat, applied: bool)
    requires Inv(cfg, s) && NoSkipInv(cfg, s)
    ensures NoSkipInv(cfg, ApplyDeletes(cfg, s, sid, applied))
  {
    if !Has(s, sid) || !s.work[sid].phase.ScanLoaded? { return; }
    var w := s.work[sid];
    var events := DeletesOf(cfg, w, s.now);
    if !applied {
      LocalKeepsNoSkip(cfg, s, sid, CycleOver(w, w.sequence + |events|));
    } else {
      if Current(s, sid) { DeletesCover(cfg, s, w, events); }
      WriteKeepsNoSkip(cfg, s, sid, AfterDeletes(cfg, s.rec, w, events, s.now), EventsOf(events),
                       CycleOver(w, w.sequence + |events|));
    }
  }

  // ---- the rest -------------------------------------------------------------------------------

  lemma SaveKeepsNoSkip(cfg: Config, s: Sys, sid: nat)
    requires LeaseInv(s) && NoSkipInv(cfg, s)
    ensures NoSkipInv(cfg, Apply(cfg, s, SaveState(sid)))
  {
    if !Has(s, sid) || !s.work[sid].loaded || !s.work[sid].phase.Idle? { return; }
    var w := s.work[sid];
    WriteKeepsNoSkip(cfg, s, sid, ApplyPatch(s.rec, Patch(cfg, w.lanes, w.sequence, s.now)), [], w);
  }

  /** Steps on leases: nobody gains the fence except a session that has loaded nothing. */
  lemma LeaseKeepsNoSkip(cfg: Config, s: Sys, s': Sys)
    requires NoSkipInv(cfg, s)
    requires s'.api == s.api && s'.now == s.now && s'.rec.items == s.rec.items && s'.rec.state == s.rec.state
    requires forall t :: t in s'.work ==> (t in s.work && s'.work[t] == s.work[t]) || !s'.work[t].loaded
    requires forall t :: Current(s', t) && t in s.work ==> Current(s, t)
    ensures NoSkipInv(cfg, s')
  {
    forall t | Current(s', t) && t in s'.work && s'.work[t].loaded ensures SessionOk(cfg, s', s'.work[t]) {
      assert SessionOk(cfg, s, s.work[t]);
    }
  }

  lemma RewindKeepsNoSkip(cfg: Config, s: Sys, cursor: Cursor)
    requires NoSkipInv(cfg, s)
    ensures NoSkipInv(cfg, Apply(cfg, s, Rewind(cursor)))
  {
    if !Rewinds(cfg, s.rec, cursor) { return; }
    var s' := Apply(cfg, s, Rewind(cursor));
    assert LiveCursor(cfg, RecLanes(s'.rec)) == cursor;
    assert forall ts: int, id: string :: Below(cfg, cursor, ts, id) ==>
        Below(cfg, LiveCursor(cfg, RecLanes(s.rec)), ts, id);
    forall t | Current(s', t) && t in s'.work && s'.work[t].loaded ensures SessionOk(cfg, s', s'.work[t]) {
      assert SessionOk(cfg, s, s.work[t]);
    }
  }

  lemma AcquireKeepsNoSkip(cfg: Config, s: Sys, step: Step)
    requires LeaseInv(s) && NoSkipInv(cfg, s) && step.Acquire?
    ensures NoSkipInv(cfg, Apply(cfg, s, step))
  {
    if step.sid in s.leases || step.sid in s.work || !CanAcquire(s.rec, step.owner, step.clock) { return; }
    L.Acquired(s.rec, s.leases, s.granted, s.writes, step.sid, step.owner, step.ttl, step.clock);
    LeaseKeepsNoSkip(cfg, s, Apply(cfg, s, step));
  }

  lemma LeaveKeepsNoSkip(cfg: Config, s: Sys, step: Step)
    requires NoSkipInv(cfg, s) && (step.Renew? || step.Release? || step.Crash?)
    ensures NoSkipInv(cfg, Apply(cfg, s, step))
  {
    LeaseKeepsNoSkip(cfg, s, Apply(cfg, s, step));
  }

  lemma StepKeepsNoSkip(cfg: Config, s: Sys, step: Step)
    requires LagOk(cfg) && Inv(cfg, s) && NoSkipInv(cfg, s) && Honest(cfg, s, step)
    ensures NoSkipInv(cfg, Apply(cfg, s, step))
  {
    match step
    case Acquire(_, _, _, _) => AcquireKeepsNoSkip(cfg, s, step);
    case Fetch(sid, first, page) => FetchKeepsNoSkip(cfg, s, sid, first, page);
    case Advance(sid) => AdvanceKeepsNoSkip(cfg, s, sid);
    case SideFetch(_, _, _, _, _, _) => SideFetchKeepsNoSkip(cfg, s, step);
    case ReadRows(sid) => ReadKeepsNoSkip(cfg, s, sid);
    case Commit(sid, applied, replied) =>
      if Has(s, sid) && s.work[sid].phase.Loaded? { CommitKeepsNoSkip(cfg, s, sid, applied, replied); }
    case CommitDeletes(sid, applied) => DeletesKeepNoSkip(cfg, s, sid, applied);
    case StreamIds(_, _) => StreamIdsKeepsNoSkip(cfg, s, step);
    case SaveState(sid) => SaveKeepsNoSkip(cfg, s, sid);
    case Rewind(cursor) => RewindKeepsNoSkip(cfg, s, cursor);
    case _ =>
      if ApiStep(step) { ApiStepKeepsNoSkip(cfg, s, step); }
      else if PlainStep(step) { PlainKeepsNoSkip(cfg, s, step); }
      else { LeaveKeepsNoSkip(cfg, s, step); }
  }

  lemma {:induction false} RunKeepsNoSkip(cfg: Config, s: Sys, steps: seq<Step>)
    requires LagOk(cfg) && Init(cfg, s) && HonestRun(cfg, s, steps)
    ensures NoSkipInv(cfg, Run(cfg, s, steps))
  {
    if steps == [] {
    } else {
      RunKeepsNoSkip(cfg, s, steps[..|steps| - 1]);
      RunKeepsInv(cfg, s, steps[..|steps| - 1]);
      StepKeepsNoSkip(cfg, Run(cfg, s, steps[..|steps| - 1]), steps[|steps| - 1]);
    }
  }

  /** No skipped rows: after any interleaving of API writes, fetches, commits, full scans, crashes, steals
      and rewinds, every valid row in scope at or below the persisted cursor is stored at its current
      version, and with its current fingerprint if it has none. */
  lemma NoRowIsSkipped(cfg: Config, s: Sys, steps: seq<Step>, id: string)
    requires LagOk(cfg) && Init(cfg, s) && HonestRun(cfg, s, steps)
    requires id in Run(cfg, s, steps).api && cfg.p.valid(Run(cfg, s, steps).api[id])
    ensures
      var r := Run(cfg, s, steps);
      InScope(cfg, Ts(cfg, r.api[id])) && !After(cfg, LiveCursor(cfg, RecLanes(r.rec)), Ts(cfg, r.api[id]), id) ==>
        id in r.rec.items && Shows(cfg.p, r.rec.items[id], r.api[id])
  {
    RunKeepsNoSkip(cfg, s, steps);
  }

  /** With faithful versions, the stored fingerprint is the current one. */
  lemma NoChangeIsSkipped(cfg: Config, s: Sys, steps: seq<Step>, id: string)
    requires LagOk(cfg) && Init(cfg, s) && HonestRun(cfg, s, steps) && VersionsFaithful(cfg.p)
    requires id in Run(cfg, s, steps).api && cfg.p.valid(Run(cfg, s, steps).api[id])
    ensures
      var r := Run(cfg, s, steps);
      InScope(cfg, Ts(cfg, r.api[id])) && !After(cfg, LiveCursor(cfg, RecLanes(r.rec)), Ts(cfg, r.api[id]), id) ==>
        id in r.rec.items && r.rec.items[id].hash == cfg.p.fingerprint(r.api[id])
  {
    var r := Run(cfg, s, steps);
    NoRowIsSkipped(cfg, s, steps, id);
    RunKeepsInv(cfg, s, steps);
    RunKeepsNoSkip(cfg, s, steps);
    if id in r.rec.items && Shows(cfg.p, r.rec.items[id], r.api[id]) {
      ShownFaithfully(cfg.p, id, r.rec.items, r.api[id]);
    }
  }

  lemma ShownFaithfully(p: Poller, id: string, items: map<string, ItemRow>, x: Item)
    requires VersionsFaithful(p) && FromItems(p, items) && p.valid(x) && p.identity(x) == id && id in items
    requires Shows(p, items[id], x)
    ensures items[id].hash == p.fingerprint(x)
  {
    var y :| RowOf(p, id, items[id], y);
    if p.version(x).Some? { assert SameVersion(p, x, y); }
  }
}
