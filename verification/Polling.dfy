/** The polling protocol: any number of sessions racing on one `(poller, partition)` record, against
    an API that changes under them. Every step is atomic at the store or at the API; a session may
    stop between any two of its steps, or go on as a zombie after losing its lease. */
module Polling {
  import opened Store
  import opened Diff
  import opened Pages
  import T = Timestamp

  /** `idLe` is the API's own order of ids. Writes become visible at most `lateness` after their
      stamp, and the clock is read at most `latency` after the API evaluated a request. */
  datatype Config = Config(
    p: Poller, ts: T.Config, idLe: (string, string) -> bool, lateness: nat, latency: nat, onInvalid: OnInvalid)

  datatype Phase =
    | Idle
    | Fetched(page: seq<Item>, from: Cursor, at: int)
    | Ready(raw: seq<Item>, lane: Lane, next: Cursor, at: int, force: bool, fullScan: bool)
    | Loaded(raw: seq<Item>, lane: Lane, next: Cursor, at: int, force: bool, fullScan: bool,
             existing: map<string, ItemRow>)
    | Streamed(missing: seq<string>)
    | ScanLoaded(missing: seq<string>, rows: map<string, ItemRow>)

  /** A full scan under way: the identities seen so far, and when it began. */
  datatype Scan = Scan(seen: set<string>, since: int)

  /** What a session holds in memory. */
  datatype Work = Work(loaded: bool, lanes: map<Lane, Cursor>, sequence: nat, scan: Option<Scan>, phase: Phase)

  /** `stream` is every committed event in commit order, `granted` every epoch issued, `writes` the
      epoch of every accepted fenced write. */
  datatype Sys = Sys(
    now: int, api: map<string, Item>, rec: KeyRecord, leases: map<nat, Lease>, work: map<nat, Work>,
    stream: seq<Event>, granted: seq<nat>, writes: seq<nat>)

  datatype Step =
    | Tick(d: nat)
    | ApiWrite(item: Item)
    | ApiDelete(id: string)
    | Acquire(sid: nat, owner: string, ttl: int, clock: int)
    | Renew(sid: nat, ttl: int, clock: int)
    | Release(sid: nat)
    | Crash(sid: nat)
    | LoadState(sid: nat)
    | Fetch(sid: nat, first: bool, page: seq<Item>)
    | Advance(sid: nat)
    | BeginScan(sid: nat)
    | SideFetch(sid: nat, page: seq<Item>, lane: Lane, laneCursor: Cursor, force: bool, fullScan: bool)
    | ReadRows(sid: nat)
    | Commit(sid: nat, applied: bool, replied: bool)
    | StreamIds(sid: nat, missing: seq<string>)
    | LoadMissing(sid: nat)
    | CommitDeletes(sid: nat, applied: bool)
    | SaveState(sid: nat)
    | Rewind(cursor: Cursor)

  // ---- the API --------------------------------------------------------------------------------

  /** Rows carry a parseable stamp and, when a tie-break is configured, their id as tie. */
  predicate Stamped(cfg: Config, item: Item) {
    T.Millis(cfg.ts, item).Some? && (cfg.ts.hasTie ==> cfg.ts.tieOf(item) == Some(cfg.p.identity(item)))
  }

  function Ts(cfg: Config, item: Item): int {
    if T.Millis(cfg.ts, item).Some? then T.Millis(cfg.ts, item).value else 0
  }

  ghost predicate ApiOk(cfg: Config, api: map<string, Item>) {
    forall id :: id in api ==> cfg.p.identity(api[id]) == id && Stamped(cfg, api[id])
  }

  /** The rows a request from `cursor` selects: newer, or equally old with a larger id. */
  predicate After(cfg: Config, cursor: Cursor, ts: int, id: string) {
    var m := T.MarkOf(cfg.ts, cursor);
    m.ms.None? || ts > m.ms.value || (ts == m.ms.value && (m.tie.None? || !cfg.idLe(id, m.tie.value)))
  }

  predicate KeyLe(cfg: Config, ts: int, id: string, x: Item) {
    ts < Ts(cfg, x) || (ts == Ts(cfg, x) && cfg.idLe(id, cfg.p.identity(x)))
  }

  /** A reply to a keyset request: rows after `from`, each as stored, none left out in between. */
  ghost predicate IsPage(cfg: Config, api: map<string, Item>, from: Cursor, page: seq<Item>) {
    && (forall x :: x in page ==> cfg.p.identity(x) in api && api[cfg.p.identity(x)] == x)
    && (forall id, x :: id in api && x in page ==>
          After(cfg, from, Ts(cfg, api[id]), id) && KeyLe(cfg, Ts(cfg, api[id]), id, x) ==> api[id] in page)
  }

  // ---- steps ----------------------------------------------------------------------------------

  const IDLE := Work(false, map[], 0, None, Idle)

  function LiveCursor(cfg: Config, lanes: map<Lane, Cursor>): Cursor {
    if Live in lanes then lanes[Live] else Cursor(cfg.ts.initial, None)
  }

  function RecLanes(rec: KeyRecord): map<Lane, Cursor> { if rec.state.Some? then rec.state.value.lanes else map[] }

  function Put(s: Sys, sid: nat, w: Work): Sys { s.(work := s.work[sid := w]) }

  function Drop(s: Sys, sid: nat): Sys { s.(work := s.work - {sid}, leases := s.leases - {sid}) }

  predicate Current(s: Sys, sid: nat) { sid in s.leases && Fenced(s.rec, s.leases[sid]) }

  predicate Has(s: Sys, sid: nat) { sid in s.work && sid in s.leases }

  /** A fenced write: rejected for everyone but the lease holder, whose session then ends. */
  function Write(s: Sys, sid: nat, rec: KeyRecord, events: seq<Event>, w: Work): Sys
    requires sid in s.leases
  {
    if !Fenced(s.rec, s.leases[sid]) then Drop(s, sid)
    else s.(rec := rec, stream := s.stream + events, writes := s.writes + [s.leases[sid].epoch],
            work := s.work[sid := w])
  }

  function Patch(cfg: Config, lanes: map<Lane, Cursor>, sequence: nat, now: int): StatePatch {
    StatePatch(Some(lanes), None, Some(cfg.p.schemaVersion), Some(sequence), Some(now))
  }

  /** What the session would commit for the page it holds. */
  function PageOf(cfg: Config, w: Work, now: int): Option<PageCommit>
    requires w.phase.Loaded?
  {
    PageSpec(cfg.p, cfg.onInvalid, w.phase.lane, w.phase.force, w.phase.fullScan, w.phase.raw, w.phase.existing,
             w.sequence, now)
  }

  function PageBatch(cfg: Config, w: Work, c: PageCommit, now: int): CommitBatch
    requires w.phase.Loaded?
  {
    CommitBatch(Patch(cfg, w.lanes[w.phase.lane := w.phase.next], c.sequence, now), c.upserts, [], c.events, c.parked)
  }

  function Committed(cfg: Config, w: Work, c: PageCommit): Work
    requires w.phase.Loaded?
  {
    Work(true, w.lanes[w.phase.lane := w.phase.next], c.sequence, ScanAfter(cfg, w), Idle)
  }

  function ScanAfter(cfg: Config, w: Work): Option<Scan>
    requires w.phase.Loaded?
  {
    if !w.phase.fullScan || w.scan.None? then w.scan
    else Some(Scan(w.scan.value.seen + Ids(cfg.p, ValidItems(cfg.p, w.phase.raw)), w.scan.value.since))
  }

  /** A cycle that ended without an answer to its write: the in-memory cursor stays where it was. */
  function CycleOver(w: Work, sequence: nat): Work { w.(phase := Idle, scan := None, sequence := sequence) }

  function AfterPage(cfg: Config, rec: KeyRecord, w: Work, c: PageCommit, now: int): KeyRecord
    requires w.phase.Loaded?
  {
    CommitPoll(rec, PageBatch(cfg, w, c, now))
  }

  function AfterDeletes(cfg: Config, rec: KeyRecord, w: Work, events: seq<OutboxRow>, now: int): KeyRecord
    requires w.phase.ScanLoaded?
  {
    CommitPoll(rec, DeleteBatch(cfg, w, events, now))
  }

  function ApplyCommit(cfg: Config, s: Sys, sid: nat, applied: bool, replied: bool): Sys {
    if !Has(s, sid) || !s.work[sid].phase.Loaded? then s
    else
      var w := s.work[sid];
      var page := PageOf(cfg, w, s.now);
      if page.None? then Put(s, sid, w.(phase := Idle, scan := None))
      else
        var c := page.value;
        if !applied then Put(s, sid, CycleOver(w, c.sequence))
        else Write(s, sid, AfterPage(cfg, s.rec, w, c, s.now), EventsOf(c.events),
                   if replied then Committed(cfg, w, c) else CycleOver(w, c.sequence))
  }

  function DeletesOf(cfg: Config, w: Work, now: int): seq<OutboxRow>
    requires w.phase.ScanLoaded?
  {
    DeleteRows(cfg.p, Reconcile, w.phase.missing, |w.phase.missing|, w.phase.rows, w.sequence, now)
  }

  function DeleteBatch(cfg: Config, w: Work, events: seq<OutboxRow>, now: int): CommitBatch
    requires w.phase.ScanLoaded?
  {
    CommitBatch(StatePatch(None, None, None, Some(w.sequence + |events|), Some(now)), [], w.phase.missing, events, [])
  }

  function ApplyDeletes(cfg: Config, s: Sys, sid: nat, applied: bool): Sys {
    if !Has(s, sid) || !s.work[sid].phase.ScanLoaded? then s
    else
      var w := s.work[sid];
      var events := DeletesOf(cfg, w, s.now);
      if !applied then Put(s, sid, CycleOver(w, w.sequence + |events|))
      else Write(s, sid, AfterDeletes(cfg, s.rec, w, events, s.now), EventsOf(events),
                 CycleOver(w, w.sequence + |events|))
  }

  /** Where a request of this cycle starts: moved back by `overlap` on the first one only. */
  function StartOf(cfg: Config, w: Work, first: bool): Option<Cursor> {
    if first then T.ForFetch(cfg.ts, LiveCursor(cfg, w.lanes)) else Some(LiveCursor(cfg, w.lanes))
  }

  ghost predicate Enumerates(missing: seq<string>, ids: set<string>) {
    && Elems(missing) == ids
    && forall i, j :: 0 <= i < j < |missing| ==> missing[i] != missing[j]
  }

  /** Everything selected by the persisted cursor stays selected: the only unfenced cursor write considered. */
  ghost predicate Rewinds(cfg: Config, rec: KeyRecord, cursor: Cursor) {
    && T.WellFormed(cfg.ts, cursor)
    && forall ts: int, id: string :: After(cfg, LiveCursor(cfg, RecLanes(rec)), ts, id) ==> After(cfg, cursor, ts, id)
  }

  ghost function Apply(cfg: Config, s: Sys, step: Step): Sys {
    match step
    case Tick(d) => s.(now := s.now + d)
    case ApiWrite(item) =>
      if Stamped(cfg, item) &&
          s.now <= Ts(cfg, item) + cfg.lateness then s.(api := s.api[cfg.p.identity(item) := item]) else s
    case ApiDelete(id) => s.(api := s.api - {id})
    case Acquire(sid, owner, ttl, clock) =>
      if sid in s.leases || sid in s.work || !CanAcquire(s.rec, owner, clock) then s
      else
        var rec := AcquireLease(s.rec, owner, ttl, clock);
        s.(rec := rec, leases := s.leases[sid := rec.lease.value], work := s.work[sid := IDLE],
           granted := s.granted + [rec.epochCounter])
    case Renew(sid, ttl, clock) => if !Has(s, sid) then s else s.(rec := RenewLease(s.rec, s.leases[sid], ttl, clock))
    case Release(sid) => if !Has(s, sid) then s else Drop(s.(rec := ReleaseLease(s.rec, s.leases[sid])), sid)
    case Crash(sid) => Drop(s, sid)
    case LoadState(sid) =>
      if !Has(s, sid) then s else Put(s, sid, Work(true, RecLanes(s.rec), Sequence(s.rec), None, Idle))
    case Fetch(sid, first, page) =>
      if !Has(s, sid) || !s.work[sid].loaded || !s.work[sid].phase.Idle? then s
      else
        var from := StartOf(cfg, s.work[sid], first);
        if from.None? || !IsPage(cfg, s.api, from.value, page) then s
        else Put(s, sid, s.work[sid].(scan := None, phase := Fetched(page, from.value, s.now)))
    case Advance(sid) =>
      if !Has(s, sid) || !s.work[sid].phase.Fetched? || s.now > s.work[sid].phase.at + cfg.latency then s
      else
        var w := s.work[sid];
        var r := T.AdvanceSpec(cfg.ts, LiveCursor(cfg, w.lanes), w.phase.page, None, true, s.now);
        if r.BadCursor? then s
        else Put(s, sid, w.(phase := Ready(r.items, Live, r.cursor, w.phase.at, false, false)))
    case BeginScan(sid) =>
      if !Has(s, sid) || !s.work[sid].phase.Idle? then s else Put(s, sid, s.work[sid].(scan := Some(Scan({}, s.now))))
    case SideFetch(sid, page, lane, laneCursor, force, fullScan) =>
      if !Has(s, sid) || !s.work[sid].loaded || !s.work[sid].phase.Idle? then s
      else
        var w := s.work[sid];
        var next := if lane == Live then LiveCursor(cfg, w.lanes) else laneCursor;
        Put(s, sid, w.(phase := Ready(page, lane, next, s.now, force, fullScan)))
    case ReadRows(sid) =>
      if !Has(s, sid) || !s.work[sid].phase.Ready? then s
      else
        var w := s.work[sid];
        var q := w.phase;
        var existing := LoadVersions(s.rec, Ids(cfg.p, ValidItems(cfg.p, q.raw)));
        Put(s, sid, w.(phase := Loaded(q.raw, q.lane, q.next, q.at, q.force, q.fullScan, existing)))
    case Commit(sid, applied, replied) => ApplyCommit(cfg, s, sid, applied, replied)
    case StreamIds(sid, missing) =>
      if !Has(s, sid) || !s.work[sid].phase.Idle? || s.work[sid].scan.None? || !s.work[sid].loaded then s
      else if !Enumerates(missing, s.rec.items.Keys - s.work[sid].scan.value.seen) then s
      else Put(s, sid, s.work[sid].(phase := Streamed(missing)))
    case LoadMissing(sid) =>
      if !Has(s, sid) || !s.work[sid].phase.Streamed? then s
      else
        var w := s.work[sid];
        Put(s, sid, w.(phase := ScanLoaded(w.phase.missing, LoadVersions(s.rec, Elems(w.phase.missing)))))
    case CommitDeletes(sid, applied) => ApplyDeletes(cfg, s, sid, applied)
    case SaveState(sid) =>
      if !Has(s, sid) || !s.work[sid].loaded || !s.work[sid].phase.Idle? then s
      else Write(s, sid, ApplyPatch(s.rec, Patch(cfg, s.work[sid].lanes, s.work[sid].sequence, s.now)), [], s.work[sid])
    case Rewind(cursor) =>
      if !Rewinds(cfg, s.rec, cursor) then s
      else s.(rec := ApplyPatch(s.rec, StatePatch(Some(RecLanes(s.rec)[Live := cursor]), None, None, None, None)))
  }

  ghost function Run(cfg: Config, s: Sys, steps: seq<Step>): Sys {
    if steps == [] then s else Apply(cfg, Run(cfg, s, steps[..|steps| - 1]), steps[|steps| - 1])
  }

  /** A fresh key: nothing stored, nobody around, and any API. */
  ghost predicate Init(cfg: Config, s: Sys) {
    && ApiOk(cfg, s.api)
    && s.rec == EMPTY_RECORD && s.leases == map[] && s.work == map[] && s.stream == [] && s.granted == [] &&
        s.writes == []
  }
}
