/** One poll cycle of the instance that holds the key: processing a page, and the full scan that
    deletes what it did not see, but only when it saw the whole listing. */
module Runner {
  import opened Store
  import opened Diff
  import opened Pages
  import Memory = MemoryStore
  import Words

  // ---- one page -------------------------------------------------------------------------------

  method Validate(p: Poller, raw: seq<Item>) returns (valid: seq<Item>, invalid: seq<Item>)
    ensures valid == ValidItems(p, raw) && invalid == InvalidItems(p, raw)
  {
    valid, invalid := [], [];
    for i := 0 to |raw|
      invariant valid == ValidItems(p, raw[..i]) && invalid == InvalidItems(p, raw[..i])
    {
      assert raw[..i + 1][..i] == raw[..i];
      if p.valid(raw[i]) { valid := valid + [raw[i]]; } else { invalid := invalid + [raw[i]]; }
    }
    assert raw[..|raw|] == raw;
  }

  method QuarantineAll(p: Poller, invalid: seq<Item>, now: int) returns (parked: seq<ParkedRow>)
    ensures parked == QuarantineRows(p, invalid, now)
  {
    parked := [];
    for i := 0 to |invalid|
      invariant parked == QuarantineRows(p, invalid[..i], now)
    {
      assert invalid[..i + 1][..i] == invalid[..i];
      parked := parked + [QuarantineRow(p, invalid[i], now)];
    }
    assert invalid[..|invalid|] == invalid;
  }

  method ListIdentities(p: Poller, items: seq<Item>) returns (ids: seq<string>)
    ensures ids == Identities(p, items)
  {
    ids := [];
    for i := 0 to |items|
      invariant ids == Identities(p, items[..i])
    {
      assert items[..i + 1][..i] == items[..i];
      ids := ids + [p.identity(items[i])];
    }
    assert items[..|items|] == items;
  }

  /** Number the changes, in diff order. */
  method EmitChanges(p: Poller, lane: Lane, changes: seq<Change>, seq0: nat, now: int) returns (events: seq<OutboxRow>)
    ensures events == ChangeRows(p, lane, changes, seq0, now)
  {
    events := [];
    for i := 0 to |changes|
      invariant events == ChangeRows(p, lane, changes[..i], seq0, now)
    {
      assert changes[..i + 1][..i] == changes[..i];
      events := events + [ChangeRow(p, lane, changes[i], seq0 + i + 1, now)];
    }
    assert changes[..|changes|] == changes;
  }

  /** Forced backfill: known identities without a change are emitted again. */
  method EmitForced(p: Poller, lane: Lane, ids: seq<string>, changed: set<string>, latest: seq<Item>,
                    existing: map<string, ItemRow>, seq0: nat, now: int)
    returns (events: seq<OutboxRow>)
    ensures events == ForceRows(p, lane, ids, changed, latest, existing, seq0, now)
  {
    events := [];
    for i := 0 to |ids|
      invariant events == ForceRows(p, lane, ids[..i], changed, latest, existing, seq0, now)
    {
      assert ids[..i + 1][..i] == ids[..i];
      var at := Position(p, latest, ids[i]);
      if ids[i] !in changed && ids[i] in existing && at < |latest| {
        var row := existing[ids[i]];
        events := events + [EventRow(p, lane, Updated, ids[i], GetOr(row.version, row.hash), Some(latest[at]),
                                     seq0 + 1 + |events|, now)];
      }
    }
    assert ids[..|ids|] == ids;
  }

  method EmitPage(p: Poller, lane: Lane, force: bool, changes: seq<Change>, ids: seq<string>, latest: seq<Item>,
                  existing: map<string, ItemRow>, seq0: nat, now: int)
    returns (events: seq<OutboxRow>)
    ensures events == PageRows(p, lane, force, changes, ids, latest, existing, seq0, now)
  {
    var rows := EmitChanges(p, lane, changes, seq0, now);
    var forced :=
        EmitForced(p, lane, if force then ids else [], ChangedIds(changes), latest, existing, seq0 + |rows|, now);
    events := rows + forced;
  }

  method DiffPage(p: Poller, valid: seq<Item>, existing: map<string, ItemRow>, now: int,
                  fullScan: bool) returns (diff: DiffResult)
    ensures diff == PageDiff(p, Latest(p, valid), existing, now, fullScan)
  {
    var candidates, _ := PrepareCandidates(p, valid, existing);
    diff := DiffCandidates(p, candidates, existing, now, fullScan);
  }

  /** Validate, read the stored rows, diff, and number the events; nothing when an invalid item fails the cycle. */
  method ProcessPage(store: Memory.MemoryStore, key: Memory.PKey, p: Poller, onInvalid: OnInvalid, lane: Lane,
                     force: bool, fullScan: bool,
                     raw: seq<Item>, seq0: nat, now: int) returns (out: Option<PageCommit>)
    ensures out == PageSpec(p, onInvalid, lane, force, fullScan, raw,
                            LoadVersions(store.Rec(key), Elems(Identities(p, ValidItems(p, raw)))), seq0, now)
  {
    var valid, invalid := Validate(p, raw);
    if invalid != [] && onInvalid == Fail { return None; }
    var parked := [];
    if onInvalid == Quarantine { parked := QuarantineAll(p, invalid, now); }
    var ids := ListIdentities(p, valid);
    var existing := store.LoadVersions(key, ids);
    var diff := DiffPage(p, valid, existing, now, fullScan);
    var events := EmitPage(p, lane, force, diff.changes, ids, Latest(p, valid), existing, seq0, now);
    out := Some(PageCommit(diff.upserts, events, parked, seq0 + |events|));
  }

  // ---- full scan ------------------------------------------------------------------------------

  const FULL_SCAN_PAGE_CAP := 10_000

  /** What the fetch of one page gives; `last` is the strategy's verdict that the listing ended. */
  datatype Fetched = Page(items: seq<Item>, last: bool, notModified: bool) | Throws

  /** What happens around page `n`: whether a drain after it halts, the lease is renewed after it, the deadline has
      passed after it, and the cycle is aborted before the next one. */
  datatype Fate = Fate(halts: nat -> bool, held: nat -> bool, late: nat -> bool, aborts: nat -> bool)

  datatype ScanEnd = Completed | Incomplete | Failed | Lost

  /** The valid identities on the first `n` pages. */
  function Listed(p: Poller, fetch: nat -> Fetched, n: nat): set<string> {
    if n == 0 then {}
    else Listed(p, fetch, n - 1) + if fetch(n).Page? then Ids(p, ValidItems(p, fetch(n).items)) else {}
  }

  /** The snapshot and the listing agree, and with them the stream unless rows of another schema version
      are rewritten. */
  ghost predicate ScanOk(p: Poller, before: map<string, ItemRow>, items: map<string, ItemRow>,
                         listed: set<string>, events: seq<OutboxRow>) {
    && items.Keys == before.Keys + listed
    && (SchemaOk(p, before) ==> SchemaOk(p, items) && Fold(p, Hashes(before), EventsOf(events)) == Hashes(items))
    && (forall r :: r in events ==> r.event.kind != Deleted)
  }

  lemma {:induction false} ChangeKinds(p: Poller, lane: Lane, changes: seq<Change>, seq0: nat, now: int)
    requires ChangesFaithful(p, changes)
    ensures forall r :: r in ChangeRows(p, lane, changes, seq0, now) ==> r.event.kind != Deleted
  {
    if changes == [] {
    } else {
      assert changes == changes[..|changes| - 1] + [changes[|changes| - 1]];
      ChangeKinds(p, lane, changes[..|changes| - 1], seq0, now);
    }
  }

  lemma {:induction false} ForcedKinds(p: Poller, lane: Lane, ids: seq<string>, changed: set<string>,
                                       latest: seq<Item>, existing: map<string, ItemRow>, seq0: nat, now: int)
    ensures forall r :: r in ForceRows(p, lane, ids, changed, latest, existing, seq0, now) ==> r.event.kind != Deleted
  {
    if ids == [] {
    } else {
      ForcedKinds(p, lane, ids[..|ids| - 1], changed, latest, existing, seq0, now);
    }
  }

  /** A page never emits a delete. */
  lemma PageKinds(p: Poller, lane: Lane, force: bool, latest: seq<Item>, ids: seq<string>,
                  existing: map<string, ItemRow>, seq0: nat, now: int, touch: bool)
    ensures
      var changes := PageDiff(p, latest, existing, now, touch).changes;
      forall r :: r in PageRows(p, lane, force, changes, ids, latest, existing, seq0, now) ==> r.event.kind != Deleted
  {
    var changes := PageDiff(p, latest, existing, now, touch).changes;
    DiffChangesFaithful(p, latest, existing, now, touch);
    ChangeKinds(p, lane, changes, seq0, now);
    ForcedKinds(p, lane, if force then ids else [], ChangedIds(changes), latest, existing,
                seq0 + |ChangeRows(p, lane, changes, seq0, now)|, now);
  }

  /** Committing one more page keeps snapshot, stream and listing in step. */
  lemma ScanGrows(p: Poller, before: map<string, ItemRow>, items: map<string, ItemRow>, listed: set<string>,
                  events: seq<OutboxRow>, onInvalid: OnInvalid, lane: Lane, fullScan: bool, raw: seq<Item>,
                  existing: map<string, ItemRow>, seq0: nat, now: int)
    requires ScanOk(p, before, items, listed, events)
    requires ReadsFrom(existing, items, Ids(p, ValidItems(p, raw)))
    requires PageSpec(p, onInvalid, lane, false, fullScan, raw, existing, seq0, now).Some?
    ensures
      var c := PageSpec(p, onInvalid, lane, false, fullScan, raw, existing, seq0, now).value;
      ScanOk(p, before, PutItems(items, c.upserts), listed + Ids(p, ValidItems(p, raw)), events + c.events)
  {
    var c := PageSpec(p, onInvalid, lane, false, fullScan, raw, existing, seq0, now).value;
    var valid := ValidItems(p, raw);
    LatestIsDistinct(p, valid);
    PageIsFaithful(p, items, onInvalid, lane, false, fullScan, raw, existing, seq0, now);
    ValidItemsFacts(p, raw);
    EffectKeepsRows(p, Latest(p, valid), items, PutItems(items, c.upserts));
    PageKinds(p, lane, false, Latest(p, valid), Identities(p, valid), existing, seq0, now, fullScan);
    ScanStep(p, before, items, PutItems(items, c.upserts), listed, Ids(p, valid), events, c.events);
  }

  lemma ScanStep(p: Poller, before: map<string, ItemRow>, items: map<string, ItemRow>, items': map<string, ItemRow>,
                 listed: set<string>, ids: set<string>, events: seq<OutboxRow>, more: seq<OutboxRow>)
    requires ScanOk(p, before, items, listed, events) && items'.Keys == items.Keys + ids
    requires SchemaOk(p, items) ==> SchemaOk(p, items') && Fold(p, Hashes(items), EventsOf(more)) == Hashes(items')
    requires forall r :: r in more ==> r.event.kind != Deleted
    ensures ScanOk(p, before, items', listed + ids, events + more)
  {
    FoldTwo(p, Hashes(before), events, more);
    assert items'.Keys == before.Keys + (listed + ids);
    forall r | r in events + more ensures r.event.kind != Deleted { assert r in events || r in more; }
  }

  /** `deletes` are one `deleted` event for each of `gone`, in the order of their code units. */
  ghost predicate DeletesOnce(deletes: seq<OutboxRow>, gone: set<string>) {
    && (forall i :: 0 <= i < |deletes| ==> deletes[i].event.kind == Deleted && deletes[i].event.subject in gone)
    && (forall i, j :: 0 <= i < j < |deletes| ==>
          deletes[i].event.subject != deletes[j].event.subject && Words.StringLe(deletes[i].event.subject,
              deletes[j].event.subject))
    && (forall id :: id in gone ==> exists i :: 0 <= i < |deletes| && deletes[i].event.subject == id)
  }

  lemma DeletesAreOnce(missing: seq<string>, out: seq<OutboxRow>, gone: set<string>)
    requires (forall id :: id in missing <==> id in gone) && Words.NoRepeat(missing) && Words.Sorted(missing)
    requires |out| == |missing|
    requires forall i :: 0 <= i < |out| ==> out[i].event.kind == Deleted && out[i].event.subject == missing[i]
    ensures DeletesOnce(out, gone)
  {
    forall id | id in gone ensures exists i :: 0 <= i < |out| && out[i].event.subject == id {
      var i :| 0 <= i < |missing| && missing[i] == id;
      assert out[i].event.subject == id;
    }
    forall i | 0 <= i < |out| ensures out[i].event.subject in gone { assert missing[i] in missing; }
  }

  lemma HashesWithout(items: map<string, ItemRow>, ids: set<string>)
    ensures Hashes(items) - ids == Hashes(items - ids)
  {
  }

  lemma OnlyListedRemain(before: map<string, ItemRow>, items: map<string, ItemRow>, listed: set<string>,
                         missing: seq<string>)
    requires items.Keys == before.Keys + listed && (forall id :: id in missing <==> id in before.Keys - listed)
    ensures (items - Elems(missing)).Keys == listed
  {
  }

  lemma FoldDeletes(p: Poller, before: map<string, ItemRow>, items: map<string, ItemRow>, events: seq<OutboxRow>,
                    missing: seq<string>, out: seq<OutboxRow>)
    requires |out| == |missing|
    requires forall i :: 0 <= i < |out| ==> out[i].event.kind == Deleted && out[i].event.subject == missing[i]
    ensures Fold(p, Hashes(before), EventsOf(events)) == Hashes(items) ==>
              Fold(p, Hashes(before), EventsOf(events + out)) == Hashes(items - Elems(missing))
  {
    ReplayDeletes(p, Hashes(items), EventsOf(out), missing);
    FoldTwo(p, Hashes(before), events, out);
    HashesWithout(items, Elems(missing));
  }

  lemma ScanDeletes(p: Poller, before: map<string, ItemRow>, items: map<string, ItemRow>, listed: set<string>,
                    events: seq<OutboxRow>, lane: Lane, missing: seq<string>, rows: map<string, ItemRow>, seq0: nat,
                    now: int)
    requires items.Keys == before.Keys + listed
    requires (forall id :: id in missing <==> id in before.Keys - listed) && Words.NoRepeat(missing)
    requires Words.Sorted(missing)
    requires forall id :: id in missing ==> id in rows
    ensures
      var out := DeleteRows(p, lane, missing, |missing|, rows, seq0, now);
      && (items - Elems(missing)).Keys == listed && DeletesOnce(out, before.Keys - listed)
      && (Fold(p, Hashes(before), EventsOf(events)) == Hashes(items) ==>
            Fold(p, Hashes(before), EventsOf(events + out)) == Hashes(items - Elems(missing)))
  {
    var out := DeleteRows(p, lane, missing, |missing|, rows, seq0, now);
    OneDeleteEach(p, lane, missing, |missing|, rows, seq0, now);
    OnlyListedRemain(before, items, listed, missing);
    DeletesAreOnce(missing, out, before.Keys - listed);
    FoldDeletes(p, before, items, events, missing, out);
  }

  // ---- the scan itself ------------------------------------------------------------------------

  /** Commit a page under the lease, with the lane cursors if they moved. */
  method CommitPage(store: Memory.MemoryStore, key: Memory.PKey, lease: Lease, p: Poller,
                    lanes: Option<map<Lane, Cursor>>, c: PageCommit, now: int) returns (ok: bool)
    requires store.Valid()
    modifies store
    ensures store.Valid() && ok == Fenced(old(store.Rec(key)), lease) == Fenced(store.Rec(key), lease)
    ensures store.Rec(key).items == if ok then
              PutItems(old(store.Rec(key).items), c.upserts) else old(store.Rec(key).items)
    ensures LanesOf(store.Rec(key)) == if ok && lanes.Some? then lanes.value else LanesOf(old(store.Rec(key)))
    ensures Sequence(store.Rec(key)) == if ok then c.sequence else Sequence(old(store.Rec(key)))
    ensures ok ==> Stamped(store.Rec(key), Some(p.schemaVersion), now)
    ensures store.Rec(key).outbox == if ok then
              PutOutbox(old(store.Rec(key).outbox), c.events) else old(store.Rec(key).outbox)
    ensures store.Rec(key).parked == if ok then
              PutParked(old(store.Rec(key).parked), c.parked) else old(store.Rec(key).parked)
  {
    ghost var items := PutItems(store.Rec(key).items, c.upserts);
    assert items - Elems([]) == items;
    var patch := StatePatch(lanes, None, Some(p.schemaVersion), Some(c.sequence), Some(now));
    ok := store.CommitPoll(key, lease, CommitBatch(patch, c.upserts, [], c.events, c.parked));
  }

  /** The state was last written at `now`, at this schema version. */
  predicate Stamped(rec: KeyRecord, schemaVersion: Option<int>, now: int) {
    rec.state.Some? && rec.state.value.schemaVersion == schemaVersion && rec.state.value.updatedAt == now
  }

  function LanesOf(rec: KeyRecord): map<Lane, Cursor> { if rec.state.Some? then rec.state.value.lanes else map[] }

  lemma PageScans(p: Poller, before: map<string, ItemRow>, rec: KeyRecord, listed: set<string>,
                  events: seq<OutboxRow>, onInvalid: OnInvalid, lane: Lane, fullScan: bool, raw: seq<Item>, seq0: nat,
                  now: int)
    requires ScanOk(p, before, rec.items, listed, events)
    ensures
      var c := PageSpec(p, onInvalid, lane, false, fullScan, raw,
                        LoadVersions(rec, Elems(Identities(p, ValidItems(p, raw)))), seq0, now);
      c.Some? ==> ScanOk(p, before, PutItems(rec.items, c.value.upserts), listed + Ids(p, ValidItems(p, raw)),
                         events + c.value.events)
  {
    var existing := LoadVersions(rec, Elems(Identities(p, ValidItems(p, raw))));
    ListsAll(p, ValidItems(p, raw));
    if PageSpec(p, onInvalid, lane, false, fullScan, raw, existing, seq0, now).Some? {
      ScanGrows(p, before, rec.items, listed, events, onInvalid, lane, fullScan, raw, existing, seq0, now);
    }
  }

  /** An invalid item fails the page. */
  ghost predicate Refused(p: Poller, onInvalid: OnInvalid, raw: seq<Item>) {
    onInvalid == Fail && exists x :: x in raw && !p.valid(x)
  }

  lemma InvalidIsRefused(p: Poller, onInvalid: OnInvalid, raw: seq<Item>)
    ensures InvalidItems(p, raw) != [] && onInvalid == Fail <==> Refused(p, onInvalid, raw)
  {
    InvalidItemsFacts(p, raw);
    if InvalidItems(p, raw) != [] { assert InvalidItems(p, raw)[0] in InvalidItems(p, raw); }
  }

  /** One page of the scan: process, then commit. */
  method ScanPage(store: Memory.MemoryStore, key: Memory.PKey, lease: Lease, p: Poller,
                  onInvalid: OnInvalid, lane: Lane, raw: seq<Item>, seq0: nat, now: int,
                  ghost before: map<string, ItemRow>, ghost listed: set<string>, ghost events: seq<OutboxRow>)
    returns (end: ScanEnd, more: seq<OutboxRow>)
    requires store.Valid() && ScanOk(p, before, store.Rec(key).items, listed, events)
    modifies store
    ensures store.Valid()
    ensures end == Completed ==>
              ScanOk(p, before, store.Rec(key).items, listed + Ids(p, ValidItems(p, raw)), events + more)
    ensures end != Completed ==> store.Rec(key).items == old(store.Rec(key).items) && more == []
    ensures end != Incomplete && (end == Lost ==> !Fenced(store.Rec(key), lease))
    ensures end == Failed ==> Refused(p, onInvalid, raw)
  {
    InvalidIsRefused(p, onInvalid, raw);
    PageScans(p, before, store.Rec(key), listed, events, onInvalid, lane, true, raw, seq0, now);
    var out := ProcessPage(store, key, p, onInvalid, lane, false, true, raw, seq0, now);
    if out.None? { return Failed, []; }
    var ok := CommitPage(store, key, lease, p, None, out.value, now);
    if !ok { return Lost, []; }
    end, more := Completed, out.value.events;
  }

  /** The first `n` replies are pages with more to come. */
  predicate Opens(fetch: nat -> Fetched, n: nat) { n == 0 || (Opens(fetch, n - 1) && fetch(n).Page? && !fetch(n).last) }

  /** None of the first `n` replies was a 304. */
  predicate Fresh(fetch: nat -> Fetched, n: nat) {
    n == 0 || (Fresh(fetch, n - 1) && !(fetch(n).Page? && fetch(n).notModified))
  }

  predicate WholeListing(fetch: nat -> Fetched, n: nat) {
    1 <= n <= FULL_SCAN_PAGE_CAP && Opens(fetch, n - 1) && fetch(n).Page? && fetch(n).last && Fresh(fetch, n)
  }

  lemma {:induction false} EveryPage(fetch: nat -> Fetched, n: nat, i: nat)
    requires 1 <= i <= n
    ensures Opens(fetch, n) ==> fetch(i).Page? && !fetch(i).last
    ensures Fresh(fetch, n) ==> !(fetch(i).Page? && fetch(i).notModified)
  {
    if i < n { EveryPage(fetch, n - 1, i); }
  }

  /** Where a scan stands: how it ended or that it goes on, the pages, the identities on them, the events. */
  datatype Scan = Scan(end: Option<ScanEnd>, n: nat, seen: set<string>, events: seq<OutboxRow>, sequence: nat,
                       saw304: bool)

  ghost predicate ScanAt(p: Poller, onInvalid: OnInvalid, fetch: nat -> Fetched, f: Fate, s: Scan) {
    && s.n <= FULL_SCAN_PAGE_CAP && s.seen == Listed(p, fetch, s.n) && s.saw304 == !Fresh(fetch, s.n)
    && (s.end.None? ==> Opens(fetch, s.n)) && (s.end == Some(Completed) ==> WholeListing(fetch, s.n))
    && (s.end == Some(Incomplete) ==> CutShort(fetch, f, s.n)) && (s.end == Some(Failed) ==>
        Fails(p, onInvalid, fetch, f, s.n))
  }

  /** Why a scan that did not fail is not complete: page cap, deadline, halt, or a 304 somewhere in the listing. */
  ghost predicate CutShort(fetch: nat -> Fetched, f: Fate, n: nat) {
    || n >= FULL_SCAN_PAGE_CAP || f.late(n) || f.halts(n)
    || (n > 0 && fetch(n).Page? && fetch(n).last && !Fresh(fetch, n))
  }

  /** Why a scan fails after page `n`. */
  ghost predicate Fails(p: Poller, onInvalid: OnInvalid, fetch: nat -> Fetched, f: Fate, n: nat) {
    f.aborts(n) || fetch(n + 1).Throws? || Refused(p, onInvalid, fetch(n + 1).items)
  }

  /** After page `s.n + 1` was committed with `more` events; `halted` tells whether draining them halted, `held`
      whether the lease could be renewed. */
  function AfterScanPage(p: Poller, s: Scan, page: Fetched, more: seq<OutboxRow>, halted: bool, held: bool): Scan
    requires page.Page?
  {
    var saw304, stop := s.saw304 || page.notModified, halted && more != [];
    var end := if stop then Some(Incomplete) else if !held then Some(Lost) else if !page.last then None
      else if saw304 then Some(Incomplete) else Some(Completed);
    Scan(end, s.n + 1, s.seen + Ids(p, ValidItems(p, page.items)), s.events + more, s.sequence + |more|, saw304)
  }

  lemma ScanMoves(p: Poller, onInvalid: OnInvalid, fetch: nat -> Fetched, f: Fate, s: Scan, more: seq<OutboxRow>,
                  r: Scan)
    requires ScanAt(p, onInvalid, fetch, f, s) && s.end.None? && s.n < FULL_SCAN_PAGE_CAP && fetch(s.n + 1).Page?
    requires r == AfterScanPage(p, s, fetch(s.n + 1), more, f.halts(s.n + 1), f.held(s.n + 1))
    ensures ScanAt(p, onInvalid, fetch, f, r) && r.n == s.n + 1 && (r.end == Some(Lost) ==> !f.held(r.n))
    ensures r.seen == s.seen + Ids(p, ValidItems(p, fetch(s.n + 1).items)) && r.events == s.events + more
  {
  }

  /** One turn of the page loop: page `s.n + 1`. */
  method ScanTurn(store: Memory.MemoryStore, key: Memory.PKey, lease: Lease, p: Poller, onInvalid: OnInvalid,
                  lane: Lane,
                  fetch: nat -> Fetched, f: Fate, now: int, ghost before: map<string, ItemRow>, s: Scan)
    returns (r: Scan)
    requires store.Valid() && ScanOk(p, before, store.Rec(key).items, s.seen, s.events)
    requires ScanAt(p, onInvalid, fetch, f, s) && s.end.None? && s.n < FULL_SCAN_PAGE_CAP && fetch(s.n + 1).Page?
    modifies store
    ensures store.Valid() && ScanOk(p, before, store.Rec(key).items, r.seen, r.events)
    ensures ScanAt(p, onInvalid, fetch, f, r) && s.n <= r.n && (r.n == s.n ==> r.end.Some?)
    ensures r.end == Some(Lost) ==> !f.held(r.n) || !Fenced(store.Rec(key), lease)
  {
    var page := fetch(s.n + 1);
    var end, more :=
        ScanPage(store, key, lease, p, onInvalid, lane, page.items, s.sequence, now, before, s.seen, s.events);
    if end == Completed {
      r := AfterScanPage(p, s, page, more, f.halts(s.n + 1), f.held(s.n + 1));
      ScanMoves(p, onInvalid, fetch, f, s, more, r);
    } else {
      r := s.(end := Some(end));
    }
  }

  /** Pages until the listing ends, the page cap or the deadline is hit, the drain between pages halts,
      or the cycle is aborted. `Completed` means that the whole listing was seen and no reply was a 304, and
      every other end has its reason. */
  method ScanPages(store: Memory.MemoryStore, key: Memory.PKey, lease: Lease, p: Poller,
                   onInvalid: OnInvalid, lane: Lane, fetch: nat -> Fetched, f: Fate, now: int)
    returns (s: Scan)
    requires store.Valid()
    modifies store
    ensures store.Valid() && ScanOk(p, old(store.Rec(key).items), store.Rec(key).items, s.seen, s.events)
    ensures ScanAt(p, onInvalid, fetch, f, s) && s.end.Some?
    ensures s.end == Some(Lost) ==> !f.held(s.n) || !Fenced(store.Rec(key), lease)
  {
    ghost var before := store.Rec(key).items;
    s := Scan(None, 0, {}, [], Sequence(store.Rec(key)), false);
    while s.end.None?
      invariant store.Valid() && ScanOk(p, before, store.Rec(key).items, s.seen, s.events)
      invariant ScanAt(p, onInvalid, fetch, f, s)
      invariant s.end == Some(Lost) ==> !f.held(s.n) || !Fenced(store.Rec(key), lease)
      decreases s.end.None?, FULL_SCAN_PAGE_CAP - s.n
    {
      if f.aborts(s.n) {
        s := s.(end := Some(Failed));
      } else if f.late(s.n) || s.n >= FULL_SCAN_PAGE_CAP {
        s := s.(end := Some(Incomplete));
      } else if fetch(s.n + 1).Throws? {
        s := s.(end := Some(Failed));
      } else {
        s := ScanTurn(store, key, lease, p, onInvalid, lane, fetch, f, now, before, s);
      }
    }
  }

  /** Every stored identity once, in any order. */
  method StreamIdentities(items: map<string, ItemRow>) returns (ids: seq<string>)
    ensures (forall id :: id in ids <==> id in items) && Words.NoRepeat(ids)
  {
    var todo := items.Keys;
    ids := [];
    while todo != {}
      invariant todo <= items.Keys && (forall id :: id in ids <==> id in items && id !in todo)
      invariant Words.NoRepeat(ids)
      decreases |todo|
    {
      var id :| id in todo;
      todo, ids := todo - {id}, ids + [id];
    }
  }

  method EmitDeletes(p: Poller, lane: Lane, missing: seq<string>, rows: map<string, ItemRow>, seq0: nat,
                     now: int) returns (events: seq<OutboxRow>)
    ensures events == DeleteRows(p, lane, missing, |missing|, rows, seq0, now)
  {
    events := [];
    for i := 0 to |missing|
      invariant events == DeleteRows(p, lane, missing, i, rows, seq0, now)
    {
      if missing[i] in rows {
        events := events + [DeleteRow(p, lane, missing[i], rows[missing[i]], seq0 + 1 + |events|, now)];
      }
    }
  }

  method CommitDeletes(store: Memory.MemoryStore, key: Memory.PKey, lease: Lease, missing: seq<string>,
                       events: seq<OutboxRow>, sequence: nat, now: int)
    returns (ok: bool)
    requires store.Valid()
    modifies store
    ensures store.Valid() && store.Rec(key).items == if ok then
              old(store.Rec(key).items) - Elems(missing) else old(store.Rec(key).items)
    ensures ok == Fenced(store.Rec(key), lease) && LanesOf(store.Rec(key)) == LanesOf(old(store.Rec(key)))
    ensures store.Rec(key).outbox == if ok then
              PutOutbox(old(store.Rec(key).outbox), events) else old(store.Rec(key).outbox)
    ensures Sequence(store.Rec(key)) == if ok then sequence else Sequence(old(store.Rec(key)))
    ensures ok ==> store.Rec(key).state.Some? && store.Rec(key).state.value.updatedAt == now
  {
    assert PutItems(store.Rec(key).items, []) == store.Rec(key).items;
    ok := store.CommitPoll(key, lease,
                           CommitBatch(StatePatch(None, None, None, Some(sequence), Some(now)), [], missing, events,
                                       []));
  }

  /** Delete what the completed listing did not show. */
  method SweepMissing(store: Memory.MemoryStore, key: Memory.PKey, lease: Lease, p: Poller, lane: Lane,
                      seen: set<string>, seq0: nat, now: int,
                      ghost before: map<string, ItemRow>, ghost events: seq<OutboxRow>)
    returns (ok: bool, deletes: seq<OutboxRow>)
    requires store.Valid() && store.Rec(key).items.Keys == before.Keys + seen
    modifies store
    ensures store.Valid()
    ensures ok ==> store.Rec(key).items.Keys == seen && DeletesOnce(deletes, before.Keys - seen)
    ensures ok && Fold(p, Hashes(before), EventsOf(events)) == Hashes(old(store.Rec(key).items)) ==>
              Fold(p, Hashes(before), EventsOf(events + deletes)) == Hashes(store.Rec(key).items)
    ensures !ok ==>
              deletes == [] && store.Rec(key).items == old(store.Rec(key).items) && !Fenced(store.Rec(key), lease)
  {
    var missing, gone := FindMissing(store, key, p, lane, seen, seq0, now, before, events);
    ok := true;
    if missing != [] { ok := CommitDeletes(store, key, lease, missing, gone, seq0 + |gone|, now); }
    deletes := if ok then gone else [];
  }

  method NotSeen(items: map<string, ItemRow>, seen: set<string>) returns (missing: seq<string>)
    ensures forall id :: id in missing <==> id in items && id !in seen
    ensures Words.NoRepeat(missing) && Words.Sorted(missing)
  {
    var all := StreamIdentities(items);
    missing := DetectDeletes(all, seen);
  }

  method FindMissing(store: Memory.MemoryStore, key: Memory.PKey, p: Poller, lane: Lane, seen: set<string>, seq0: nat,
                     now: int,
                     ghost before: map<string, ItemRow>, ghost events: seq<OutboxRow>)
    returns (missing: seq<string>, gone: seq<OutboxRow>)
    requires store.Rec(key).items.Keys == before.Keys + seen
    ensures DeletesOnce(gone, before.Keys - seen) && (store.Rec(key).items - Elems(missing)).Keys == seen
    ensures Fold(p, Hashes(before), EventsOf(events)) == Hashes(store.Rec(key).items) ==>
              Fold(p, Hashes(before), EventsOf(events + gone)) == Hashes(store.Rec(key).items - Elems(missing))
    ensures missing == [] ==> store.Rec(key).items - Elems(missing) == store.Rec(key).items
  {
    missing := NotSeen(store.Rec(key).items, seen);
    assert forall id :: id in missing <==> id in before.Keys - seen;
    var rows := store.LoadVersions(key, missing);
    gone := EmitDeletes(p, lane, missing, rows, seq0, now);
    ScanDeletes(p, before, store.Rec(key).items, seen, events, lane, missing, rows, seq0, now);
  }

  /** A full-scan cycle. Completed: exactly the valid listed identities stay stored, and every identity that
      was stored and not listed got one `deleted` event, in the order of their code units. Otherwise nothing
      is deleted. Either way, at an unchanged schema version the stored fingerprints are the fold of what
      was stored before and the emitted events. */
  method FullScan(store: Memory.MemoryStore, key: Memory.PKey, lease: Lease, p: Poller,
                  onInvalid: OnInvalid, lane: Lane, fetch: nat -> Fetched, f: Fate, now: int)
    returns (end: ScanEnd, n: nat, events: seq<OutboxRow>, deletes: seq<OutboxRow>)
    requires store.Valid()
    modifies store
    ensures store.Valid() && forall r :: r in events ==> r.event.kind != Deleted
    ensures SchemaOk(p, old(store.Rec(key).items)) ==>
              Fold(p, Hashes(old(store.Rec(key).items)), EventsOf(events + deletes)) == Hashes(store.Rec(key).items)
    ensures end == Completed ==>
        store.Rec(key).items.Keys == Listed(p, fetch, n) && DeletesOnce(deletes,
            old(store.Rec(key).items).Keys - Listed(p, fetch, n))
    ensures end == Completed ==> forall i :: 1 <= i <= n ==>
              fetch(i).Page? && !fetch(i).notModified && (fetch(i).last <==> i == n)
    ensures end == Incomplete ==> CutShort(fetch, f, n)
    ensures end == Failed ==> Fails(p, onInvalid, fetch, f, n)
    ensures end == Lost ==> !f.held(n) || !Fenced(store.Rec(key), lease)
    ensures end != Completed ==> deletes == [] && old(store.Rec(key).items).Keys <= store.Rec(key).items.Keys
  {
    ghost var before := store.Rec(key).items;
    var s := ScanPages(store, key, lease, p, onInvalid, lane, fetch, f, now);
    end, n, events, deletes := s.end.value, s.n, s.events, [];
    if end == Completed {
      forall i | 1 <= i <= n ensures fetch(i).Page? && !fetch(i).notModified && (fetch(i).last <==> i == n) {
        EveryPage(fetch, n, i);
        if i < n { EveryPage(fetch, n - 1, i); }
      }
      var ok, gone := SweepMissing(store, key, lease, p, lane, s.seen, s.sequence, now, before, events);
      if ok { deletes := gone; } else { end := Lost; }
    }
    if deletes == [] { assert events + deletes == events; }
  }
}
