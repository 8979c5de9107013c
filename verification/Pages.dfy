/** What one fetched page turns into: upserts, sequenced events and quarantined items. */
module Pages {
  import opened Store
  import opened Diff
  import EventId

  datatype OnInvalid = Quarantine | Skip | Fail

  function ValidItems(p: Poller, items: seq<Item>): seq<Item> {
    if items == [] then []
    else ValidItems(p, items[..|items| - 1]) + if p.valid(items[|items| - 1]) then [items[|items| - 1]] else []
  }

  function InvalidItems(p: Poller, items: seq<Item>): seq<Item> {
    if items == [] then []
    else InvalidItems(p, items[..|items| - 1]) + if p.valid(items[|items| - 1]) then [] else [items[|items| - 1]]
  }

  function QuarantineRow(p: Poller, item: Item, now: int): ParkedRow {
    var digest := p.digest(item);
    ParkedRow("invalid:" + (if |digest| <= 32 then digest else digest[..32]), Invalid, None, 0, now, None)
  }

  function QuarantineRows(p: Poller, items: seq<Item>, now: int): seq<ParkedRow> {
    if items == [] then []
    else QuarantineRows(p, items[..|items| - 1], now) + [QuarantineRow(p, items[|items| - 1], now)]
  }

  function EventRow(p: Poller, lane: Lane, kind: EventType, identity: string, version: string, data: Option<Item>,
                    sequence: nat, now: int): OutboxRow {
    var id := p.eventId(EventId.Parts(p.source, p.partition, identity, version, p.schemaVersion, kind));
    OutboxRow(id, sequence, Event(id, kind, identity, lane, sequence, data), Pending, 0, None, None, now)
  }

  function ChangeRow(p: Poller, lane: Lane, c: Change, sequence: nat, now: int): OutboxRow {
    EventRow(p, lane, c.kind, c.identity, GetOr(c.version, c.hash), Some(c.item), sequence, now)
  }

  function ChangeRows(p: Poller, lane: Lane, changes: seq<Change>, seq0: nat, now: int): seq<OutboxRow> {
    if changes == [] then []
    else ChangeRows(p, lane, changes[..|changes| - 1], seq0,
                    now) + [ChangeRow(p, lane, changes[|changes| - 1], seq0 + |changes|, now)]
  }

  /** Forced backfill re-emits `identity` as `updated`, with its newest item, when it is known and not among
      the changes. */
  predicate Reemits(p: Poller, identity: string, changed: set<string>, latest: seq<Item>,
                    existing: map<string, ItemRow>) {
    identity !in changed && identity in existing && Position(p, latest, identity) < |latest|
  }

  function ForceRows(p: Poller, lane: Lane, ids: seq<string>, changed: set<string>, latest: seq<Item>,
                     existing: map<string, ItemRow>, seq0: nat, now: int): seq<OutboxRow> {
    if ids == [] then []
    else
      var rows := ForceRows(p, lane, ids[..|ids| - 1], changed, latest, existing, seq0, now);
      var id := ids[|ids| - 1];
      if !Reemits(p, id, changed, latest, existing) then rows
      else
        var row := existing[id];
        rows + [EventRow(p, lane, Updated, id, GetOr(row.version, row.hash), Some(latest[Position(p, latest, id)]),
                         seq0 + 1 + |rows|, now)]
  }

  function PageRows(p: Poller, lane: Lane, force: bool, changes: seq<Change>, ids: seq<string>, latest: seq<Item>,
                    existing: map<string, ItemRow>, seq0: nat, now: int): seq<OutboxRow> {
    WithForced(p, lane, ChangeRows(p, lane, changes, seq0, now), if force then ids else [], ChangedIds(changes),
               latest, existing, seq0, now)
  }

  function WithForced(p: Poller, lane: Lane, rows: seq<OutboxRow>, ids: seq<string>, changed: set<string>,
                      latest: seq<Item>,
                      existing: map<string, ItemRow>, seq0: nat, now: int): seq<OutboxRow> {
    rows + ForceRows(p, lane, ids, changed, latest, existing, seq0 + |rows|, now)
  }

  function Identities(p: Poller, items: seq<Item>): seq<string> {
    if items == [] then [] else Identities(p, items[..|items| - 1]) + [p.identity(items[|items| - 1])]
  }

  datatype PageCommit = PageCommit(upserts: seq<ItemRow>, events: seq<OutboxRow>, parked: seq<ParkedRow>, sequence: nat)

  /** The specification of processing a page whose identities have the stored rows `existing`;
      absent when an invalid item fails the cycle. */
  function PageSpec(p: Poller, onInvalid: OnInvalid, lane: Lane, force: bool, fullScan: bool, raw: seq<Item>,
                    existing: map<string, ItemRow>, seq0: nat, now: int): Option<PageCommit> {
    var valid, invalid := ValidItems(p, raw), InvalidItems(p, raw);
    if invalid != [] && onInvalid == Fail then None
    else
      var latest := Latest(p, valid);
      var diff := PageDiff(p, latest, existing, now, fullScan);
      var events := PageRows(p, lane, force, diff.changes, Identities(p, valid), latest, existing, seq0, now);
      Some(PageCommit(diff.upserts, events, if onInvalid == Quarantine then QuarantineRows(p, invalid, now) else [],
                      seq0 + |events|))
  }

  // ---- the stream as a log of fingerprints ----------------------------------------------------

  function ReplayOne(p: Poller, m: map<string, string>, e: Event): map<string, string> {
    if e.kind == Deleted then m - {e.subject}
    else if e.data.Some? then m[e.subject := p.fingerprint(e.data.value)]
    else m
  }

  /** What a consumer that applies every event in order ends up holding. */
  function Fold(p: Poller, m: map<string, string>, events: seq<Event>): map<string, string> {
    if events == [] then m else ReplayOne(p, Fold(p, m, events[..|events| - 1]), events[|events| - 1])
  }

  /** Rows numbered consecutively after `seq0`. */
  ghost predicate Numbered(rows: seq<OutboxRow>, seq0: nat) {
    forall i :: 0 <= i < |rows| ==> rows[i].sequence == seq0 + 1 + i && rows[i].event.sequence == seq0 + 1 + i
  }

  lemma NumberedConcat(a: seq<OutboxRow>, b: seq<OutboxRow>, seq0: nat)
    requires Numbered(a, seq0) && Numbered(b, seq0 + |a|)
    ensures Numbered(a + b, seq0)
  {
  }

  function EventsOf(rows: seq<OutboxRow>): (es: seq<Event>)
    ensures |es| == |rows| && forall i :: 0 <= i < |rows| ==> es[i] == rows[i].event
  {
    if rows == [] then [] else EventsOf(rows[..|rows| - 1]) + [rows[|rows| - 1].event]
  }

  lemma ReplaySnoc(p: Poller, m: map<string, string>, es: seq<Event>, e: Event)
    ensures Fold(p, m, es + [e]) == ReplayOne(p, Fold(p, m, es), e)
  {
    assert (es + [e])[..|es|] == es;
  }

  lemma {:induction false} ReplayConcat(p: Poller, m: map<string, string>, a: seq<Event>, b: seq<Event>)
    ensures Fold(p, m, a + b) == Fold(p, Fold(p, m, a), b)
    decreases |b|
  {
    if b == [] {
      assert a + b == a;
    } else {
      var init, last := b[..|b| - 1], b[|b| - 1];
      assert a + b == (a + init) + [last];
      ReplaySnoc(p, m, a + init, last);
      ReplayConcat(p, m, a, init);
    }
  }

  /** Changes carry the fingerprint of the item they carry. */
  ghost predicate ChangesFaithful(p: Poller, changes: seq<Change>) {
    forall c :: c in changes ==> c.hash == p.fingerprint(c.item) && c.kind != Deleted
  }

  lemma {:induction false} DiffChangesFaithful(p: Poller, latest: seq<Item>, existing: map<string, ItemRow>, now: int,
                                               touch: bool)
    ensures ChangesFaithful(p, PageDiff(p, latest, existing, now, touch).changes)
    decreases |latest|
  {
    if latest == [] {
    } else {
      var init, x := latest[..|latest| - 1], latest[|latest| - 1];
      assert latest == init + [x];
      DiffChangesFaithful(p, init, existing, now, touch);
      PageDiffSnoc(p, init, x, existing, now, touch);
    }
  }

  lemma EventsSnoc(rows: seq<OutboxRow>, row: OutboxRow)
    ensures EventsOf(rows + [row]) == EventsOf(rows) + [row.event]
  {
  }

  lemma {:induction false} ReplayChanges(p: Poller, m: map<string, string>, lane: Lane, changes: seq<Change>,
                                         seq0: nat, now: int)
    requires ChangesFaithful(p, changes)
    ensures Fold(p, m, EventsOf(ChangeRows(p, lane, changes, seq0, now))) == ApplyChanges(m, changes)
    decreases |changes|
  {
    if changes == [] {
    } else {
      var init, last := changes[..|changes| - 1], changes[|changes| - 1];
      assert changes == init + [last];
      ReplayChanges(p, m, lane, init, seq0, now);
      var rows, row := ChangeRows(p, lane, init, seq0, now), ChangeRow(p, lane, last, seq0 + |changes|, now);
      EventsSnoc(rows, row);
      ReplaySnoc(p, m, EventsOf(rows), row.event);
      ApplyChangesSnoc(m, init, last);
    }
  }

  /** Replaying forced events sets exactly the re-emitted identities, each to its listed fingerprint. */
  ghost predicate SetsForced(p: Poller, m: map<string, string>, f: map<string, string>, ids: seq<string>,
                             changed: set<string>,
                             latest: seq<Item>, existing: map<string, ItemRow>) {
    forall id ::
      && (id in f <==> id in m || (id in ids && Reemits(p, id, changed, latest, existing)))
      && (id in f ==>
          f[id] == if id in ids && Reemits(p, id, changed, latest,
                                           existing) then p.fingerprint(latest[Position(p, latest, id)]) else m[id])
  }

  lemma {:induction false} ReplayForced(p: Poller, m: map<string, string>, lane: Lane, ids: seq<string>,
                                        changed: set<string>,
                     latest: seq<Item>, existing: map<string, ItemRow>, seq0: nat, now: int)
    ensures SetsForced(p, m, Fold(p, m, EventsOf(ForceRows(p, lane, ids, changed, latest, existing, seq0, now))), ids,
                       changed, latest, existing)
    decreases |ids|
  {
    if ids == [] {
    } else {
      var init, id := ids[..|ids| - 1], ids[|ids| - 1];
      assert ids == init + [id];
      ReplayForced(p, m, lane, init, changed, latest, existing, seq0, now);
      var rows := ForceRows(p, lane, init, changed, latest, existing, seq0, now);
      var rows' := ForceRows(p, lane, ids, changed, latest, existing, seq0, now);
      if Reemits(p, id, changed, latest, existing) {
        ReplayOneMore(p, m, rows, rows');
      }
      var f, f' := Fold(p, m, EventsOf(rows)), Fold(p, m, EventsOf(rows'));
      ForcedSnoc(p, m, f, f', init, id, changed, latest, existing);
    }
  }

  lemma ReplayOneMore(p: Poller, m: map<string, string>, rows: seq<OutboxRow>, rows': seq<OutboxRow>)
    requires |rows'| == |rows| + 1 && rows'[..|rows|] == rows
    ensures Fold(p, m, EventsOf(rows')) == ReplayOne(p, Fold(p, m, EventsOf(rows)), rows'[|rows|].event)
  {
    var e := rows'[|rows|].event;
    assert EventsOf(rows') == EventsOf(rows) + [e];
    ReplaySnoc(p, m, EventsOf(rows), e);
  }

  lemma ForcedSnoc(p: Poller, m: map<string, string>, f: map<string, string>, f': map<string, string>,
                   init: seq<string>, id: string,
                   changed: set<string>, latest: seq<Item>, existing: map<string, ItemRow>)
    requires SetsForced(p, m, f, init, changed, latest, existing)
    requires f' == if Reemits(p, id, changed, latest, existing) then
               f[id := p.fingerprint(latest[Position(p, latest, id)])] else f
    ensures SetsForced(p, m, f', init + [id], changed, latest, existing)
  {
    assert forall k :: k in init + [id] <==> k in init || k == id;
  }

  /** The stored fingerprints after a page: known versions keep theirs, all others get the listed one. */
  ghost predicate HashesAfter(p: Poller, latest: seq<Item>, existing: map<string, ItemRow>, m: map<string, string>) {
    forall x :: x in latest ==>
      p.identity(x) in m && m[p.identity(x)] == if FastPath(p, x, existing) then existing[p.identity(x)].hash
        else p.fingerprint(x)
  }

  /** Re-emitting what is stored changes nothing, exactly when known versions have their stored fingerprints. */
  lemma ForcedIsQuiet(p: Poller, m: map<string, string>, f: map<string, string>, ids: seq<string>, changed: set<string>,
                      latest: seq<Item>, existing: map<string, ItemRow>)
    requires HashesAfter(p, latest, existing, m) && SetsForced(p, m, f, ids, changed, latest, existing)
    requires Distinct(p, latest)
    requires forall x :: x in latest ==>
               p.identity(x) in ids && (FastPath(p, x, existing) ==> p.identity(x) !in changed)
    ensures f == m <==> VersionsTell(p, latest, existing)
  {
    if VersionsTell(p, latest, existing) {
      forall id | id in ids && Reemits(p, id, changed, latest, existing) ensures id in m && f[id] == m[id] {
        assert latest[Position(p, latest, id)] in latest;
      }
      assert f == m;
    }
    forall x | x in latest && FastPath(p, x, existing)
      ensures f == m ==> existing[p.identity(x)].hash == p.fingerprint(x) {
      FoundAt(p, latest, x);
    }
  }

  lemma FoundAt(p: Poller, latest: seq<Item>, x: Item)
    requires Distinct(p, latest) && x in latest
    ensures Position(p, latest, p.identity(x)) < |latest| && latest[Position(p, latest, p.identity(x))] == x
  {
    var j :| 0 <= j < |latest| && latest[j] == x;
    assert Position(p, latest, p.identity(x)) == j;
  }

  lemma {:induction false} ListsAll(p: Poller, items: seq<Item>)
    ensures Elems(Identities(p, items)) == Ids(p, items)
  {
    if items == [] {
    } else {
      var init, x := items[..|items| - 1], items[|items| - 1];
      ListsAll(p, init);
      assert items == init + [x];
      IdsSnoc(p, init, x);
      assert Elems(Identities(p, init) + [p.identity(x)]) == Elems(Identities(p, init)) + {p.identity(x)};
    }
  }

  /** Committing a page stores every valid listed identity at its newest version, leaves all others
      alone, and moves the stored fingerprints exactly as replaying its events does; only a forced page
      may fail the last, exactly when an item of a known version has another fingerprint than stored. */
  lemma PageIsFaithful(p: Poller, items: map<string, ItemRow>, onInvalid: OnInvalid, lane: Lane, force: bool,
                       fullScan: bool, raw: seq<Item>,
                       existing: map<string, ItemRow>, seq0: nat, now: int)
    requires ReadsFrom(existing, items, Ids(p, ValidItems(p, raw)))
    requires PageSpec(p, onInvalid, lane, force, fullScan, raw, existing, seq0, now).Some?
    ensures
      var c := PageSpec(p, onInvalid, lane, force, fullScan, raw, existing, seq0, now).value;
      var latest, items' := Latest(p, ValidItems(p, raw)), PutItems(items, c.upserts);
      && PageEffect(p, latest, items, items')
      && (SchemaOk(p, items) ==>
            (Fold(p, Hashes(items), EventsOf(c.events)) == Hashes(items') <==>
                (force ==> VersionsTell(p, latest, items))))
  {
    var valid := ValidItems(p, raw);
    var latest := Latest(p, valid);
    LatestIsDistinct(p, valid);
    DiffReadsOnly(p, latest, existing, items, now, fullScan);
    DiffIsSound(p, items, latest, now, fullScan);
    ListsAll(p, valid);
    if SchemaOk(p, items) {
      PageFolds(p, items, lane, force, fullScan, latest, Identities(p, valid), existing, seq0, now);
    }
  }

  lemma PageFolds(p: Poller, items: map<string, ItemRow>, lane: Lane, force: bool, touch: bool, latest: seq<Item>,
                  ids: seq<string>,
                  existing: map<string, ItemRow>, seq0: nat, now: int)
    requires Distinct(p, latest) && ReadsFrom(existing, items, Ids(p, latest)) && SchemaOk(p, items)
    requires Elems(ids) == Ids(p, latest)
    ensures
      var diff := PageDiff(p, latest, existing, now, touch);
      Fold(p, Hashes(items),
           EventsOf(PageRows(p, lane, force, diff.changes, ids, latest, existing, seq0,
                             now))) == Hashes(PutItems(items, diff.upserts))
      <==> (force ==> VersionsTell(p, latest, items))
  {
    var diff := PageDiff(p, latest, existing, now, touch);
    DiffReadsOnly(p, latest, existing, items, now, touch);
    DiffIsSound(p, items, latest, now, touch);
    DiffChangesFaithful(p, latest, existing, now, touch);
    ChangedItems(p, latest, existing, now, touch);
    var m, m' := Hashes(items), Hashes(PutItems(items, diff.upserts));
    AfterDiff(p, latest, existing, items, PutItems(items, diff.upserts));
    ReplayChanges(p, m, lane, diff.changes, seq0, now);
    ReplayPage(p, m, m', lane, force, diff.changes, ids, latest, existing, seq0, now);
    assert VersionsTell(p, latest, existing) <==> VersionsTell(p, latest, items);
  }

  lemma AfterDiff(p: Poller, latest: seq<Item>, existing: map<string, ItemRow>, items: map<string, ItemRow>,
                  items': map<string, ItemRow>)
    requires PageEffect(p, latest, items, items') && ReadsFrom(existing, items, Ids(p, latest))
    ensures HashesAfter(p, latest, existing, Hashes(items'))
  {
    forall x | x in latest
      ensures p.identity(x) in Ids(p, latest) && FastPath(p, x, existing) == FastPath(p, x, items) {}
  }

  lemma ReplayPage(p: Poller, m: map<string, string>, m': map<string, string>, lane: Lane, force: bool,
                   changes: seq<Change>,
                   ids: seq<string>, latest: seq<Item>, existing: map<string, ItemRow>, seq0: nat, now: int)
    requires Fold(p, m, EventsOf(ChangeRows(p, lane, changes, seq0, now))) == m' && HashesAfter(p, latest, existing, m')
    requires Distinct(p, latest) && Elems(ids) == Ids(p, latest)
    requires forall x :: x in latest && FastPath(p, x, existing) ==> p.identity(x) !in ChangedIds(changes)
    ensures
      Fold(p, m, EventsOf(PageRows(p, lane, force, changes, ids, latest, existing, seq0, now))) == m'
      <==> (force ==> VersionsTell(p, latest, existing))
  {
    if force {
      ReplayWithForced(p, m, m', lane, ChangeRows(p, lane, changes, seq0, now), ids, ChangedIds(changes), latest,
                       existing, seq0, now);
    }
    else {
      NoneForced(p, lane, ChangeRows(p, lane, changes, seq0, now), ChangedIds(changes), latest, existing, seq0, now);
    }
  }

  lemma NoneForced(p: Poller, lane: Lane, rows: seq<OutboxRow>, changed: set<string>, latest: seq<Item>,
                   existing: map<string, ItemRow>, seq0: nat, now: int)
    ensures WithForced(p, lane, rows, [], changed, latest, existing, seq0, now) == rows
  {
  }

  lemma ReplayWithForced(p: Poller, m: map<string, string>, m': map<string, string>, lane: Lane, rows: seq<OutboxRow>,
                         ids: seq<string>,
                         changed: set<string>, latest: seq<Item>, existing: map<string, ItemRow>, seq0: nat, now: int)
    requires Fold(p, m, EventsOf(rows)) == m' && HashesAfter(p, latest, existing, m') && Distinct(p, latest)
    requires Elems(ids) == Ids(p, latest)
    requires forall x :: x in latest && FastPath(p, x, existing) ==> p.identity(x) !in changed
    ensures Fold(p, m, EventsOf(WithForced(p, lane, rows, ids, changed, latest, existing, seq0, now))) == m' <==>
              VersionsTell(p, latest, existing)
  {
    ForcedAfter(p, m', lane, ids, changed, latest, existing, seq0 + |rows|, now);
    FoldBack(p, m, m', rows, ForceRows(p, lane, ids, changed, latest, existing, seq0 + |rows|, now),
             VersionsTell(p, latest, existing));
  }

  lemma FoldBack(p: Poller, m: map<string, string>, m': map<string, string>, rows: seq<OutboxRow>,
                 more: seq<OutboxRow>, quiet: bool)
    requires Fold(p, m, EventsOf(rows)) == m' && (Fold(p, m', EventsOf(more)) == m' <==> quiet)
    ensures Fold(p, m, EventsOf(rows + more)) == m' <==> quiet
  {
    FoldTwo(p, m, rows, more);
  }

  lemma ForcedAfter(p: Poller, m: map<string, string>, lane: Lane, ids: seq<string>, changed: set<string>,
                    latest: seq<Item>,
                    existing: map<string, ItemRow>, seq0: nat, now: int)
    requires HashesAfter(p, latest, existing, m) && Distinct(p, latest) && Elems(ids) == Ids(p, latest)
    requires forall x :: x in latest && FastPath(p, x, existing) ==> p.identity(x) !in changed
    ensures Fold(p, m, EventsOf(ForceRows(p, lane, ids, changed, latest, existing, seq0, now))) == m <==>
              VersionsTell(p, latest, existing)
  {
    forall x | x in latest ensures p.identity(x) in ids { assert p.identity(x) in Elems(ids); }
    ReplayForced(p, m, lane, ids, changed, latest, existing, seq0, now);
    ForcedIsQuiet(p, m, Fold(p, m, EventsOf(ForceRows(p, lane, ids, changed, latest, existing, seq0, now))), ids,
                  changed, latest, existing);
  }

  lemma FoldTwo(p: Poller, m: map<string, string>, a: seq<OutboxRow>, b: seq<OutboxRow>)
    ensures Fold(p, m, EventsOf(a + b)) == Fold(p, Fold(p, m, EventsOf(a)), EventsOf(b))
  {
    assert EventsOf(a + b) == EventsOf(a) + EventsOf(b);
    ReplayConcat(p, m, EventsOf(a), EventsOf(b));
  }

  /** Events are numbered consecutively from the sequence the page started at. */
  lemma PageSequences(p: Poller, onInvalid: OnInvalid, lane: Lane, force: bool, fullScan: bool, raw: seq<Item>,
                      existing: map<string, ItemRow>, seq0: nat, now: int)
    requires PageSpec(p, onInvalid, lane, force, fullScan, raw, existing, seq0, now).Some?
    ensures
      var c := PageSpec(p, onInvalid, lane, force, fullScan, raw, existing, seq0, now).value;
      c.sequence == seq0 + |c.events| && Numbered(c.events, seq0)
  {
    var valid := ValidItems(p, raw);
    var latest := Latest(p, valid);
    RowSequences(p, lane, force, PageDiff(p, latest, existing, now, fullScan).changes, Identities(p, valid), latest,
                 existing, seq0, now);
  }

  lemma RowSequences(p: Poller, lane: Lane, force: bool, changes: seq<Change>, ids: seq<string>, latest: seq<Item>,
                     existing: map<string, ItemRow>, seq0: nat, now: int)
    ensures Numbered(PageRows(p, lane, force, changes, ids, latest, existing, seq0, now), seq0)
  {
    var forced := if force then ids else [];
    ChangeSequences(p, lane, changes, seq0, now);
    ForceSequences(p, lane, forced, ChangedIds(changes), latest, existing, seq0 + |changes|, now);
    NumberedConcat(ChangeRows(p, lane, changes, seq0, now),
                   ForceRows(p, lane, forced, ChangedIds(changes), latest, existing, seq0 + |changes|, now), seq0);
  }

  lemma {:induction false} ChangeSequences(p: Poller, lane: Lane, changes: seq<Change>, seq0: nat, now: int)
    ensures |ChangeRows(p, lane, changes, seq0, now)| == |changes|
    ensures Numbered(ChangeRows(p, lane, changes, seq0, now), seq0)
    decreases |changes|
  {
    if changes == [] {
    } else {
      ChangeSequences(p, lane, changes[..|changes| - 1], seq0, now);
    }
  }

  lemma {:induction false} ForceSequences(p: Poller, lane: Lane, ids: seq<string>, changed: set<string>,
                                          latest: seq<Item>,
                       existing: map<string, ItemRow>, seq0: nat, now: int)
    ensures Numbered(ForceRows(p, lane, ids, changed, latest, existing, seq0, now), seq0)
    decreases |ids|
  {
    if ids == [] {
    } else {
      ForceSequences(p, lane, ids[..|ids| - 1], changed, latest, existing, seq0, now);
    }
  }

  lemma {:induction false} ValidItemsFacts(p: Poller, items: seq<Item>)
    ensures forall x :: x in ValidItems(p, items) <==> x in items && p.valid(x)
  {
    if items == [] {
    } else {
      assert items == items[..|items| - 1] + [items[|items| - 1]];
      ValidItemsFacts(p, items[..|items| - 1]);
    }
  }

  // ---- an empty snapshot ------------------------------------------------------------------------

  lemma {:induction false} AllCreated(p: Poller, latest: seq<Item>, now: int, touch: bool)
    ensures
      var changes := PageDiff(p, latest, map[], now, touch).changes;
      |changes| == |latest| && forall i :: 0 <= i < |latest| ==>
          changes[i].kind == Created && changes[i].identity == p.identity(latest[i]) && changes[i].item == latest[i]
    decreases |latest|
  {
    if latest == [] {
    } else {
      var init, x := latest[..|latest| - 1], latest[|latest| - 1];
      assert latest == init + [x];
      AllCreated(p, init, now, touch);
      PageDiffSnoc(p, init, x, map[], now, touch);
    }
  }

  lemma {:induction false} ChangeRowAt(p: Poller, lane: Lane, changes: seq<Change>, seq0: nat, now: int, i: nat)
    requires i < |changes|
    ensures
      var rows := ChangeRows(p, lane, changes, seq0, now);
      |rows| == |changes| && rows[i] == ChangeRow(p, lane, changes[i], seq0 + 1 + i, now)
    decreases |changes|
  {
    ChangeSequences(p, lane, changes, seq0, now);
    ChangeSequences(p, lane, changes[..|changes| - 1], seq0, now);
    if i < |changes| - 1 { ChangeRowAt(p, lane, changes[..|changes| - 1], seq0, now, i); }
  }

  lemma {:induction false} NothingForced(p: Poller, lane: Lane, ids: seq<string>, changed: set<string>,
                                         latest: seq<Item>, seq0: nat, now: int)
    ensures ForceRows(p, lane, ids, changed, latest, map[], seq0, now) == []
  {
    if ids == [] {
    } else {
      NothingForced(p, lane, ids[..|ids| - 1], changed, latest, seq0, now);
    }
  }

  /** After the snapshot was cleared, a page reports every valid listed identity as created, once, with its
      newest item, forced or not. */
  lemma ClearedSnapshotStartsOver(p: Poller, onInvalid: OnInvalid, lane: Lane, force: bool, fullScan: bool,
                                  raw: seq<Item>, seq0: nat, now: int)
    requires PageSpec(p, onInvalid, lane, force, fullScan, raw, map[], seq0, now).Some?
    ensures
      var events, latest :=
          PageSpec(p, onInvalid, lane, force, fullScan, raw, map[], seq0, now).value.events, Latest(p,
              ValidItems(p, raw));
      && |events| == |latest|
      && forall i :: 0 <= i < |latest| ==>
           && events[i].event.kind == Created && events[i].event.subject == p.identity(latest[i])
           && events[i].event.data == Some(latest[i])
  {
    var latest, ids := Latest(p, ValidItems(p, raw)), Identities(p, ValidItems(p, raw));
    var changes := PageDiff(p, latest, map[], now, fullScan).changes;
    AllCreated(p, latest, now, fullScan);
    OnlyChanges(p, lane, force, changes, ids, latest, seq0, now);
    forall i | 0 <= i < |latest|
      ensures |ChangeRows(p, lane, changes, seq0, now)| == |changes|
      ensures ChangeRows(p, lane, changes, seq0, now)[i] == ChangeRow(p, lane, changes[i], seq0 + 1 + i, now)
    {
      ChangeRowAt(p, lane, changes, seq0, now, i);
    }
    ChangeSequences(p, lane, changes, seq0, now);
  }

  lemma OnlyChanges(p: Poller, lane: Lane, force: bool, changes: seq<Change>, ids: seq<string>, latest: seq<Item>,
                    seq0: nat, now: int)
    ensures PageRows(p, lane, force, changes, ids, latest, map[], seq0, now) == ChangeRows(p, lane, changes, seq0, now)
  {
    NothingForced(p, lane, if force then ids else [], ChangedIds(changes), latest,
                  seq0 + |ChangeRows(p, lane, changes, seq0, now)|, now);
  }

  // ---- full-scan deletes ----------------------------------------------------------------------

  function DeleteRow(p: Poller, lane: Lane, id: string, row: ItemRow, sequence: nat, now: int): OutboxRow {
    EventRow(p, lane, Deleted, id, GetOr(row.version, row.hash), if p.retainPayload then row.payload else None,
             sequence, now)
  }

  /** One `deleted` event per identity among the first `k` missing ones that still has a row. */
  function DeleteRows(p: Poller, lane: Lane, missing: seq<string>, k: nat, rows: map<string, ItemRow>, seq0: nat,
                      now: int): seq<OutboxRow>
    requires k <= |missing|
  {
    if k == 0 then []
    else
      var out := DeleteRows(p, lane, missing, k - 1, rows, seq0, now);
      if missing[k - 1] !in rows then out
      else out + [DeleteRow(p, lane, missing[k - 1], rows[missing[k - 1]], seq0 + 1 + |out|, now)]
  }

  /** Deletes of known identities: one event each, in order. */
  lemma {:induction false} OneDeleteEach(p: Poller, lane: Lane, missing: seq<string>, k: nat,
                                         rows: map<string, ItemRow>, seq0: nat, now: int)
    requires k <= |missing| && forall id :: id in missing ==> id in rows
    ensures
      var out := DeleteRows(p, lane, missing, k, rows, seq0, now);
      && |out| == k && Numbered(out, seq0)
      && forall i :: 0 <= i < |out| ==> out[i].event.kind == Deleted && out[i].event.subject == missing[i]
  {
    if k == 0 {
    } else {
      OneDeleteEach(p, lane, missing, k - 1, rows, seq0, now);
      NumberedConcat(DeleteRows(p, lane, missing, k - 1, rows, seq0, now),
                     [DeleteRow(p, lane, missing[k - 1], rows[missing[k - 1]], seq0 + k, now)], seq0);
    }
  }

  /** Replaying the deletes removes exactly those identities. */
  lemma {:induction false} ReplayDeletes(p: Poller, m: map<string, string>, out: seq<Event>, missing: seq<string>)
    requires |out| == |missing|
    requires forall i :: 0 <= i < |out| ==> out[i].kind == Deleted && out[i].subject == missing[i]
    ensures Fold(p, m, out) == m - Elems(missing)
    decreases |missing|
  {
    if missing == [] {
      assert m - Elems(missing) == m;
    } else {
      var init, id := missing[..|missing| - 1], missing[|missing| - 1];
      assert missing == init + [id] && out == out[..|init|] + [out[|init|]];
      ReplayDeletes(p, m, out[..|init|], init);
      ReplaySnoc(p, m, out[..|init|], out[|init|]);
      assert Elems(missing) == Elems(init) + {id};
      assert m - Elems(missing) == m - Elems(init) - {id};
    }
  }

  // ---- what each event row says -----------------------------------------------------------------

  /** The arguments of one page. */
  datatype PageIn = PageIn(
    onInvalid: OnInvalid, lane: Lane, force: bool, fullScan: bool, raw: seq<Item>, existing: map<string, ItemRow>,
    seq0: nat, now: int)

  function Spec(p: Poller, a: PageIn): Option<PageCommit> {
    PageSpec(p, a.onInvalid, a.lane, a.force, a.fullScan, a.raw, a.existing, a.seq0, a.now)
  }

  function LatestIn(p: Poller, a: PageIn): seq<Item> { Latest(p, ValidItems(p, a.raw)) }

  function Changes(p: Poller, a: PageIn): seq<Change> {
    PageDiff(p, LatestIn(p, a), a.existing, a.now, a.fullScan).changes
  }

  /** The version an item goes by, or its fingerprint if it has none; the same for a stored row. */
  function ItemName(p: Poller, x: Item): string { if p.version(x).Some? then p.version(x).value else p.fingerprint(x) }
  function RowName(row: ItemRow): string { if row.version.Some? then row.version.value else row.hash }

  /** The id of the row is made of its event's subject and kind, the poller, and `version`. */
  ghost predicate IdNames(p: Poller, r: OutboxRow, version: string) {
    && r.event.id == r.eventId
    && r.eventId ==
         p.eventId(EventId.Parts(p.source, p.partition, r.event.subject, version, p.schemaVersion, r.event.kind))
  }

  /** A row as it enters the outbox. */
  predicate FreshlyMade(r: OutboxRow, lane: Lane, sequence: nat, now: int) {
    && r.sequence == sequence && r.event.sequence == sequence && r.event.lane == lane && r.createdAt == now
    && r.status == Pending && r.attempts == 0 && r.nextAttemptAt.None? && r.lastError.None?
  }

  /** The row of a change: the listed item, under its own version. */
  ghost predicate TellsChange(p: Poller, a: PageIn, r: OutboxRow) {
    && r.event.data.Some? && r.event.data.value in LatestIn(p, a)
    && r.event.subject == p.identity(r.event.data.value) && IdNames(p, r, ItemName(p, r.event.data.value))
    && r.event.kind == if r.event.subject in a.existing then Updated else Created
  }

  /** The row of a forced item: the listed item, under the stored version. */
  ghost predicate TellsForced(p: Poller, a: PageIn, r: OutboxRow) {
    && r.event.data.Some? && r.event.data.value in LatestIn(p, a)
    && r.event.subject == p.identity(r.event.data.value) && r.event.subject in a.existing
    && r.event.kind == Updated && IdNames(p, r, RowName(a.existing[r.event.subject]))
  }

  /** All rows of a page: first one per change, then, only if forced, one for each known item without a change. */
  lemma PageRowsTell(p: Poller, a: PageIn, i: nat)
    requires Spec(p, a).Some? && i < |Spec(p, a).value.events|
    ensures
      var events, n := Spec(p, a).value.events, |Changes(p, a)|;
      && FreshlyMade(events[i], a.lane, a.seq0 + 1 + i, a.now)
      && (i < n ==> TellsChange(p, a, events[i]))
      && (i >= n ==> a.force && TellsForced(p, a, events[i]))
  {
    EventsSplit(p, a);
    if i < |Changes(p, a)| { ChangeTells(p, a, i); } else { ForcedTells(p, a, i - |Changes(p, a)|); }
  }

  function Told(p: Poller, a: PageIn): seq<OutboxRow> { ChangeRows(p, a.lane, Changes(p, a), a.seq0, a.now) }

  function Forced(p: Poller, a: PageIn): seq<OutboxRow> {
    ForceRows(p, a.lane, if a.force then Identities(p, ValidItems(p, a.raw)) else [], ChangedIds(Changes(p, a)),
              LatestIn(p, a), a.existing, a.seq0 + |Changes(p, a)|, a.now)
  }

  lemma EventsSplit(p: Poller, a: PageIn)
    requires Spec(p, a).Some?
    ensures |Told(p, a)| == |Changes(p, a)| && Spec(p, a).value.events == Told(p, a) + Forced(p, a)
  {
    ChangeSequences(p, a.lane, Changes(p, a), a.seq0, a.now);
  }

  lemma ChangeTells(p: Poller, a: PageIn, i: nat)
    requires i < |Changes(p, a)| && |Told(p, a)| == |Changes(p, a)|
    ensures FreshlyMade(Told(p, a)[i], a.lane, a.seq0 + 1 + i, a.now) && TellsChange(p, a, Told(p, a)[i])
  {
    LatestIsDistinct(p, ValidItems(p, a.raw));
    ChangeRowAt(p, a.lane, Changes(p, a), a.seq0, a.now, i);
    ChangeIsItem(p, LatestIn(p, a), a.existing, a.now, a.fullScan, Changes(p, a)[i]);
  }

  lemma ForcedTells(p: Poller, a: PageIn, j: nat)
    requires j < |Forced(p, a)|
    ensures FreshlyMade(Forced(p, a)[j], a.lane, a.seq0 + |Changes(p, a)| + 1 + j, a.now)
    ensures a.force && TellsForced(p, a, Forced(p, a)[j])
  {
    var ids := if a.force then Identities(p, ValidItems(p, a.raw)) else [];
    ForcedRowAt(p, a.lane, ids, ChangedIds(Changes(p, a)), LatestIn(p, a), a.existing, a.seq0 + |Changes(p, a)|, a.now,
                j);
  }

  /** A change is that of a listed item. */
  lemma ChangeIsItem(p: Poller, latest: seq<Item>, rows: map<string, ItemRow>, now: int, touch: bool, c: Change)
    requires Distinct(p, latest) && c in PageDiff(p, latest, rows, now, touch).changes
    ensures exists x :: x in latest && c == ChangeOf(p, x, rows)
  {
    assert c.identity in ChangedIds(PageDiff(p, latest, rows, now, touch).changes);
    if c.identity !in Ids(p, latest) { Unlisted(p, latest, rows, now, touch, c.identity); }
    var x :| x in latest && p.identity(x) == c.identity;
    EveryVerdict(p, latest, rows, now, touch, x);
  }

  lemma {:induction false} ForcedRowAt(p: Poller, lane: Lane, ids: seq<string>, changed: set<string>, latest: seq<Item>,
                                       existing: map<string, ItemRow>, seq0: nat, now: int, j: nat)
    requires j < |ForceRows(p, lane, ids, changed, latest, existing, seq0, now)|
    ensures ids != []
    ensures
      var r := ForceRows(p, lane, ids, changed, latest, existing, seq0, now)[j];
      && FreshlyMade(r, lane, seq0 + 1 + j, now) && r.event.kind == Updated && r.event.data.Some?
      && r.event.data.value in latest && r.event.subject == p.identity(r.event.data.value)
      && r.event.subject in existing && IdNames(p, r, RowName(existing[r.event.subject]))
      && r.event.subject in ids && r.event.subject !in changed
    decreases |ids|
  {
    var init := ids[..|ids| - 1];
    assert ids == init + [ids[|ids| - 1]];
    if j < |ForceRows(p, lane, init, changed, latest, existing, seq0, now)| {
      ForcedRowAt(p, lane, init, changed, latest, existing, seq0, now, j);
    }
  }

  lemma TwoNames(p: Poller, q: Poller, sha: string -> string, r: OutboxRow, v: string, t: OutboxRow, w: string)
    requires p.eventId == EventId.IdOf(sha) && q.eventId == EventId.IdOf(sha)
    requires (forall a, b :: sha(a) == sha(b) ==> a == b) && IdNames(p, r, v) && IdNames(q, t, w)
    ensures r.eventId == t.eventId <==> SamePoller(p, q) && r.event.subject == t.event.subject &&
                                        r.event.kind == t.event.kind && v == w
  {
    EventId.IdsDetermineParts(
      sha, EventId.Parts(p.source, p.partition, r.event.subject, v, p.schemaVersion, r.event.kind),
      EventId.Parts(q.source, q.partition, t.event.subject, w, q.schemaVersion, t.event.kind));
  }

  predicate SamePoller(p: Poller, q: Poller) {
    p.source == q.source && p.partition == q.partition && p.schemaVersion == q.schemaVersion
  }

  /** The version a row of a page goes by: that of the item it carries, or of the stored row if forced. */
  function NameOf(p: Poller, a: PageIn, i: nat): string
    requires Spec(p, a).Some? && i < |Spec(p, a).value.events|
  {
    var e := Spec(p, a).value.events[i].event;
    if i < |Changes(p, a)| && e.data.Some? then ItemName(p, e.data.value)
    else if e.subject in a.existing then RowName(a.existing[e.subject])
    else ""
  }

  /** Under a hash without collisions, two rows of any pages of any pollers have the same id exactly when
      source, partition, schema version, subject, kind and version agree. */
  lemma PageIdsTell(p: Poller, q: Poller, sha: string -> string, a: PageIn, b: PageIn, i: nat, j: nat)
    requires p.eventId == EventId.IdOf(sha) && q.eventId == EventId.IdOf(sha)
    requires forall x, y :: sha(x) == sha(y) ==> x == y
    requires Spec(p, a).Some? && Spec(q, b).Some?
    requires i < |Spec(p, a).value.events| && j < |Spec(q, b).value.events|
    ensures
      var r, t := Spec(p, a).value.events[i], Spec(q, b).value.events[j];
      r.eventId == t.eventId <==> SamePoller(p, q) && r.event.subject == t.event.subject &&
                                  r.event.kind == t.event.kind && NameOf(p, a, i) == NameOf(q, b, j)
  {
    PageRowsTell(p, a, i);
    PageRowsTell(q, b, j);
    TwoNames(p, q, sha, Spec(p, a).value.events[i], NameOf(p, a, i), Spec(q, b).value.events[j], NameOf(q, b, j));
  }

  /** A forced page tells every valid listed item. */
  lemma ForcedTellsAll(p: Poller, a: PageIn, x: Item)
    requires Spec(p, a).Some? && a.force && x in LatestIn(p, a)
    ensures exists i :: 0 <= i < |Spec(p, a).value.events| && Spec(p, a).value.events[i].event.subject == p.identity(x)
  {
    EventsSplit(p, a);
    if p.identity(x) in ChangedIds(Changes(p, a)) {
      var i := ChangedHas(p, a, p.identity(x));
      assert Spec(p, a).value.events[i].event.subject == p.identity(x);
    } else {
      var j := UnchangedHas(p, a, x);
      assert Spec(p, a).value.events[|Told(p, a)| + j].event.subject == p.identity(x);
    }
  }

  lemma ChangedHas(p: Poller, a: PageIn, id: string) returns (i: nat)
    requires id in ChangedIds(Changes(p, a))
    ensures i < |Told(p, a)| && Told(p, a)[i].event.subject == id
  {
    var c :| c in Changes(p, a) && c.identity == id;
    i :| i < |Changes(p, a)| && Changes(p, a)[i] == c;
    ChangeRowAt(p, a.lane, Changes(p, a), a.seq0, a.now, i);
  }

  lemma UnchangedHas(p: Poller, a: PageIn, x: Item) returns (j: nat)
    requires a.force && x in LatestIn(p, a) && p.identity(x) !in ChangedIds(Changes(p, a))
    ensures j < |Forced(p, a)| && Forced(p, a)[j].event.subject == p.identity(x)
  {
    UnchangedIsKnown(p, a, x);
    IsListed(p, a, x);
    j := ForcedHas(p, a.lane, Identities(p, ValidItems(p, a.raw)), ChangedIds(Changes(p, a)), LatestIn(p, a),
                   a.existing, a.seq0 + |Changes(p, a)|, a.now, p.identity(x));
  }

  lemma UnchangedIsKnown(p: Poller, a: PageIn, x: Item)
    requires x in LatestIn(p, a) && p.identity(x) !in ChangedIds(Changes(p, a))
    ensures p.identity(x) in a.existing
  {
    LatestIsDistinct(p, ValidItems(p, a.raw));
    EveryVerdict(p, LatestIn(p, a), a.existing, a.now, a.fullScan, x);
  }

  lemma IsListed(p: Poller, a: PageIn, x: Item)
    requires x in LatestIn(p, a)
    ensures p.identity(x) in Identities(p, ValidItems(p, a.raw))
    ensures Position(p, LatestIn(p, a), p.identity(x)) < |LatestIn(p, a)|
  {
    var valid := ValidItems(p, a.raw);
    LatestIsDistinct(p, valid);
    ListsAll(p, valid);
    FoundAt(p, LatestIn(p, a), x);
    assert p.identity(x) in Elems(Identities(p, valid));
  }

  lemma {:induction false} ForcedHas(p: Poller, lane: Lane, ids: seq<string>, changed: set<string>, latest: seq<Item>,
                                     existing: map<string, ItemRow>, seq0: nat, now: int, id: string) returns (j: nat)
    requires id in ids && Reemits(p, id, changed, latest, existing)
    ensures
      var rows := ForceRows(p, lane, ids, changed, latest, existing, seq0, now);
      j < |rows| && rows[j].event.subject == id
    decreases |ids|
  {
    var init := ids[..|ids| - 1];
    assert ids == init + [ids[|ids| - 1]];
    if id in init {
      j := ForcedHas(p, lane, init, changed, latest, existing, seq0, now, id);
    } else {
      j := |ForceRows(p, lane, init, changed, latest, existing, seq0, now)|;
    }
  }

  function Subjects(rows: seq<OutboxRow>): seq<string> {
    if rows == [] then [] else Subjects(rows[..|rows| - 1]) + [rows[|rows| - 1].event.subject]
  }

  /** Forced rows come in listing order, one for every time a known and listed identity without a change is listed. */
  lemma ForcedInOrder(p: Poller, lane: Lane, ids: seq<string>, id: string, changed: set<string>, latest: seq<Item>,
                      existing: map<string, ItemRow>, seq0: nat, now: int)
    requires id in Ids(p, latest)
    ensures ForceRows(p, lane, [], changed, latest, existing, seq0, now) == []
    ensures Subjects(ForceRows(p, lane, ids + [id], changed, latest, existing, seq0, now)) ==
            Subjects(ForceRows(p, lane, ids, changed, latest, existing, seq0, now)) +
            if id !in changed && id in existing then [id] else []
  {
    assert (ids + [id])[..|ids|] == ids;
    var rows, rows' := ForceRows(p, lane, ids, changed, latest, existing, seq0, now),
                       ForceRows(p, lane, ids + [id], changed, latest, existing, seq0, now);
    if rows' != rows { assert rows'[..|rows| ] == rows; }
  }

  /** The row of a delete: the stored payload if it was kept, under the stored version. */
  ghost predicate TellsDelete(p: Poller, rows: map<string, ItemRow>, r: OutboxRow) {
    && r.event.kind == Deleted && r.event.subject in rows
    && r.event.data == (if p.retainPayload then rows[r.event.subject].payload else None)
    && IdNames(p, r, RowName(rows[r.event.subject]))
  }

  lemma {:induction false} DeleteRowsTell(p: Poller, lane: Lane, missing: seq<string>, k: nat,
                                          rows: map<string, ItemRow>,
                                          seq0: nat, now: int, i: nat)
    requires k <= |missing| && i < |DeleteRows(p, lane, missing, k, rows, seq0, now)|
    ensures
      var r := DeleteRows(p, lane, missing, k, rows, seq0, now)[i];
      FreshlyMade(r, lane, seq0 + 1 + i, now) && TellsDelete(p, rows, r)
    decreases k
  {
    if k == 0 {
    } else if i < |DeleteRows(p, lane, missing, k - 1, rows, seq0, now)| {
      DeleteRowsTell(p, lane, missing, k - 1, rows, seq0, now, i);
    }
  }

  /** The same for two deletes. */
  lemma DeleteIdsTell(p: Poller, sha: string -> string, lane: Lane, missing: seq<string>, rows: map<string, ItemRow>,
                      seq0: nat, now: int, lane': Lane, missing': seq<string>, rows': map<string, ItemRow>, seq0': nat,
                      now': int, i: nat, j: nat)
    requires p.eventId == EventId.IdOf(sha) && forall x, y :: sha(x) == sha(y) ==> x == y
    requires i < |DeleteRows(p, lane, missing, |missing|, rows, seq0, now)|
    requires j < |DeleteRows(p, lane', missing', |missing'|, rows', seq0', now')|
    ensures
      var r, t := DeleteRows(p, lane, missing, |missing|, rows, seq0, now)[i],
                  DeleteRows(p, lane', missing', |missing'|, rows', seq0', now')[j];
      && r.event.subject in rows && t.event.subject in rows'
      && (r.eventId == t.eventId <==>
            r.event.subject == t.event.subject && RowName(rows[r.event.subject]) == RowName(rows'[t.event.subject]))
  {
    DeleteRowsTell(p, lane, missing, |missing|, rows, seq0, now, i);
    DeleteRowsTell(p, lane', missing', |missing'|, rows', seq0', now', j);
    var r, t := DeleteRows(p, lane, missing, |missing|, rows, seq0, now)[i],
                DeleteRows(p, lane', missing', |missing'|, rows', seq0', now')[j];
    TwoNames(p, p, sha, r, RowName(rows[r.event.subject]), t, RowName(rows'[t.event.subject]));
  }

  /** No row of a page has the id of a delete. */
  lemma PagesAndDeletesDiffer(p: Poller, sha: string -> string, a: PageIn, i: nat, lane: Lane, missing: seq<string>,
                              rows: map<string, ItemRow>, seq0: nat, now: int, j: nat)
    requires p.eventId == EventId.IdOf(sha) && forall x, y :: sha(x) == sha(y) ==> x == y
    requires Spec(p, a).Some? && i < |Spec(p, a).value.events|
    requires j < |DeleteRows(p, lane, missing, |missing|, rows, seq0, now)|
    ensures Spec(p, a).value.events[i].eventId !=
            DeleteRows(p, lane, missing, |missing|, rows, seq0, now)[j].eventId
  {
    PageRowsTell(p, a, i);
    DeleteRowsTell(p, lane, missing, |missing|, rows, seq0, now, j);
    var r := DeleteRows(p, lane, missing, |missing|, rows, seq0, now)[j];
    TwoNames(p, p, sha, Spec(p, a).value.events[i], NameOf(p, a, i), r, RowName(rows[r.event.subject]));
  }

  // ---- invalid items ----------------------------------------------------------------------------

  /** An invalid item fails the page, is dropped, or is quarantined, as configured. Quarantined ones keep
      their order, hold no key, carry no event, and go by the first 32 units of their digest. */
  lemma InvalidItemsFollowPolicy(p: Poller, a: PageIn)
    ensures Spec(p, a).None? <==> a.onInvalid == Fail && exists x :: x in a.raw && !p.valid(x)
    ensures Spec(p, a).Some? ==>
              var parked, invalid := Spec(p, a).value.parked, InvalidItems(p, a.raw);
              && |parked| == (if a.onInvalid == Quarantine then |invalid| else 0)
              && forall i :: 0 <= i < |parked| ==>
                   && parked[i].kind == Invalid && parked[i].event.None? && parked[i].holdKey.None?
                   && parked[i].attempts == 0 && parked[i].parkedAt == a.now
                   && (|p.digest(invalid[i])| == 64 ==> parked[i].id == "invalid:" + p.digest(invalid[i])[..32])
  {
    InvalidItemsFacts(p, a.raw);
    if InvalidItems(p, a.raw) != [] { assert InvalidItems(p, a.raw)[0] in InvalidItems(p, a.raw); }
    QuarantineRowsAre(p, InvalidItems(p, a.raw), a.now);
  }

  /** Both parts keep the order and the repetitions of the page. */
  lemma {:induction false} PartsKeepOrder(p: Poller, a: seq<Item>, b: seq<Item>)
    ensures ValidItems(p, a + b) == ValidItems(p, a) + ValidItems(p, b)
    ensures InvalidItems(p, a + b) == InvalidItems(p, a) + InvalidItems(p, b)
    ensures |a| == 1 ==> ValidItems(p, a) == (if p.valid(a[0]) then a else [])
    ensures |a| == 1 ==> InvalidItems(p, a) == if p.valid(a[0]) then [] else a
    decreases |b|
  {
    if |a| == 1 { assert a[..0] == [] && a == [a[0]]; }
    if b == [] {
      assert a + b == a;
    } else {
      var init, x := b[..|b| - 1], b[|b| - 1];
      assert b == init + [x];
      PartsKeepOrder(p, a, init);
      PartsSnoc(p, init, x);
      PartsSnoc(p, a + init, x);
      assert a + b == (a + init) + [x];
    }
  }

  lemma PartsSnoc(p: Poller, items: seq<Item>, x: Item)
    ensures ValidItems(p, items + [x]) == ValidItems(p, items) + if p.valid(x) then [x] else []
    ensures InvalidItems(p, items + [x]) == InvalidItems(p, items) + if p.valid(x) then [] else [x]
  {
    assert (items + [x])[..|items|] == items;
  }

  lemma {:induction false} InvalidItemsFacts(p: Poller, items: seq<Item>)
    ensures forall x :: x in InvalidItems(p, items) <==> x in items && !p.valid(x)
    ensures |ValidItems(p, items)| + |InvalidItems(p, items)| == |items|
  {
    if items == [] {
    } else {
      assert items == items[..|items| - 1] + [items[|items| - 1]];
      InvalidItemsFacts(p, items[..|items| - 1]);
    }
  }

  lemma {:induction false} QuarantineRowsAre(p: Poller, items: seq<Item>, now: int)
    ensures |QuarantineRows(p, items, now)| == |items|
    ensures forall i :: 0 <= i < |items| ==>
              var digest := p.digest(items[i]);
              QuarantineRows(p, items, now)[i] ==
                ParkedRow("invalid:" + (if |digest| <= 32 then digest else digest[..32]), Invalid, None, 0, now, None)
  {
    if items == [] {
    } else {
      QuarantineRowsAre(p, items[..|items| - 1], now);
    }
  }
}
