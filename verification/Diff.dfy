/** The change engine: duplicate suppression, version fast path, diff against the stored rows. */
module Diff {
  import opened Store
  import EventId
  import Words

  /** The poller callbacks and settings the change engine uses. `fingerprint`, `eventId`
      and `digest` end in SHA-256 and are kept as arbitrary functions; `EventId.IdOf` is the one in use. */
  datatype Poller = Poller(
    identity: Item -> string, version: Item -> Option<string>, fingerprint: Item -> string, valid: Item -> bool,
    schemaVersion: int, retainPayload: bool, emitOnDrift: bool, source: string, partition: string,
    eventId: EventId.Parts -> string, digest: Item -> string)

  datatype Candidate = Candidate(identity: string, item: Item, version: Option<string>, hash: string)
  datatype Change = Change(
    kind: EventType, identity: string, item: Item, previous: Option<Item>, version: Option<string>, hash: string)
  datatype DiffResult = DiffResult(
    changes: seq<Change>, upserts: seq<ItemRow>, same: seq<string>, rebaselined: seq<string>)

  // ---- duplicates inside a page ---------------------------------------------------------------

  /** Index of the item with identity `id`, or the length when there is none. */
  function Position(p: Poller, items: seq<Item>, id: string): (i: nat)
    ensures i <= |items|
    ensures i < |items| ==> p.identity(items[i]) == id
    ensures forall j :: 0 <= j < i ==> p.identity(items[j]) != id
  {
    if items == [] then 0
    else if p.identity(items[0]) == id then 0
    else
      var k := Position(p, items[1..], id);
      assert forall j :: 1 <= j < 1 + k ==> items[j] == items[1..][j - 1];
      1 + k
  }

  /** An insertion-ordered map keyed by identity: set `item`, keeping the slot of an earlier one. */
  function SetLatest(p: Poller, latest: seq<Item>, item: Item): seq<Item> {
    var i := Position(p, latest, p.identity(item));
    if i < |latest| then latest[i := item] else latest + [item]
  }

  function Latest(p: Poller, items: seq<Item>): seq<Item> {
    if items == [] then [] else SetLatest(p, Latest(p, items[..|items| - 1]), items[|items| - 1])
  }

  function Ids(p: Poller, items: seq<Item>): set<string> { set x | x in items :: p.identity(x) }

  ghost predicate Distinct(p: Poller, items: seq<Item>) {
    forall i, j :: 0 <= i < j < |items| ==> p.identity(items[i]) != p.identity(items[j])
  }

  lemma IdsSnoc(p: Poller, init: seq<Item>, x: Item)
    ensures Ids(p, init + [x]) == Ids(p, init) + {p.identity(x)}
  {
    assert forall y :: y in init + [x] <==> y in init || y == x;
  }

  lemma SetLatestFacts(p: Poller, l: seq<Item>, x: Item)
    requires Distinct(p, l)
    ensures Distinct(p, SetLatest(p, l, x)) && x in SetLatest(p, l, x)
    ensures forall y :: y in SetLatest(p, l, x) ==> y in l || y == x
    ensures forall y :: y in l && p.identity(y) != p.identity(x) ==> y in SetLatest(p, l, x)
  {
    var k, l' := Position(p, l, p.identity(x)), SetLatest(p, l, x);
    assert l'[k] == x;
    forall y | y in l && p.identity(y) != p.identity(x) ensures y in l' {
      var j :| 0 <= j < |l| && l[j] == y;
      assert l'[j] == y;
    }
  }

  lemma SetLatestIds(p: Poller, l: seq<Item>, x: Item)
    requires Distinct(p, l)
    ensures Ids(p, SetLatest(p, l, x)) == Ids(p, l) + {p.identity(x)}
  {
    SetLatestFacts(p, l, x);
    var l' := SetLatest(p, l, x);
    forall id | id in Ids(p, l) ensures id in Ids(p, l') {
      var y :| y in l && p.identity(y) == id;
      assert (if id == p.identity(x) then x else y) in l';
    }
  }

  /** One item per identity, each of them listed. */
  lemma {:induction false} LatestIsDistinct(p: Poller, items: seq<Item>)
    ensures Distinct(p, Latest(p, items))
    ensures Ids(p, Latest(p, items)) == Ids(p, items)
    ensures forall x :: x in Latest(p, items) ==> x in items
  {
    if items == [] {
    } else {
      var init, last := items[..|items| - 1], items[|items| - 1];
      assert items == init + [last];
      LatestIsDistinct(p, init);
      SetLatestFacts(p, Latest(p, init), last);
      SetLatestIds(p, Latest(p, init), last);
      IdsSnoc(p, init, last);
    }
  }

  /** The last occurrence of an identity wins. */
  lemma {:induction false} LastOccurrenceWins(p: Poller, before: seq<Item>, x: Item, after: seq<Item>)
    requires forall y :: y in after ==> p.identity(y) != p.identity(x)
    ensures x in Latest(p, before + [x] + after)
    decreases |after|
  {
    if after == [] {
      assert before + [x] + after == before + [x];
      LatestSnoc(p, before, x);
    } else {
      var init, last := after[..|after| - 1], after[|after| - 1];
      assert before + [x] + after == (before + [x] + init) + [last];
      LastOccurrenceWins(p, before, x, init);
      LatestSnoc(p, before + [x] + init, last);
    }
  }

  lemma LatestSnoc(p: Poller, items: seq<Item>, x: Item)
    ensures x in Latest(p, items + [x])
    ensures forall y :: y in Latest(p, items) && p.identity(y) != p.identity(x) ==> y in Latest(p, items + [x])
  {
    LatestIsDistinct(p, items);
    SetLatestFacts(p, Latest(p, items), x);
    assert (items + [x])[..|items|] == items;
  }

  // ---- candidates and the version fast path ---------------------------------------------------

  predicate FastPath(p: Poller, item: Item, existing: map<string, ItemRow>) {
    var id := p.identity(item);
    && p.version(item).Some? && id in existing
    && existing[id].version == p.version(item) && existing[id].schemaVersion == p.schemaVersion
  }

  function CandidateOf(p: Poller, item: Item): Candidate {
    Candidate(p.identity(item), item, p.version(item), p.fingerprint(item))
  }

  function Candidates(p: Poller, items: seq<Item>, existing: map<string, ItemRow>): seq<Candidate> {
    if items == [] then []
    else
      var x := items[|items| - 1];
      Candidates(p, items[..|items| - 1], existing) + if FastPath(p, x, existing) then [] else [CandidateOf(p, x)]
  }

  function Skipped(p: Poller, items: seq<Item>, existing: map<string, ItemRow>): seq<string> {
    if items == [] then []
    else
      var x := items[|items| - 1];
      Skipped(p, items[..|items| - 1], existing) + if FastPath(p, x, existing) then [p.identity(x)] else []
  }

  method PrepareCandidates(p: Poller, items: seq<Item>, existing: map<string, ItemRow>)
    returns (candidates: seq<Candidate>, same: seq<string>)
    ensures candidates == Candidates(p, Latest(p, items), existing)
    ensures same == Skipped(p, Latest(p, items), existing)
  {
    var latest: seq<Item> := [];
    for i := 0 to |items|
      invariant latest == Latest(p, items[..i])
    {
      assert items[..i + 1][..i] == items[..i];
      latest := SetLatest(p, latest, items[i]);
    }
    assert items[..|items|] == items;
    candidates, same := [], [];
    for i := 0 to |latest|
      invariant candidates == Candidates(p, latest[..i], existing)
      invariant same == Skipped(p, latest[..i], existing)
    {
      assert latest[..i + 1][..i] == latest[..i];
      if FastPath(p, latest[i], existing) {
        same := same + [p.identity(latest[i])];
      } else {
        candidates := candidates + [CandidateOf(p, latest[i])];
      }
    }
    assert latest[..|latest|] == latest;
  }

  // ---- diff -----------------------------------------------------------------------------------

  datatype Verdict = IsCreated | IsUpdated | IsRebaselined | IsUnchanged

  function Compare(p: Poller, c: Candidate, existing: map<string, ItemRow>): Verdict {
    if c.identity !in existing then IsCreated
    else
      var row := existing[c.identity];
      var drifted := row.schemaVersion != p.schemaVersion;
      if drifted && !p.emitOnDrift then IsRebaselined
      else if row.hash != c.hash then IsUpdated
      else if drifted then IsRebaselined
      else IsUnchanged
  }

  function RowFor(p: Poller, c: Candidate, now: int): ItemRow {
    ItemRow(c.identity, c.version, c.hash, p.schemaVersion, if p.retainPayload then Some(c.item) else None, now)
  }

  function DiffStep(p: Poller, r: DiffResult, c: Candidate, existing: map<string, ItemRow>, now: int,
                    touch: bool): DiffResult {
    match Compare(p, c, existing)
    case IsCreated =>
      r.(changes := r.changes + [Change(Created, c.identity, c.item, None, c.version, c.hash)],
         upserts := r.upserts + [RowFor(p, c, now)])
    case IsRebaselined =>
      r.(rebaselined := r.rebaselined + [c.identity], upserts := r.upserts + [RowFor(p, c, now)])
    case IsUpdated =>
      var previous := if p.retainPayload && c.identity in existing then existing[c.identity].payload else None;
      r.(changes := r.changes + [Change(Updated, c.identity, c.item, previous, c.version, c.hash)],
         upserts := r.upserts + [RowFor(p, c, now)])
    case IsUnchanged =>
      var rewrite := touch || (c.identity in existing && existing[c.identity].version != c.version);
      r.(same := r.same + [c.identity],
         upserts := r.upserts + if rewrite then [RowFor(p, c, now)] else [])
  }

  function DiffAll(p: Poller, cs: seq<Candidate>, existing: map<string, ItemRow>, now: int, touch: bool): DiffResult {
    if cs == [] then DiffResult([], [], [], [])
    else DiffStep(p, DiffAll(p, cs[..|cs| - 1], existing, now, touch), cs[|cs| - 1], existing, now, touch)
  }

  method DiffCandidates(p: Poller, cs: seq<Candidate>, existing: map<string, ItemRow>, now: int, touch: bool)
    returns (result: DiffResult)
    ensures result == DiffAll(p, cs, existing, now, touch)
  {
    var changes: seq<Change>, upserts: seq<ItemRow>, same: seq<string>, rebaselined: seq<string> := [], [], [], [];
    for i := 0 to |cs|
      invariant DiffResult(changes, upserts, same, rebaselined) == DiffAll(p, cs[..i], existing, now, touch)
    {
      assert cs[..i + 1][..i] == cs[..i];
      var c := cs[i];
      if c.identity !in existing {
        changes := changes + [Change(Created, c.identity, c.item, None, c.version, c.hash)];
        upserts := upserts + [RowFor(p, c, now)];
        continue;
      }
      var row := existing[c.identity];
      var drifted := row.schemaVersion != p.schemaVersion;
      if drifted && !p.emitOnDrift {
        rebaselined := rebaselined + [c.identity];
        upserts := upserts + [RowFor(p, c, now)];
        continue;
      }
      if row.hash != c.hash {
        changes := changes + [Change(Updated, c.identity, c.item, if p.retainPayload then row.payload else None,
                                     c.version, c.hash)];
        upserts := upserts + [RowFor(p, c, now)];
        continue;
      }
      if drifted {
        rebaselined := rebaselined + [c.identity];
        upserts := upserts + [RowFor(p, c, now)];
        continue;
      }
      same := same + [c.identity];
      if touch || row.version != c.version {
        upserts := upserts + [RowFor(p, c, now)];
      }
    }
    assert cs[..|cs|] == cs;
    result := DiffResult(changes, upserts, same, rebaselined);
  }

  /** Stored identities not listed in this scan, sorted by code units. */
  method DetectDeletes(existing: seq<string>, seen: set<string>) returns (deleted: seq<string>)
    ensures forall id :: id in deleted <==> id in existing && id !in seen
    ensures Words.Sorted(deleted)
    ensures Words.NoRepeat(existing) ==> Words.NoRepeat(deleted)
  {
    var found := [];
    for i := 0 to |existing|
      invariant forall id :: id in found <==> id in existing[..i] && id !in seen
      invariant Words.NoRepeat(existing) ==> Words.NoRepeat(found)
    {
      if existing[i] !in seen { found := found + [existing[i]]; }
    }
    Words.SortSorts(found);
    Words.SortKeeps(found);
    deleted := Words.Sort(found);
  }

  // ---- what the diff means --------------------------------------------------------------------

  /** Valid items of equal identity and version have equal fingerprints. */
  ghost predicate VersionsFaithful(p: Poller) {
    forall x: Item, y: Item :: p.valid(x) && p.valid(y) && SameVersion(p, x, y) ==> p.fingerprint(x) == p.fingerprint(y)
  }

  predicate SameVersion(p: Poller, x: Item, y: Item) {
    p.identity(x) == p.identity(y) && p.version(x).Some? && p.version(x) == p.version(y)
  }

  /** All rows were written at the poller's schema version. */
  ghost predicate SchemaOk(p: Poller, rows: map<string, ItemRow>) {
    forall id :: id in rows ==> rows[id].schemaVersion == p.schemaVersion
  }

  /** The row stored under `id` is that of a valid item `x`. */
  predicate RowOf(p: Poller, id: string, row: ItemRow, x: Item) {
    p.valid(x) && p.identity(x) == id && p.version(x) == row.version && p.fingerprint(x) == row.hash
  }

  ghost predicate FromItems(p: Poller, rows: map<string, ItemRow>) {
    forall id :: id in rows ==> exists x :: RowOf(p, id, rows[id], x)
  }

  /** The row shows `x`: its version, and its fingerprint if it has no version. */
  predicate Shows(p: Poller, row: ItemRow, x: Item) {
    row.version == p.version(x) && (p.version(x).None? ==> row.hash == p.fingerprint(x))
  }

  /** For the items at hand, an unchanged version tells of an unchanged fingerprint. */
  ghost predicate VersionsTell(p: Poller, latest: seq<Item>, rows: map<string, ItemRow>) {
    forall x :: x in latest && FastPath(p, x, rows) ==> rows[p.identity(x)].hash == p.fingerprint(x)
  }

  /** Faithful versions always tell. */
  lemma FaithfulVersionsTell(p: Poller, latest: seq<Item>, rows: map<string, ItemRow>)
    requires VersionsFaithful(p) && FromItems(p, rows) && forall x :: x in latest ==> p.valid(x)
    ensures VersionsTell(p, latest, rows)
  {
    forall x | x in latest && FastPath(p, x, rows) ensures rows[p.identity(x)].hash == p.fingerprint(x) {
      var y :| RowOf(p, p.identity(x), rows[p.identity(x)], y);
      assert SameVersion(p, x, y);
    }
  }

  /** The fingerprint stored for each identity. */
  function Hashes(items: map<string, ItemRow>): map<string, string> { map id | id in items :: items[id].hash }

  function ApplyChanges(m: map<string, string>, changes: seq<Change>): map<string, string> {
    if changes == [] then m
    else ApplyChanges(m, changes[..|changes| - 1])[changes[|changes| - 1].identity := changes[|changes| - 1].hash]
  }

  /** The rows the diff was given are those stored under the page's identities. */
  ghost predicate ReadsFrom(existing: map<string, ItemRow>, items: map<string, ItemRow>, ids: set<string>) {
    forall id :: id in ids ==> (id in existing <==> id in items) && (id in items ==> existing[id] == items[id])
  }

  function PageDiff(p: Poller, latest: seq<Item>, existing: map<string, ItemRow>, now: int, touch: bool): DiffResult {
    DiffAll(p, Candidates(p, latest, existing), existing, now, touch)
  }

  /** What one listed item adds to the result so far. */
  function ItemStep(p: Poller, r: DiffResult, x: Item, existing: map<string, ItemRow>, now: int,
                    touch: bool): DiffResult {
    if FastPath(p, x, existing) then r else DiffStep(p, r, CandidateOf(p, x), existing, now, touch)
  }

  lemma PageDiffSnoc(p: Poller, init: seq<Item>, x: Item, existing: map<string, ItemRow>, now: int, touch: bool)
    ensures PageDiff(p, init + [x], existing, now, touch) ==
            ItemStep(p, PageDiff(p, init, existing, now, touch), x, existing, now, touch)
  {
    assert (init + [x])[..|init|] == init;
    var cs := Candidates(p, init, existing);
    if FastPath(p, x, existing) {
      assert Candidates(p, init + [x], existing) == cs;
    } else {
      assert (cs + [CandidateOf(p, x)])[..|cs|] == cs;
    }
  }

  lemma PutItemsSnoc(m: map<string, ItemRow>, rows: seq<ItemRow>, row: ItemRow)
    ensures PutItems(m, rows + [row]) == PutItems(m, rows)[row.identity := row]
  {
    assert (rows + [row])[..|rows|] == rows;
  }

  lemma ApplyChangesSnoc(m: map<string, string>, cs: seq<Change>, c: Change)
    ensures ApplyChanges(m, cs + [c]) == ApplyChanges(m, cs)[c.identity := c.hash]
  {
    assert (cs + [c])[..|cs|] == cs;
  }

  /** What the row of `x` is after its step: left alone on the fast path, otherwise up to date. */
  predicate RowAfter(p: Poller, x: Item, rows: map<string, ItemRow>, row: ItemRow) {
    && row.version == p.version(x) && row.schemaVersion == p.schemaVersion
    && if FastPath(p, x, rows) then row == rows[p.identity(x)] else row.hash == p.fingerprint(x)
  }

  /** One item: its row is rewritten or already right, and at an unchanged schema version a change is
      emitted exactly when the fingerprint of the row moves. */
  lemma ItemStepRow(p: Poller, r: DiffResult, x: Item, rows: map<string, ItemRow>, now: int, touch: bool)
    ensures
      var r' := ItemStep(p, r, x, rows, now, touch);
      var row, id := RowFor(p, CandidateOf(p, x), now), p.identity(x);
      && (r'.upserts == r.upserts || r'.upserts == r.upserts + [row])
      && (r'.upserts == r.upserts ==> id in rows && RowAfter(p, x, rows, rows[id]))
      && (r'.upserts != r.upserts ==> RowAfter(p, x, rows, row))
      && (r'.changes == r.changes ||
          exists c: Change :: r'.changes == r.changes + [c] && c.identity == id && c.hash == row.hash)
      && (r'.changes != r.changes ==> r'.upserts != r.upserts && !FastPath(p, x, rows))
      && ((id in rows ==>
          rows[id].schemaVersion == p.schemaVersion) && r'.changes == r.changes && r'.upserts != r.upserts ==>
            id in rows && rows[id].hash == row.hash)
  {
    var c := CandidateOf(p, x);
    var r' := ItemStep(p, r, x, rows, now, touch);
    if r'.changes != r.changes {
      var ch := r'.changes[|r.changes|];
      assert r'.changes == r.changes + [ch] && ch.identity == c.identity && ch.hash == c.hash;
    }
  }

  lemma HashesPut(m: map<string, ItemRow>, row: ItemRow)
    ensures Hashes(m[row.identity := row]) == Hashes(m)[row.identity := row.hash]
  {
  }

  lemma DistinctSnoc(p: Poller, init: seq<Item>, x: Item)
    requires Distinct(p, init + [x])
    ensures Distinct(p, init) && p.identity(x) !in Ids(p, init)
  {
    var all := init + [x];
    assert forall j :: 0 <= j < |init| ==> all[j] == init[j];
    assert all[|init|] == x;
  }

  /** What a page commit does to the stored rows. */
  ghost predicate PageEffect(p: Poller, latest: seq<Item>, items: map<string, ItemRow>, items': map<string, ItemRow>) {
    && (forall x :: x in latest ==> p.identity(x) in items' && RowAfter(p, x, items, items'[p.identity(x)]))
    && items'.Keys == items.Keys + Ids(p, latest)
    && (forall id :: id in items && id !in Ids(p, latest) ==> items'[id] == items[id])
  }

  lemma EffectSnoc(p: Poller, init: seq<Item>, x: Item, items: map<string, ItemRow>, m: map<string, ItemRow>,
                   m': map<string, ItemRow>)
    requires PageEffect(p, init, items, m) && p.identity(x) !in Ids(p, init)
    requires m'.Keys == m.Keys + {p.identity(x)} && RowAfter(p, x, items, m'[p.identity(x)])
    requires forall id :: id in m && id != p.identity(x) ==> m'[id] == m[id]
    ensures PageEffect(p, init + [x], items, m')
  {
    IdsSnoc(p, init, x);
    forall y | y in init + [x] ensures p.identity(y) in m' && RowAfter(p, y, items, m'[p.identity(y)]) {
      if y in init { assert p.identity(y) in Ids(p, init); }
    }
  }

  /** Every listed row ends at its item's version and at the poller's schema version. */
  lemma EffectKeepsRows(p: Poller, latest: seq<Item>, items: map<string, ItemRow>, items': map<string, ItemRow>)
    requires PageEffect(p, latest, items, items') && forall x :: x in latest ==> p.valid(x)
    ensures SchemaOk(p, items) ==> SchemaOk(p, items')
    ensures FromItems(p, items) ==> FromItems(p, items')
  {
    forall id | id in items' && FromItems(p, items) ensures exists x :: RowOf(p, id, items'[id], x) {
      if id in Ids(p, latest) {
        var x :| x in latest && p.identity(x) == id;
        if FastPath(p, x, items) { assert items'[id] == items[id]; } else { assert RowOf(p, id, items'[id], x); }
      } else {
        assert items'[id] == items[id];
      }
    }
  }

  /** The changes move the fingerprints as the upserts do, unless rows of an older schema are rewritten silently. */
  ghost predicate ChangesTell(p: Poller, items: map<string, ItemRow>, r: DiffResult) {
    SchemaOk(p, items) ==> ApplyChanges(Hashes(items), r.changes) == Hashes(PutItems(items, r.upserts))
  }

  /** Committing a page's upserts leaves every listed identity at the version of its item, and at its
      fingerprint unless the version was known already; leaves all others alone; and moves the
      fingerprints exactly as the emitted changes say. */
  lemma {:induction false} DiffIsSound(p: Poller, items: map<string, ItemRow>, latest: seq<Item>, now: int, touch: bool)
    requires Distinct(p, latest)
    ensures
      var r := PageDiff(p, latest, items, now, touch);
      PageEffect(p, latest, items, PutItems(items, r.upserts)) && ChangesTell(p, items, r)
    decreases |latest|
  {
    if latest == [] { return; }
    var init, x := latest[..|latest| - 1], latest[|latest| - 1];
    assert latest == init + [x];
    DistinctSnoc(p, init, x);
    DiffIsSound(p, items, init, now, touch);
    PageDiffSnoc(p, init, x, items, now, touch);
    DiffIsSoundStep(p, items, init, x, PageDiff(p, init, items, now, touch), now, touch);
  }

  lemma DiffIsSoundStep(p: Poller, items: map<string, ItemRow>, init: seq<Item>, x: Item, r: DiffResult, now: int,
                        touch: bool)
    requires p.identity(x) !in Ids(p, init)
    requires PageEffect(p, init, items, PutItems(items, r.upserts)) && ChangesTell(p, items, r)
    ensures
      var r' := ItemStep(p, r, x, items, now, touch);
      PageEffect(p, init + [x], items, PutItems(items, r'.upserts)) && ChangesTell(p, items, r')
  {
    var m, id := PutItems(items, r.upserts), p.identity(x);
    var r' := ItemStep(p, r, x, items, now, touch);
    var row := RowFor(p, CandidateOf(p, x), now);
    ItemStepRow(p, r, x, items, now, touch);
    if r'.upserts != r.upserts {
      PutItemsSnoc(items, r.upserts, row);
      HashesPut(m, row);
    }
    EffectSnoc(p, init, x, items, m, PutItems(items, r'.upserts));
    if r'.changes != r.changes {
      var c :| r'.changes == r.changes + [c] && c.identity == id && c.hash == row.hash;
      ApplyChangesSnoc(Hashes(items), r.changes, c);
    } else if SchemaOk(p, items) && r'.upserts != r.upserts {
      assert Hashes(m)[id := row.hash] == Hashes(m);
    }
  }

  /** The diff looks only at the rows under the page's identities. */
  lemma {:induction false} DiffReadsOnly(p: Poller, latest: seq<Item>, existing: map<string, ItemRow>,
                                         items: map<string, ItemRow>, now: int, touch: bool)
    requires ReadsFrom(existing, items, Ids(p, latest))
    ensures PageDiff(p, latest, existing, now, touch) == PageDiff(p, latest, items, now, touch)
    ensures forall x :: x in latest ==> FastPath(p, x, existing) == FastPath(p, x, items)
    decreases |latest|
  {
    if latest == [] {
    } else {
      var init, x := latest[..|latest| - 1], latest[|latest| - 1];
      assert latest == init + [x];
      IdsSnoc(p, init, x);
      DiffReadsOnly(p, init, existing, items, now, touch);
      PageDiffSnoc(p, init, x, existing, now, touch);
      PageDiffSnoc(p, init, x, items, now, touch);
      StepReadsOnly(p, PageDiff(p, init, items, now, touch), x, existing, items, now, touch);
    }
  }

  lemma StepReadsOnly(p: Poller, r: DiffResult, x: Item, existing: map<string, ItemRow>, items: map<string, ItemRow>,
                      now: int, touch: bool)
    requires ReadsFrom(existing, items, {p.identity(x)})
    ensures FastPath(p, x, existing) == FastPath(p, x, items)
    ensures ItemStep(p, r, x, existing, now, touch) == ItemStep(p, r, x, items, now, touch)
  {
  }

  // ---- what becomes of each listed item ---------------------------------------------------------

  /** Nothing is said about `id`. */
  ghost predicate Silent(r: DiffResult, id: string) {
    && id !in ChangedIds(r.changes) && id !in r.same && id !in r.rebaselined
    && (forall row :: row in r.upserts ==> row.identity != id)
  }

  /** The version of `x` is stored, at the current schema version. */
  predicate Known(p: Poller, x: Item, rows: map<string, ItemRow>) {
    && p.version(x).Some? && p.identity(x) in rows && rows[p.identity(x)].version == p.version(x)
    && rows[p.identity(x)].schemaVersion == p.schemaVersion
  }

  /** `x` is new, or its fingerprint moved and the schema did not, or the schema did and moves are to be told. */
  predicate Tellable(p: Poller, x: Item, rows: map<string, ItemRow>) {
    var id := p.identity(x);
    || id !in rows
    || (rows[id].hash != p.fingerprint(x) && (rows[id].schemaVersion == p.schemaVersion || p.emitOnDrift))
  }

  function ChangeOf(p: Poller, x: Item, rows: map<string, ItemRow>): Change {
    var id := p.identity(x);
    Change(if id in rows then Updated else Created, id, x,
           if id in rows && p.retainPayload then rows[id].payload else None, p.version(x), p.fingerprint(x))
  }

  function RowOfItem(p: Poller, x: Item, now: int): ItemRow {
    ItemRow(p.identity(x), p.version(x), p.fingerprint(x), p.schemaVersion,
            if p.retainPayload then Some(x) else None, now)
  }

  /** Everything the diff says about a listed item that is not known by its version: one change exactly when
      it is tellable, a row unless nothing moved, and one of the lists of the silent ones otherwise. */
  ghost predicate Told(p: Poller, x: Item, rows: map<string, ItemRow>, now: int, touch: bool, r: DiffResult) {
    ToldChange(p, x, rows, r) && ToldQuietly(p, x, rows, r) && ToldRow(p, x, rows, now, touch, r)
  }

  predicate Drifted(p: Poller, x: Item, rows: map<string, ItemRow>) {
    p.identity(x) in rows && rows[p.identity(x)].schemaVersion != p.schemaVersion
  }

  ghost predicate ToldChange(p: Poller, x: Item, rows: map<string, ItemRow>, r: DiffResult) {
    && (p.identity(x) in ChangedIds(r.changes) <==> Tellable(p, x, rows))
    && (forall c :: c in r.changes && c.identity == p.identity(x) ==> c == ChangeOf(p, x, rows))
  }

  ghost predicate ToldQuietly(p: Poller, x: Item, rows: map<string, ItemRow>, r: DiffResult) {
    && (p.identity(x) in r.rebaselined <==> Drifted(p, x, rows) && !Tellable(p, x, rows))
    && (p.identity(x) in r.same <==> !Drifted(p, x, rows) && !Tellable(p, x, rows))
  }

  ghost predicate ToldRow(p: Poller, x: Item, rows: map<string, ItemRow>, now: int, touch: bool, r: DiffResult) {
    var id := p.identity(x);
    && ((exists row :: row in r.upserts && row.identity == id) <==>
          Tellable(p, x, rows) || Drifted(p, x, rows) || touch || (id in rows && rows[id].version != p.version(x)))
    && (forall row :: row in r.upserts && row.identity == id ==> row == RowOfItem(p, x, now))
  }

  lemma StepVerdict(p: Poller, r: DiffResult, x: Item, rows: map<string, ItemRow>, now: int, touch: bool)
    requires Silent(r, p.identity(x))
    ensures Known(p, x, rows) ==> ItemStep(p, r, x, rows, now, touch) == r
    ensures !Known(p, x, rows) ==> Told(p, x, rows, now, touch, ItemStep(p, r, x, rows, now, touch))
  {
    if !Known(p, x, rows) {
      StepChange(p, r, x, rows, now, touch);
      StepQuietly(p, r, x, rows, now, touch);
      StepRow(p, r, x, rows, now, touch);
    }
  }

  lemma StepChange(p: Poller, r: DiffResult, x: Item, rows: map<string, ItemRow>, now: int, touch: bool)
    requires Silent(r, p.identity(x)) && !Known(p, x, rows)
    ensures ToldChange(p, x, rows, ItemStep(p, r, x, rows, now, touch))
  {
    var r' := ItemStep(p, r, x, rows, now, touch);
    Grew(r, r', p.identity(x));
    if r'.changes != r.changes { assert r'.changes[|r.changes|] in r'.changes; }
    forall c | c in r'.changes && c.identity == p.identity(x) ensures c == ChangeOf(p, x, rows) {
      assert c !in r.changes;
    }
  }

  lemma StepQuietly(p: Poller, r: DiffResult, x: Item, rows: map<string, ItemRow>, now: int, touch: bool)
    requires Silent(r, p.identity(x)) && !Known(p, x, rows)
    ensures ToldQuietly(p, x, rows, ItemStep(p, r, x, rows, now, touch))
  {
    var r' := ItemStep(p, r, x, rows, now, touch);
    if r'.same != r.same { assert r'.same[|r.same|] in r'.same; }
    if r'.rebaselined != r.rebaselined { assert r'.rebaselined[|r.rebaselined|] in r'.rebaselined; }
  }

  lemma StepRow(p: Poller, r: DiffResult, x: Item, rows: map<string, ItemRow>, now: int, touch: bool)
    requires Silent(r, p.identity(x)) && !Known(p, x, rows)
    ensures ToldRow(p, x, rows, now, touch, ItemStep(p, r, x, rows, now, touch))
  {
    var r' := ItemStep(p, r, x, rows, now, touch);
    if r'.upserts != r.upserts { assert r'.upserts[|r.upserts|] in r'.upserts; }
    forall row | row in r'.upserts && row.identity == p.identity(x) ensures row == RowOfItem(p, x, now) {
      assert row !in r.upserts;
    }
  }

  /** Of a result about which nothing was said of `id`, only what was added can mention it. */
  lemma Grew(r: DiffResult, r': DiffResult, id: string)
    requires Silent(r, id)
    requires |r.changes| <= |r'.changes| && r'.changes[..|r.changes|] == r.changes
    ensures id in ChangedIds(r'.changes) ==> exists c :: c in r'.changes[|r.changes|..] && c.identity == id
  {
    assert r'.changes == r.changes + r'.changes[|r.changes|..];
    if id in ChangedIds(r'.changes) {
      var c :| c in r'.changes && c.identity == id;
      assert c in r'.changes[|r.changes|..];
    }
  }

  /** What is said of `id` is not touched by the step of another item. */
  lemma StepElsewhere(p: Poller, r: DiffResult, x: Item, rows: map<string, ItemRow>, now: int, touch: bool, id: string)
    requires p.identity(x) != id
    ensures
      var r' := ItemStep(p, r, x, rows, now, touch);
      && (id in ChangedIds(r'.changes) <==> id in ChangedIds(r.changes))
      && (forall c: Change :: c.identity == id ==> (c in r'.changes <==> c in r.changes))
      && (id in r'.same <==> id in r.same) && (id in r'.rebaselined <==> id in r.rebaselined)
      && (forall row: ItemRow :: row.identity == id ==> (row in r'.upserts <==> row in r.upserts))
  {
  }

  lemma {:induction false} Unlisted(p: Poller, latest: seq<Item>, rows: map<string, ItemRow>, now: int, touch: bool,
                                    id: string)
    requires id !in Ids(p, latest)
    ensures Silent(PageDiff(p, latest, rows, now, touch), id)
    decreases |latest|
  {
    if latest == [] {
    } else {
      var init, x := latest[..|latest| - 1], latest[|latest| - 1];
      assert latest == init + [x];
      IdsSnoc(p, init, x);
      Unlisted(p, init, rows, now, touch, id);
      PageDiffSnoc(p, init, x, rows, now, touch);
      StepElsewhere(p, PageDiff(p, init, rows, now, touch), x, rows, now, touch, id);
    }
  }

  /** Each listed item, at any schema versions: nothing is said of it if its version is known, otherwise
      exactly what its stored row and the drift policy call for. Nothing is said of what is not listed. */
  lemma {:induction false} EveryVerdict(p: Poller, latest: seq<Item>, rows: map<string, ItemRow>, now: int,
                                        touch: bool, x: Item)
    requires Distinct(p, latest) && x in latest
    ensures
      var r := PageDiff(p, latest, rows, now, touch);
      if Known(p, x, rows) then Silent(r, p.identity(x)) else Told(p, x, rows, now, touch, r)
    decreases |latest|
  {
    var init, y := latest[..|latest| - 1], latest[|latest| - 1];
    assert latest == init + [y];
    DistinctSnoc(p, init, y);
    PageDiffSnoc(p, init, y, rows, now, touch);
    var r := PageDiff(p, init, rows, now, touch);
    if x == y {
      Unlisted(p, init, rows, now, touch, p.identity(x));
      StepVerdict(p, r, x, rows, now, touch);
    } else {
      assert x in init && p.identity(x) in Ids(p, init);
      EveryVerdict(p, init, rows, now, touch, x);
      StepElsewhere(p, r, y, rows, now, touch, p.identity(x));
    }
  }

  // ---- the fast path refines the full diff ----------------------------------------------------

  /** Every item hashed, none skipped. */
  function AllCandidates(p: Poller, items: seq<Item>): seq<Candidate> {
    if items == [] then [] else AllCandidates(p, items[..|items| - 1]) + [CandidateOf(p, items[|items| - 1])]
  }

  /** The stored columns a later diff can observe. */
  function Core(items: map<string, ItemRow>): map<string, (Option<string>, string, int)> {
    map id | id in items :: (items[id].version, items[id].hash, items[id].schemaVersion)
  }

  /** Skipping the hash of items whose version matches gives the same changes, and the same stored
      version, hash and schema version, as hashing every item, duplicates included; exactly when for the
      items at hand an unchanged version tells of an unchanged fingerprint. */
  lemma FastPathRefinesFullDiff(p: Poller, items: seq<Item>, existing: map<string, ItemRow>,
                                stored: map<string, ItemRow>, now: int, touch: bool)
    requires ReadsFrom(existing, stored, Ids(p, items))
    ensures
      var latest := Latest(p, items);
      var fast := PageDiff(p, latest, existing, now, touch);
      var full := DiffAll(p, AllCandidates(p, latest), existing, now, touch);
      && (VersionsTell(p, latest, existing) ==>
            fast.changes == full.changes && Core(PutItems(stored, fast.upserts)) == Core(PutItems(stored,
                full.upserts)))
      && (fast.changes == full.changes ==> VersionsTell(p, latest, existing))
  {
    var latest := Latest(p, items);
    LatestIsDistinct(p, items);
    if VersionsTell(p, latest, existing) { FastPathPrefix(p, latest, existing, stored, now, touch); }
    ChangedItems(p, latest, existing, now, touch);
    FullChanges(p, latest, existing, now, touch);
    forall x | x in latest && FastPath(p, x, existing) && existing[p.identity(x)].hash != p.fingerprint(x)
      ensures PageDiff(p, latest, existing, now, touch).changes != DiffAll(p, AllCandidates(p, latest), existing, now,
          touch).changes
    {
      assert Compare(p, CandidateOf(p, x), existing) == IsUpdated;
      assert p.identity(x) in ChangedIds(DiffAll(p, AllCandidates(p, latest), existing, now, touch).changes);
    }
  }

  function ChangedIds(changes: seq<Change>): set<string> { set c | c in changes :: c.identity }

  lemma ChangedSnoc(changes: seq<Change>, c: Change)
    ensures ChangedIds(changes + [c]) == ChangedIds(changes) + {c.identity}
  {
    assert forall d :: d in changes + [c] <==> d in changes || d == c;
  }

  /** A change is emitted only for an item off the fast path. */
  lemma {:induction false} ChangedItems(p: Poller, latest: seq<Item>, existing: map<string, ItemRow>, now: int,
                                        touch: bool)
    requires Distinct(p, latest)
    ensures ChangedIds(PageDiff(p, latest, existing, now, touch).changes) <= Ids(p, latest)
    ensures forall x :: x in latest && FastPath(p, x, existing) ==>
              p.identity(x) !in ChangedIds(PageDiff(p, latest, existing, now, touch).changes)
    decreases |latest|
  {
    if latest == [] {
    } else {
      var init, x := latest[..|latest| - 1], latest[|latest| - 1];
      assert latest == init + [x];
      DistinctSnoc(p, init, x);
      IdsSnoc(p, init, x);
      ChangedItems(p, init, existing, now, touch);
      PageDiffSnoc(p, init, x, existing, now, touch);
      var r := PageDiff(p, init, existing, now, touch);
      ItemStepRow(p, r, x, existing, now, touch);
      var r' := ItemStep(p, r, x, existing, now, touch);
      if r'.changes != r.changes {
        var c :| r'.changes == r.changes + [c] && c.identity == p.identity(x);
        ChangedSnoc(r.changes, c);
      }
      forall y | y in latest && FastPath(p, y, existing) ensures p.identity(y) !in ChangedIds(r'.changes) {
        if y in init { assert p.identity(y) in Ids(p, init); }
      }
    }
  }

  /** Hashing everything, every changed fingerprint is a change. */
  lemma {:induction false} FullChanges(p: Poller, latest: seq<Item>, existing: map<string, ItemRow>, now: int,
                                       touch: bool)
    ensures forall x :: x in latest && Compare(p, CandidateOf(p, x), existing) == IsUpdated ==>
              p.identity(x) in ChangedIds(DiffAll(p, AllCandidates(p, latest), existing, now, touch).changes)
    decreases |latest|
  {
    if latest == [] {
    } else {
      var init, x := latest[..|latest| - 1], latest[|latest| - 1];
      assert latest == init + [x];
      FullChanges(p, init, existing, now, touch);
      FullDiffSnoc(p, init, x, existing, now, touch);
      FullStep(p, DiffAll(p, AllCandidates(p, init), existing, now, touch), CandidateOf(p, x), existing, now, touch);
    }
  }

  lemma FullStep(p: Poller, r: DiffResult, c: Candidate, existing: map<string, ItemRow>, now: int, touch: bool)
    ensures ChangedIds(r.changes) <= ChangedIds(DiffStep(p, r, c, existing, now, touch).changes)
    ensures Compare(p, c, existing) == IsUpdated ==>
              c.identity in ChangedIds(DiffStep(p, r, c, existing, now, touch).changes)
  {
    var r' := DiffStep(p, r, c, existing, now, touch);
    if r'.changes != r.changes {
      var d := r'.changes[|r.changes|];
      assert r'.changes == r.changes + [d] && d.identity == c.identity;
      ChangedSnoc(r.changes, d);
    }
  }

  /** One item: the skipped hash would have said "unchanged", and a touch rewrites the same columns. */
  lemma FastPathItem(
    p: Poller, fast: DiffResult, full: DiffResult, x: Item,
    existing: map<string, ItemRow>, stored: map<string, ItemRow>, now: int, touch: bool)
    requires fast.changes == full.changes
    requires Core(PutItems(stored, fast.upserts)) == Core(PutItems(stored, full.upserts))
    requires FastPath(p, x, existing) ==>
               var id := p.identity(x);
               && existing[id].hash == p.fingerprint(x)
               && id in PutItems(stored, full.upserts) && PutItems(stored, full.upserts)[id] == existing[id]
    ensures
      var fast' := ItemStep(p, fast, x, existing, now, touch);
      var full' := DiffStep(p, full, CandidateOf(p, x), existing, now, touch);
      && fast'.changes == full'.changes
      && Core(PutItems(stored, fast'.upserts)) == Core(PutItems(stored, full'.upserts))
      && (forall id :: id in PutItems(stored, full.upserts) && id != p.identity(x) ==>
            id in PutItems(stored, full'.upserts) && PutItems(stored, full'.upserts)[id] == PutItems(stored,
                full.upserts)[id])
  {
    var c := CandidateOf(p, x);
    var row := RowFor(p, c, now);
    var a, b := PutItems(stored, fast.upserts), PutItems(stored, full.upserts);
    DiffStepUpserts(p, full, c, existing, now, touch);
    if Rewrites(p, c, existing, touch) {
      PutItemsSnoc(stored, full.upserts, row);
      CorePut(b, row);
    }
    if FastPath(p, x, existing) {
      assert Compare(p, c, existing) == IsUnchanged;
      CoreSame(b, row);
    } else {
      DiffStepUpserts(p, fast, c, existing, now, touch);
      if Rewrites(p, c, existing, touch) {
        PutItemsSnoc(stored, fast.upserts, row);
        CorePut(a, row);
      }
    }
  }

  predicate Rewrites(p: Poller, c: Candidate, existing: map<string, ItemRow>, touch: bool) {
    Compare(p, c, existing) != IsUnchanged || touch || (c.identity in existing &&
        existing[c.identity].version != c.version)
  }

  lemma DiffStepUpserts(p: Poller, r: DiffResult, c: Candidate, existing: map<string, ItemRow>, now: int, touch: bool)
    ensures DiffStep(p, r, c, existing, now, touch).upserts ==
            if Rewrites(p, c, existing, touch) then r.upserts + [RowFor(p, c, now)] else r.upserts
  {
    assert r.upserts + [] == r.upserts;
  }

  lemma CoreSame(m: map<string, ItemRow>, row: ItemRow)
    requires row.identity in m
    requires m[row.identity].version == row.version && m[row.identity].hash == row.hash
    requires m[row.identity].schemaVersion == row.schemaVersion
    ensures Core(m)[row.identity := (row.version, row.hash, row.schemaVersion)] == Core(m)
  {
  }

  lemma CorePut(m: map<string, ItemRow>, row: ItemRow)
    ensures Core(m[row.identity := row]) == Core(m)[row.identity := (row.version, row.hash, row.schemaVersion)]
  {
  }

  lemma FullDiffSnoc(p: Poller, init: seq<Item>, x: Item, existing: map<string, ItemRow>, now: int, touch: bool)
    ensures DiffAll(p, AllCandidates(p, init + [x]), existing, now, touch) ==
            DiffStep(p, DiffAll(p, AllCandidates(p, init), existing, now, touch), CandidateOf(p, x), existing, now,
                     touch)
  {
    assert (init + [x])[..|init|] == init;
    var cs := AllCandidates(p, init);
    assert (cs + [CandidateOf(p, x)])[..|cs|] == cs;
  }

  lemma {:induction false} FastPathPrefix(
    p: Poller, latest: seq<Item>, existing: map<string, ItemRow>, stored: map<string, ItemRow>, now: int, touch: bool)
    requires VersionsTell(p, latest, existing) && Distinct(p, latest)
    requires ReadsFrom(existing, stored, Ids(p, latest))
    ensures
      var fast := PageDiff(p, latest, existing, now, touch);
      var full := DiffAll(p, AllCandidates(p, latest), existing, now, touch);
      && fast.changes == full.changes
      && Core(PutItems(stored, fast.upserts)) == Core(PutItems(stored, full.upserts))
      && (forall id :: id in stored && id !in Ids(p, latest) ==>
            id in PutItems(stored, full.upserts) && PutItems(stored, full.upserts)[id] == stored[id])
    decreases |latest|
  {
    if latest == [] { return; }
    var init, x := latest[..|latest| - 1], latest[|latest| - 1];
    assert latest == init + [x];
    IdsSnoc(p, init, x);
    DistinctSnoc(p, init, x);
    FastPathPrefix(p, init, existing, stored, now, touch);
    PageDiffSnoc(p, init, x, existing, now, touch);
    var cs := AllCandidates(p, init);
    FullDiffSnoc(p, init, x, existing, now, touch);
    assert x in latest && p.identity(x) in Ids(p, latest);
    FastPathItem(p, PageDiff(p, init, existing, now, touch), DiffAll(p, cs, existing, now, touch), x, existing, stored,
                 now, touch);
  }

  // ---- order ------------------------------------------------------------------------------------

  /** A repeated identity takes the place of its first occurrence, a new one comes last. */
  lemma LatestInPlace(p: Poller, items: seq<Item>, x: Item, k: nat)
    ensures
      var l, l' := Latest(p, items), Latest(p, items + [x]);
      && (k < |l| && p.identity(l[k]) == p.identity(x) ==> l' == l[k := x])
      && (p.identity(x) !in Ids(p, l) ==> l' == l + [x])
  {
    LatestIsDistinct(p, items);
    assert (items + [x])[..|items|] == items;
    var l := Latest(p, items);
    if Position(p, l, p.identity(x)) < |l| { assert l[Position(p, l, p.identity(x))] in l; }
  }

  /** What is known by its version is skipped, the others are candidates, all in listing order. */
  lemma {:induction false} SplitInOrder(p: Poller, a: seq<Item>, b: seq<Item>, existing: map<string, ItemRow>)
    ensures Candidates(p, a + b, existing) == Candidates(p, a, existing) + Candidates(p, b, existing)
    ensures Skipped(p, a + b, existing) == Skipped(p, a, existing) + Skipped(p, b, existing)
    decreases |b|
  {
    if b == [] {
      assert a + b == a;
    } else {
      assert (a + b)[..|a + b| - 1] == a + b[..|b| - 1] && (a + b)[|a + b| - 1] == b[|b| - 1];
      SplitInOrder(p, a, b[..|b| - 1], existing);
    }
  }

  lemma SplitOne(p: Poller, x: Item, existing: map<string, ItemRow>)
    ensures
      var known := p.version(x).Some? && p.identity(x) in existing &&
                   existing[p.identity(x)].version == p.version(x) &&
                   existing[p.identity(x)].schemaVersion == p.schemaVersion;
      && Skipped(p, [x], existing) == (if known then [p.identity(x)] else [])
      && Candidates(p, [x], existing) ==
         if known then [] else [Candidate(p.identity(x), x, p.version(x), p.fingerprint(x))]
  {
    assert [x][..0] == [];
  }

  function Joined(r: DiffResult, t: DiffResult): DiffResult {
    DiffResult(r.changes + t.changes, r.upserts + t.upserts, r.same + t.same, r.rebaselined + t.rebaselined)
  }

  /** Every list of the diff is in listing order: the diff of two parts is theirs, one after the other. */
  lemma {:induction false} DiffInOrder(p: Poller, a: seq<Candidate>, b: seq<Candidate>, existing: map<string, ItemRow>,
                                       now: int, touch: bool)
    ensures DiffAll(p, a + b, existing, now, touch) ==
            Joined(DiffAll(p, a, existing, now, touch), DiffAll(p, b, existing, now, touch))
    decreases |b|
  {
    if b == [] {
      assert a + b == a;
    } else {
      var init, x := b[..|b| - 1], b[|b| - 1];
      assert (a + b)[..|a + b| - 1] == a + init && (a + b)[|a + b| - 1] == x;
      DiffInOrder(p, a, init, existing, now, touch);
      StepJoins(p, DiffAll(p, a, existing, now, touch), DiffAll(p, init, existing, now, touch), x, existing, now,
                touch);
    }
  }

  lemma StepJoins(p: Poller, r: DiffResult, t: DiffResult, c: Candidate, existing: map<string, ItemRow>, now: int,
                  touch: bool)
    ensures DiffStep(p, Joined(r, t), c, existing, now, touch) == Joined(r, DiffStep(p, t, c, existing, now, touch))
  {
  }
}
