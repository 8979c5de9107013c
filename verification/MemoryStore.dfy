/** The in-memory store: one record per `(poller, partition)`, updated in place. Every method is
    proved equal to the operation on values in `Store`, including which records it creates. */
module MemoryStore {
  import opened Store

  datatype PKey = PKey(poller: string, partition: string)

  /** Every table of a record is keyed by its rows' own ids. */
  ghost predicate Keyed(rec: KeyRecord) {
    && (forall id :: id in rec.items ==> rec.items[id].identity == id)
    && (forall id :: id in rec.outbox ==> rec.outbox[id].eventId == id)
    && (forall id :: id in rec.parked ==> rec.parked[id].id == id)
  }

  /** `rows` are exactly the rows of `outbox` named by `ids`, each once, in sequence order. */
  ghost predicate SortedRows(outbox: map<string, OutboxRow>, ids: set<string>, rows: seq<OutboxRow>) {
    && ids <= outbox.Keys && |rows| == |ids|
    && (forall i :: 0 <= i < |rows| ==> rows[i].eventId in ids && outbox[rows[i].eventId] == rows[i])
    && (forall i, j :: 0 <= i < j < |rows| ==>
        rows[i].sequence <= rows[j].sequence && rows[i].eventId != rows[j].eventId)
    && (forall id :: id in ids ==> outbox[id] in rows)
  }

  lemma RowBefore(outbox: map<string, OutboxRow>, rows: seq<OutboxRow>, id: string, i: nat)
    requires SortedRows(outbox, PendingIds(outbox), rows) && id in PendingIds(outbox) && i < |rows|
    requires outbox[id].sequence < rows[i].sequence
    ensures exists j :: 0 <= j < i && rows[j] == outbox[id]
  {
    var j :| 0 <= j < |rows| && rows[j] == outbox[id];
    assert j < i;
  }

  lemma CutBefore(outbox: map<string, OutboxRow>, rows: seq<OutboxRow>, n: nat, id: string, i: nat)
    requires SortedRows(outbox, PendingIds(outbox), rows) && id in PendingIds(outbox) && i < n <= |rows|
    requires outbox[id].sequence < rows[i].sequence
    ensures exists j :: 0 <= j < i && rows[..n][j] == outbox[id]
  {
    RowBefore(outbox, rows, id, i);
    var j :| 0 <= j < i && rows[j] == outbox[id];
    assert rows[..n][j] == outbox[id];
  }

  lemma CutIsSorted(outbox: map<string, OutboxRow>, rows: seq<OutboxRow>, n: nat)
    requires SortedRows(outbox, PendingIds(outbox), rows) && n <= |rows|
    ensures forall i :: 0 <= i < n ==>
              rows[..n][i].eventId in PendingIds(outbox) && outbox[rows[..n][i].eventId] == rows[..n][i]
    ensures forall i, j :: 0 <= i < j < n ==>
              rows[..n][i].sequence <= rows[..n][j].sequence && rows[..n][i].eventId != rows[..n][j].eventId
  {
  }

  lemma SliceIsPending(outbox: map<string, OutboxRow>, limit: nat, rows: seq<OutboxRow>)
    requires SortedRows(outbox, PendingIds(outbox), rows)
    ensures IsPendingPrefix(outbox, limit, rows[..if |rows| <= limit then |rows| else limit])
  {
    var n := if |rows| <= limit then |rows| else limit;
    var cut := rows[..n];
    CutIsSorted(outbox, rows, n);
    forall id, i | id in PendingIds(outbox) && 0 <= i < |cut| && outbox[id].sequence < cut[i].sequence
      ensures exists j :: 0 <= j < i && cut[j] == outbox[id]
    {
      CutBefore(outbox, rows, n, id, i);
    }
  }

  function InsertAt(rows: seq<OutboxRow>, row: OutboxRow, p: nat): (r: seq<OutboxRow>)
    requires p <= |rows|
    ensures |r| == |rows| + 1
    ensures forall i :: 0 <= i < |r| ==> r[i] == if i < p then rows[i] else if i == p then row else rows[i - 1]
  {
    rows[..p] + [row] + rows[p..]
  }

  lemma InsertedHas(rows: seq<OutboxRow>, row: OutboxRow, p: nat, x: OutboxRow)
    requires p <= |rows| && (x == row || x in rows)
    ensures x in InsertAt(rows, row, p)
  {
    var r := InsertAt(rows, row, p);
    if x == row {
      assert r[p] == x;
    } else {
      var i :| 0 <= i < |rows| && rows[i] == x;
      assert r[if i < p then i else i + 1] == x;
    }
  }

  lemma InsertedHasAll(outbox: map<string, OutboxRow>, ids: set<string>, rows: seq<OutboxRow>, row: OutboxRow, p: nat)
    requires SortedRows(outbox, ids, rows) && row.eventId in outbox && outbox[row.eventId] == row && p <= |rows|
    ensures forall id :: id in ids + {row.eventId} ==> outbox[id] in InsertAt(rows, row, p)
  {
    forall id | id in ids + {row.eventId}
      ensures outbox[id] in InsertAt(rows, row, p)
    {
      InsertedHas(rows, row, p, outbox[id]);
    }
  }

  lemma InsertedIsSorted(outbox: map<string, OutboxRow>, ids: set<string>, rows: seq<OutboxRow>, row: OutboxRow,
                         p: nat, i: nat, j: nat)
    requires SortedRows(outbox, ids, rows) && row.eventId !in ids && p <= |rows| && i < j <= |rows|
    requires p > 0 ==> rows[p - 1].sequence <= row.sequence
    requires forall k :: p <= k < |rows| ==> rows[k].sequence > row.sequence
    ensures InsertAt(rows, row, p)[i].sequence <= InsertAt(rows, row, p)[j].sequence
    ensures InsertAt(rows, row, p)[i].eventId != InsertAt(rows, row, p)[j].eventId
  {
    if i == p {
      assert rows[j - 1].eventId in ids;
    } else if j == p {
      assert rows[i].eventId in ids && rows[i].sequence <= rows[p - 1].sequence;
    }
  }

  lemma InsertedRow(outbox: map<string, OutboxRow>, ids: set<string>, rows: seq<OutboxRow>, row: OutboxRow, p: nat,
                    i: nat)
    requires SortedRows(outbox, ids, rows) && row.eventId in outbox && outbox[row.eventId] == row && p <= |rows|
    requires i <= |rows|
    ensures InsertAt(rows, row, p)[i].eventId in ids + {row.eventId}
    ensures InsertAt(rows, row, p)[i].eventId in outbox
    ensures outbox[InsertAt(rows, row, p)[i].eventId] == InsertAt(rows, row, p)[i]
  {
  }

  lemma InsertedRows(outbox: map<string, OutboxRow>, ids: set<string>, rows: seq<OutboxRow>, row: OutboxRow, p: nat)
    requires SortedRows(outbox, ids, rows) && row.eventId in outbox && outbox[row.eventId] == row && p <= |rows|
    ensures
      var r := InsertAt(rows, row, p);
      forall i :: 0 <= i < |r| ==>
          r[i].eventId in ids + {row.eventId} && r[i].eventId in outbox && outbox[r[i].eventId] == r[i]
  {
    var r := InsertAt(rows, row, p);
    forall i | 0 <= i < |r|
      ensures r[i].eventId in ids + {row.eventId} && r[i].eventId in outbox && outbox[r[i].eventId] == r[i] {
      InsertedRow(outbox, ids, rows, row, p, i);
    }
  }

  lemma InsertedPairs(outbox: map<string, OutboxRow>, ids: set<string>, rows: seq<OutboxRow>, row: OutboxRow, p: nat)
    requires SortedRows(outbox, ids, rows) && row.eventId !in ids && p <= |rows|
    requires p > 0 ==> rows[p - 1].sequence <= row.sequence
    requires forall k :: p <= k < |rows| ==> rows[k].sequence > row.sequence
    ensures
      var r := InsertAt(rows, row, p);
      forall i, j :: 0 <= i < j < |r| ==> r[i].sequence <= r[j].sequence && r[i].eventId != r[j].eventId
  {
    var r := InsertAt(rows, row, p);
    forall i, j | 0 <= i < j < |r| ensures r[i].sequence <= r[j].sequence && r[i].eventId != r[j].eventId {
      InsertedIsSorted(outbox, ids, rows, row, p, i, j);
    }
  }

  lemma Inserted(outbox: map<string, OutboxRow>, ids: set<string>, rows: seq<OutboxRow>, row: OutboxRow, p: nat)
    requires SortedRows(outbox, ids, rows) && row.eventId in outbox && outbox[row.eventId] == row && row.eventId !in ids
    requires p <= |rows|
    requires p > 0 ==> rows[p - 1].sequence <= row.sequence
    requires forall k :: p <= k < |rows| ==> rows[k].sequence > row.sequence
    ensures SortedRows(outbox, ids + {row.eventId}, InsertAt(rows, row, p))
  {
    InsertedRows(outbox, ids, rows, row, p);
    InsertedPairs(outbox, ids, rows, row, p);
    InsertedHasAll(outbox, ids, rows, row, p);
  }

  /** One step of the sort: a row goes after every row of smaller or equal sequence. */
  method Insert(outbox: map<string, OutboxRow>, ids: set<string>, rows: seq<OutboxRow>,
                row: OutboxRow) returns (r: seq<OutboxRow>)
    requires SortedRows(outbox, ids, rows) && row.eventId in outbox && outbox[row.eventId] == row && row.eventId !in ids
    ensures SortedRows(outbox, ids + {row.eventId}, r)
  {
    var p := |rows|;
    while p > 0 && rows[p - 1].sequence > row.sequence
      invariant 0 <= p <= |rows|
      invariant forall j :: p <= j < |rows| ==> rows[j].sequence > row.sequence
    {
      p := p - 1;
    }
    r := InsertAt(rows, row, p);
    Inserted(outbox, ids, rows, row, p);
  }

  lemma RemovedSoFar<T>(m: map<string, T>, ids: seq<string>, i: nat)
    requires i < |ids|
    ensures m - Elems(ids[..i]) - {ids[i]} == m - Elems(ids[..i + 1])
  {
    assert Elems(ids[..i + 1]) == Elems(ids[..i]) + {ids[i]};
  }

  lemma AllRemoved<T>(m: map<string, T>, ids: seq<string>)
    ensures m - Elems(ids[..|ids|]) == m - Elems(ids) && m - Elems(ids[..0]) == m
  {
    assert ids[..|ids|] == ids;
  }

  lemma RemovedCount<T>(m: map<string, T>, id: string)
    ensures |m - {id}| == if id in m then |m| - 1 else |m|
  {
    assert (m - {id}).Keys == m.Keys - {id};
  }

  class MemoryStore {
    var records: map<PKey, KeyRecord>

    constructor ()
      ensures records == map[]
    {
      records := map[];
    }

    ghost predicate Valid()
      reads this
    {
      forall k :: k in records ==> Keyed(records[k])
    }

    /** A key never written reads as the empty record. */
    function Rec(key: PKey): KeyRecord
      reads this
    {
      if key in records then records[key] else EMPTY_RECORD
    }

    method AcquireLease(key: PKey, owner: string, ttl: int, now: int) returns (lease: Option<Lease>)
      requires Valid()
      modifies this
      ensures Valid() && records == old(records)[key := Store.AcquireLease(old(Rec(key)), owner, ttl, now)]
      ensures lease == if CanAcquire(old(Rec(key)), owner, now) then Rec(key).lease else None
    {
      var rec := Rec(key);
      records := records[key := rec];
      if rec.lease.Some? && rec.lease.value.expiresAt > now && rec.lease.value.owner != owner { return None; }
      lease := Some(Lease(owner, rec.epochCounter + 1, now + ttl));
      records := records[key := rec.(epochCounter := rec.epochCounter + 1, lease := lease)];
    }

    method RenewLease(key: PKey, lease: Lease, ttl: int, now: int) returns (ok: bool)
      requires Valid()
      modifies this
      ensures Valid() && records == old(records)[key := Store.RenewLease(old(Rec(key)), lease, ttl, now)]
      ensures ok == Fenced(old(Rec(key)), lease)
    {
      var rec := Rec(key);
      records := records[key := rec];
      ok := rec.lease.Some? && rec.lease.value.owner == lease.owner && rec.lease.value.epoch == lease.epoch;
      if ok { records := records[key := rec.(lease := Some(rec.lease.value.(expiresAt := now + ttl)))]; }
    }

    method ReleaseLease(key: PKey, lease: Lease)
      requires Valid()
      modifies this
      ensures Valid() && records == old(records)[key := Store.ReleaseLease(old(Rec(key)), lease)]
    {
      var rec := Rec(key);
      records := records[key := rec];
      if rec.lease.Some? && rec.lease.value.owner == lease.owner && rec.lease.value.epoch == lease.epoch {
        records := records[key := rec.(lease := None)];
      }
    }

    method SaveState(key: PKey, lease: Lease, patch: StatePatch) returns (ok: bool)
      requires Valid()
      modifies this
      ensures Valid() && ok == Fenced(old(Rec(key)), lease)
      ensures records == old(records)[key := if ok then ApplyPatch(old(Rec(key)), patch) else old(Rec(key))]
    {
      var rec := Rec(key);
      records := records[key := rec];
      ok := Fenced(rec, lease);
      if ok { records := records[key := ApplyPatch(rec, patch)]; }
    }

    method SaveStateUnfenced(key: PKey, patch: StatePatch)
      requires Valid()
      modifies this
      ensures Valid() && records == old(records)[key := ApplyPatch(old(Rec(key)), patch)]
    {
      records := records[key := ApplyPatch(Rec(key), patch)];
    }

    method DeleteKey(key: PKey)
      requires Valid()
      modifies this
      ensures Valid() && records == old(records) - {key} && Rec(key).epochCounter == 0
    {
      records := records - {key};
    }

    method ClearItems(key: PKey)
      requires Valid()
      modifies this
      ensures Valid() && records == if key in old(records) then
                old(records)[key := old(records)[key].(items := map[])] else old(records)
    {
      if key in records { records := records[key := records[key].(items := map[])]; }
    }

    method LoadVersions(key: PKey, identities: seq<string>) returns (out: map<string, ItemRow>)
      ensures out == Store.LoadVersions(Rec(key), Elems(identities))
    {
      out := map[];
      if key !in records { return; }
      var items := records[key].items;
      for i := 0 to |identities|
        invariant forall id :: id in out <==> id in identities[..i] && id in items
        invariant forall id :: id in out ==> out[id] == items[id]
      {
        if identities[i] in items { out := out[identities[i] := items[identities[i]]]; }
      }
      assert identities[..|identities|] == identities;
    }

    /** All or nothing: the new tables are built first, then swapped in together. */
    method CommitPoll(key: PKey, lease: Lease, batch: CommitBatch) returns (ok: bool)
      requires Valid()
      modifies this
      ensures Valid() && ok == Fenced(old(Rec(key)), lease)
      ensures records == old(records)[key := if ok then Store.CommitPoll(old(Rec(key)), batch) else old(Rec(key))]
    {
      var rec := Rec(key);
      records := records[key := rec];
      ok := Fenced(rec, lease);
      if !ok { return; }
      var items := NewItems(rec, batch);
      var outbox := NewOutbox(rec, batch);
      var parked := NewParked(rec, batch);
      records := records[key := ApplyPatch(rec, batch.statePatch).(items := items, outbox := outbox, parked := parked)];
    }

    static method NewItems(rec: KeyRecord, batch: CommitBatch) returns (items: map<string, ItemRow>)
      requires Keyed(rec)
      ensures items == PutItems(rec.items, batch.upserts) - Elems(batch.deletes)
      ensures forall id :: id in items ==> items[id].identity == id
    {
      items := rec.items;
      for i := 0 to |batch.upserts|
        invariant items == PutItems(rec.items, batch.upserts[..i])
      {
        items := items[batch.upserts[i].identity := batch.upserts[i]];
        assert batch.upserts[..i + 1][..i] == batch.upserts[..i];
      }
      assert batch.upserts[..|batch.upserts|] == batch.upserts;
      PutItemsIdentity(rec.items, batch.upserts);
      ghost var all := items;
      for i := 0 to |batch.deletes|
        invariant items == all - Elems(batch.deletes[..i])
      {
        items := items - {batch.deletes[i]};
        RemovedSoFar(all, batch.deletes, i);
      }
      AllRemoved(all, batch.deletes);
    }

    static method NewOutbox(rec: KeyRecord, batch: CommitBatch) returns (outbox: map<string, OutboxRow>)
      requires Keyed(rec)
      ensures outbox == PutOutbox(rec.outbox, batch.events)
      ensures forall id :: id in outbox ==> outbox[id].eventId == id
    {
      outbox := rec.outbox;
      for i := 0 to |batch.events|
        invariant outbox == PutOutbox(rec.outbox, batch.events[..i])
        invariant forall id :: id in outbox ==> outbox[id].eventId == id
      {
        outbox := outbox[batch.events[i].eventId := batch.events[i]];
        assert batch.events[..i + 1][..i] == batch.events[..i];
      }
      assert batch.events[..|batch.events|] == batch.events;
    }

    static method NewParked(rec: KeyRecord, batch: CommitBatch) returns (parked: map<string, ParkedRow>)
      requires Keyed(rec)
      ensures parked == PutParked(rec.parked, batch.parked)
      ensures forall id :: id in parked ==> parked[id].id == id
    {
      parked := rec.parked;
      for i := 0 to |batch.parked|
        invariant parked == PutParked(rec.parked, batch.parked[..i])
        invariant forall id :: id in parked ==> parked[id].id == id
      {
        parked := parked[batch.parked[i].id := batch.parked[i]];
        assert batch.parked[..i + 1][..i] == batch.parked[..i];
      }
      assert batch.parked[..|batch.parked|] == batch.parked;
    }

    /** Filter, sort by sequence, cut. */
    method LoadPending(key: PKey, limit: nat) returns (rows: seq<OutboxRow>)
      requires Valid()
      ensures IsPendingPrefix(Rec(key).outbox, limit, rows)
    {
      var outbox := Rec(key).outbox;
      var todo, taken := outbox.Keys, {};
      rows := [];
      while todo != {}
        invariant todo <= outbox.Keys && SortedRows(outbox, taken, rows)
        invariant taken == set id | id in outbox && id !in todo && outbox[id].status == Pending
        decreases |todo|
      {
        var id :| id in todo;
        todo := todo - {id};
        if outbox[id].status == Pending {
          rows := Insert(outbox, taken, rows, outbox[id]);
          taken := taken + {id};
        }
      }
      assert taken == PendingIds(outbox);
      SliceIsPending(outbox, limit, rows);
      rows := rows[..if |rows| <= limit then |rows| else limit];
    }

    method CountPending(key: PKey) returns (n: nat)
      ensures n == |PendingIds(Rec(key).outbox)|
    {
      var outbox := Rec(key).outbox;
      var todo := outbox.Keys;
      ghost var counted: set<string> := {};
      n := 0;
      while todo != {}
        invariant todo <= outbox.Keys && n == |counted|
        invariant counted == set id | id in outbox && id !in todo && outbox[id].status == Pending
        decreases |todo|
      {
        var id :| id in todo;
        todo := todo - {id};
        if outbox[id].status == Pending { n, counted := n + 1, counted + {id}; }
      }
      assert counted == PendingIds(outbox);
    }

    method AckEvents(key: PKey, lease: Lease, ids: seq<string>) returns (ok: bool)
      requires Valid()
      modifies this
      ensures Valid() && ok == Fenced(old(Rec(key)), lease)
      ensures records == old(records)[key := if ok then Store.AckEvents(old(Rec(key)), ids) else old(Rec(key))]
    {
      var rec := Rec(key);
      records := records[key := rec];
      ok := Fenced(rec, lease);
      if !ok { return; }
      AllRemoved(rec.outbox, ids);
      for i := 0 to |ids|
        invariant records == old(records)[key := rec.(outbox := rec.outbox - Elems(ids[..i]))]
      {
        RemovedSoFar(rec.outbox, ids, i);
        records := records[key := records[key].(outbox := records[key].outbox - {ids[i]})];
      }
    }

    method RecordAttempt(key: PKey, lease: Lease, id: string, error: Option<string>,
                         nextAttemptAt: Option<int>) returns (ok: bool)
      requires Valid()
      modifies this
      ensures Valid() && ok == Fenced(old(Rec(key)), lease)
      ensures records ==
          old(records)[key := if ok then Store.RecordAttempt(old(Rec(key)), id, error,
                                                             nextAttemptAt) else old(Rec(key))]
    {
      var rec := Rec(key);
      records := records[key := rec];
      ok := Fenced(rec, lease);
      if !ok || id !in rec.outbox { return; }
      var row := rec.outbox[id].(attempts := rec.outbox[id].attempts + 1, lastError := error,
                                 nextAttemptAt := nextAttemptAt);
      records := records[key := rec.(outbox := rec.outbox[id := row])];
    }

    method ParkEvent(key: PKey, lease: Lease, row: ParkedRow) returns (ok: bool)
      requires Valid()
      modifies this
      ensures Valid() && ok == Fenced(old(Rec(key)), lease)
      ensures records == old(records)[key := if ok then Store.ParkEvent(old(Rec(key)), row) else old(Rec(key))]
    {
      var rec := Rec(key);
      records := records[key := rec];
      ok := Fenced(rec, lease);
      if !ok { return; }
      rec := rec.(parked := rec.parked[row.id := row]);
      if row.event.Some? { rec := rec.(outbox := rec.outbox - {row.event.value.id}); }
      records := records[key := rec];
    }

    method RetryParked(key: PKey, ids: seq<string>) returns (n: nat)
      requires Valid()
      modifies this
      ensures Valid() && n == RetryCount(old(Rec(key)), ids) && Rec(key) == Store.RetryParked(old(Rec(key)), ids)
      ensures records.Keys == old(records).Keys
      ensures forall k :: k in records && k != key ==> records[k] == old(records)[k]
    {
      n := 0;
      if key !in records { NothingParked(ids); return; }
      ghost var rec := records[key];
      for i := 0 to |ids|
        invariant Valid() && records.Keys == old(records).Keys
        invariant (forall k :: k in records && k != key ==> records[k] == old(records)[k])
        invariant records[key] == Store.RetryParked(rec, ids[..i]) && n == RetryCount(rec, ids[..i])
      {
        assert ids[..i + 1][..i] == ids[..i];
        var now := records[key];
        if ids[i] in now.parked && now.parked[ids[i]].kind == Poison && now.parked[ids[i]].event.Some? {
          var row := now.parked[ids[i]];
          records := records[key := now.(outbox := now.outbox[row.event.value.id := FreshRow(row)],
                                         parked := now.parked - {ids[i]})];
          n := n + 1;
        }
      }
      assert ids[..|ids|] == ids;
    }

    method DiscardParked(key: PKey, ids: seq<string>) returns (n: nat)
      requires Valid()
      modifies this
      ensures Valid() && Rec(key) == Store.DiscardParked(old(Rec(key)), ids)
      ensures n == |old(Rec(key)).parked| - |Rec(key).parked|
      ensures records.Keys == old(records).Keys
      ensures forall k :: k in records && k != key ==> records[k] == old(records)[k]
    {
      if key !in records { return 0; }
      var left, m := Without(records[key].parked, ids);
      records := records[key := records[key].(parked := left)];
      n := m;
    }

    static method Without(parked: map<string, ParkedRow>, ids: seq<string>) returns (left: map<string, ParkedRow>,
        n: nat)
      ensures left == parked - Elems(ids) && n == |parked| - |left|
    {
      left, n := parked, 0;
      AllRemoved(parked, ids);
      for i := 0 to |ids|
        invariant left == parked - Elems(ids[..i]) && n == |parked| - |left|
      {
        RemovedSoFar(parked, ids, i);
        RemovedCount(left, ids[i]);
        if ids[i] in left { n := n + 1; }
        left := left - {ids[i]};
      }
    }

    method HeldKeys(key: PKey) returns (out: set<string>)
      ensures out == Store.HeldKeys(Rec(key))
    {
      var parked := Rec(key).parked;
      var todo := parked.Keys;
      out := {};
      while todo != {}
        invariant todo <= parked.Keys
        invariant out == set id | id in parked && id !in todo && parked[id].holdKey.Some? :: parked[id].holdKey.value
        decreases |todo|
      {
        var id :| id in todo;
        todo := todo - {id};
        if parked[id].holdKey.Some? { out := out + {parked[id].holdKey.value}; }
      }
    }
  }

  lemma {:induction false} NothingParked(ids: seq<string>)
    ensures RetryParked(EMPTY_RECORD, ids) == EMPTY_RECORD && RetryCount(EMPTY_RECORD, ids) == 0
  {
    if ids == [] {
    } else {
      NothingParked(ids[..|ids| - 1]);
    }
  }
}
