/** The persisted record of one `(poller, partition)` and every store operation on it, as functions
    on values. `MemoryStore.dfy` has the mutable store whose methods are proved equal to these. */
module Store {

  datatype Option<+T> = None | Some(value: T)

  /** Items are opaque: the poller's callbacks are the only way to look inside one. */
  datatype Item = Item(text: string)

  datatype EventType = Created | Updated | Deleted
  datatype Lane = Live | Reconcile | Backfill | Replay

  datatype Event = Event(id: string, kind: EventType, subject: string, lane: Lane, sequence: nat, data: Option<Item>)

  datatype Status = Pending | Delivered
  datatype OutboxRow = OutboxRow(
    eventId: string, sequence: nat, event: Event, status: Status,
    attempts: nat, nextAttemptAt: Option<int>, lastError: Option<string>, createdAt: int)

  datatype ParkedKind = Poison | Invalid
  datatype ParkedRow = ParkedRow(
    id: string, kind: ParkedKind, event: Option<Event>, attempts: nat, parkedAt: int, holdKey: Option<string>)

  datatype ItemRow = ItemRow(
    identity: string, version: Option<string>, hash: string, schemaVersion: int, payload: Option<Item>, seenAt: int)

  /** Keyset watermark `(value, tieBreak)`; both parts may be absent. */
  datatype Cursor = Cursor(value: Option<string>, tieBreak: Option<string>)

  datatype Lease = Lease(owner: string, epoch: nat, expiresAt: int)

  datatype PollerState = PollerState(
    lanes: map<Lane, Cursor>, paused: bool, schemaVersion: Option<int>, sequence: nat, createdAt: int, updatedAt: int)

  datatype StatePatch = StatePatch(
    lanes: Option<map<Lane, Cursor>>, paused: Option<bool>, schemaVersion: Option<int>,
    sequence: Option<nat>, updatedAt: Option<int>)

  datatype KeyRecord = KeyRecord(
    state: Option<PollerState>, lease: Option<Lease>, epochCounter: nat,
    items: map<string, ItemRow>, outbox: map<string, OutboxRow>, parked: map<string, ParkedRow>)

  datatype CommitBatch = CommitBatch(
    statePatch: StatePatch, upserts: seq<ItemRow>, deletes: seq<string>, events: seq<OutboxRow>, parked: seq<ParkedRow>)

  /** A fenced write is applied, or rejected with a lease-lost error. */
  datatype Outcome<+T> = Ok(value: T) | LeaseLost

  const EMPTY_RECORD := KeyRecord(None, None, 0, map[], map[], map[])

  function GetOr<T>(o: Option<T>, d: T): T { if o.Some? then o.value else d }

  // ---- lease ----------------------------------------------------------------------------------

  /** The fence every write goes through: same owner and same epoch; the expiry plays no part. */
  predicate Fenced(rec: KeyRecord, lease: Lease) {
    rec.lease.Some? && rec.lease.value.owner == lease.owner && rec.lease.value.epoch == lease.epoch
  }

  predicate CanAcquire(rec: KeyRecord, owner: string, now: int) {
    !(rec.lease.Some? && rec.lease.value.expiresAt > now && rec.lease.value.owner != owner)
  }

  function AcquireLease(rec: KeyRecord, owner: string, ttl: int, now: int): KeyRecord {
    if CanAcquire(rec, owner, now) then
      rec.(epochCounter := rec.epochCounter + 1, lease := Some(Lease(owner, rec.epochCounter + 1, now + ttl)))
    else rec
  }

  function RenewLease(rec: KeyRecord, lease: Lease, ttl: int, now: int): KeyRecord {
    if Fenced(rec, lease) then rec.(lease := Some(rec.lease.value.(expiresAt := now + ttl))) else rec
  }

  function ReleaseLease(rec: KeyRecord, lease: Lease): KeyRecord {
    if Fenced(rec, lease) then rec.(lease := None) else rec
  }

  // ---- state ----------------------------------------------------------------------------------

  function EmptyState(now: int): PollerState { PollerState(map[], false, None, 0, now, now) }

  function ApplyPatch(rec: KeyRecord, patch: StatePatch): KeyRecord {
    var base := GetOr(rec.state, EmptyState(GetOr(patch.updatedAt, 0)));
    rec.(state := Some(PollerState(
      GetOr(patch.lanes, base.lanes), GetOr(patch.paused, base.paused),
      if patch.schemaVersion.Some? then patch.schemaVersion else base.schemaVersion,
      GetOr(patch.sequence, base.sequence), base.createdAt, GetOr(patch.updatedAt, base.updatedAt))))
  }

  /** One patch with the effect of `a` and then `b`. */
  function Merge(a: StatePatch, b: StatePatch): StatePatch {
    StatePatch(
      if b.lanes.Some? then b.lanes else a.lanes, if b.paused.Some? then b.paused else a.paused,
      if b.schemaVersion.Some? then b.schemaVersion else a.schemaVersion,
      if b.sequence.Some? then b.sequence else a.sequence, if b.updatedAt.Some? then b.updatedAt else a.updatedAt)
  }

  /** The later patch wins field by field, and what neither names stays. */
  lemma LaterPatchWins(rec: KeyRecord, a: StatePatch, b: StatePatch)
    ensures ApplyPatch(ApplyPatch(rec, a), b) == ApplyPatch(ApplyPatch(rec, a), Merge(a, b))
    ensures rec.state.Some? ==> ApplyPatch(ApplyPatch(rec, a), b) == ApplyPatch(rec, Merge(a, b))
    ensures rec.state.None? ==> ApplyPatch(ApplyPatch(rec, a), b).state.value.createdAt == GetOr(a.updatedAt, 0)
  {
  }

  function Sequence(rec: KeyRecord): nat { if rec.state.Some? then rec.state.value.sequence else 0 }

  // ---- maps keyed by a row's own id, filled in list order -------------------------------------

  function PutItems(m: map<string, ItemRow>, rows: seq<ItemRow>): map<string, ItemRow> {
    if rows == [] then m
    else PutItems(m, rows[..|rows| - 1])[rows[|rows| - 1].identity := rows[|rows| - 1]]
  }

  function PutOutbox(m: map<string, OutboxRow>, rows: seq<OutboxRow>): map<string, OutboxRow> {
    if rows == [] then m
    else PutOutbox(m, rows[..|rows| - 1])[rows[|rows| - 1].eventId := rows[|rows| - 1]]
  }

  function PutParked(m: map<string, ParkedRow>, rows: seq<ParkedRow>): map<string, ParkedRow> {
    if rows == [] then m
    else PutParked(m, rows[..|rows| - 1])[rows[|rows| - 1].id := rows[|rows| - 1]]
  }

  function Elems<T>(xs: seq<T>): set<T> { set x | x in xs }

  // ---- commit ---------------------------------------------------------------------------------

  /** Cursor, snapshot delta, events and quarantined items in one step (after the fence). */
  function CommitPoll(rec: KeyRecord, batch: CommitBatch): KeyRecord {
    ApplyPatch(rec, batch.statePatch).(
      items := PutItems(rec.items, batch.upserts) - Elems(batch.deletes),
      outbox := PutOutbox(rec.outbox, batch.events),
      parked := PutParked(rec.parked, batch.parked))
  }

  function LoadVersions(rec: KeyRecord, ids: set<string>): map<string, ItemRow> {
    map id | id in ids && id in rec.items :: rec.items[id]
  }

  // ---- outbox ---------------------------------------------------------------------------------

  function AckEvents(rec: KeyRecord, ids: seq<string>): KeyRecord {
    rec.(outbox := rec.outbox - Elems(ids))
  }

  function RecordAttempt(rec: KeyRecord, id: string, error: Option<string>, nextAttemptAt: Option<int>): KeyRecord {
    if id !in rec.outbox then rec
    else
      var row := rec.outbox[id];
      rec.(outbox := rec.outbox[id := row.(attempts := row.attempts + 1, lastError := error,
                                           nextAttemptAt := nextAttemptAt)])
  }

  function ParkEvent(rec: KeyRecord, row: ParkedRow): KeyRecord {
    rec.(parked := rec.parked[row.id := row],
         outbox := if row.event.Some? then rec.outbox - {row.event.value.id} else rec.outbox)
  }

  predicate Retryable(rec: KeyRecord, id: string) {
    id in rec.parked && rec.parked[id].kind == Poison && rec.parked[id].event.Some?
  }

  function FreshRow(row: ParkedRow): OutboxRow
    requires row.event.Some?
  {
    OutboxRow(row.event.value.id, row.event.value.sequence, row.event.value, Pending, 0, None, None, row.parkedAt)
  }

  function RetryOne(rec: KeyRecord, id: string): KeyRecord {
    if !Retryable(rec, id) then rec
    else rec.(outbox := rec.outbox[rec.parked[id].event.value.id := FreshRow(rec.parked[id])],
              parked := rec.parked - {id})
  }

  function RetryParked(rec: KeyRecord, ids: seq<string>): KeyRecord {
    if ids == [] then rec else RetryOne(RetryParked(rec, ids[..|ids| - 1]), ids[|ids| - 1])
  }

  /** How many of `ids` the retry moves, in list order. */
  function RetryCount(rec: KeyRecord, ids: seq<string>): nat {
    if ids == [] then 0
    else RetryCount(rec, ids[..|ids| - 1]) +
         if Retryable(RetryParked(rec, ids[..|ids| - 1]), ids[|ids| - 1]) then 1 else 0
  }

  function DiscardParked(rec: KeyRecord, ids: seq<string>): KeyRecord {
    rec.(parked := rec.parked - Elems(ids))
  }

  function HeldKeys(rec: KeyRecord): set<string> {
    set id | id in rec.parked && rec.parked[id].holdKey.Some? :: rec.parked[id].holdKey.value
  }

  function PendingIds(outbox: map<string, OutboxRow>): set<string> {
    set id | id in outbox && outbox[id].status == Pending
  }

  /** `rows` is a legal reply of `loadPending(limit)`: the pending rows in sequence order, cut after
      `limit`. Rows of equal sequence may come in either order. */
  ghost predicate IsPendingPrefix(outbox: map<string, OutboxRow>, limit: nat, rows: seq<OutboxRow>) {
    && (forall i :: 0 <= i < |rows| ==> rows[i].eventId in PendingIds(outbox) && outbox[rows[i].eventId] == rows[i])
    && (forall i, j :: 0 <= i < j < |rows| ==>
        rows[i].sequence <= rows[j].sequence && rows[i].eventId != rows[j].eventId)
    && |rows| == (if |PendingIds(outbox)| <= limit then |PendingIds(outbox)| else limit)
    && (forall id, i :: id in PendingIds(outbox) && 0 <= i < |rows| && outbox[id].sequence < rows[i].sequence ==>
          exists j :: 0 <= j < i && rows[j] == outbox[id])
  }

  /** Every outbox row is filed under its own id, which is also its event's id. */
  ghost predicate OutboxKeyed(outbox: map<string, OutboxRow>) {
    forall id :: id in outbox ==>
      outbox[id].eventId == id && outbox[id].event.id == id && outbox[id].sequence == outbox[id].event.sequence
  }

  /** A patch of the state, fenced or not, commutes with every outbox operation: it disturbs no drain, and
      no drain disturbs it. */
  lemma PatchCommutes(rec: KeyRecord, patch: StatePatch, ids: seq<string>, id: string, error: Option<string>,
                      at: Option<int>, row: ParkedRow)
    ensures AckEvents(ApplyPatch(rec, patch), ids) == ApplyPatch(AckEvents(rec, ids), patch)
    ensures RecordAttempt(ApplyPatch(rec, patch), id, error, at) == ApplyPatch(RecordAttempt(rec, id, error, at), patch)
    ensures ParkEvent(ApplyPatch(rec, patch), row) == ApplyPatch(ParkEvent(rec, row), patch)
    ensures RetryParked(ApplyPatch(rec, patch), ids) == ApplyPatch(RetryParked(rec, ids), patch)
    ensures DiscardParked(ApplyPatch(rec, patch), ids) == ApplyPatch(DiscardParked(rec, ids), patch)
  {
    RetryCommutes(rec, patch, ids);
    assert ApplyPatch(AckEvents(rec, ids), patch).outbox == AckEvents(rec, ids).outbox;
    assert ApplyPatch(ParkEvent(rec, row), patch).parked == ParkEvent(rec, row).parked;
  }

  lemma {:induction false} RetryCommutes(rec: KeyRecord, patch: StatePatch, ids: seq<string>)
    ensures RetryParked(ApplyPatch(rec, patch), ids) == ApplyPatch(RetryParked(rec, ids), patch)
    ensures RetryParked(rec, ids).state == rec.state
  {
    if ids == [] {
    } else {
      RetryCommutes(rec, patch, ids[..|ids| - 1]);
    }
  }

  // ---- list facts -----------------------------------------------------------------------------

  lemma {:induction false} PutItemsAt(m: map<string, ItemRow>, rows: seq<ItemRow>, id: string)
    ensures (forall r :: r in rows ==> r.identity != id) ==> (id in PutItems(m, rows) <==> id in m)
    ensures (forall r :: r in rows ==> r.identity != id) && id in m ==> PutItems(m, rows)[id] == m[id]
    ensures (exists r :: r in rows && r.identity == id) ==> id in PutItems(m, rows) && PutItems(m, rows)[id] in rows
    ensures id in PutItems(m, rows) && PutItems(m, rows)[id] !in rows ==> id in m && PutItems(m, rows)[id] == m[id]
  {
    if rows == [] {
    } else {
      var init, last := rows[..|rows| - 1], rows[|rows| - 1];
      assert rows == init + [last];
      PutItemsAt(m, init, id);
    }
  }

  lemma {:induction false} PutItemsIdentity(m: map<string, ItemRow>, rows: seq<ItemRow>)
    requires forall id :: id in m ==> m[id].identity == id
    ensures forall id :: id in PutItems(m, rows) ==> PutItems(m, rows)[id].identity == id
  {
    if rows == [] {
    } else {
      PutItemsIdentity(m, rows[..|rows| - 1]);
    }
  }

  lemma {:induction false} PutOutboxAt(m: map<string, OutboxRow>, rows: seq<OutboxRow>, id: string)
    ensures (forall r :: r in rows ==> r.eventId != id) ==> (id in PutOutbox(m, rows) <==> id in m)
    ensures (forall r :: r in rows ==> r.eventId != id) && id in m ==> PutOutbox(m, rows)[id] == m[id]
    ensures (exists r :: r in rows && r.eventId == id) ==>
              id in PutOutbox(m, rows) && PutOutbox(m, rows)[id] in rows && PutOutbox(m, rows)[id].eventId == id
  {
    if rows == [] {
    } else {
      var init, last := rows[..|rows| - 1], rows[|rows| - 1];
      assert rows == init + [last];
      PutOutboxAt(m, init, id);
    }
  }

  lemma {:induction false} PutParkedAt(m: map<string, ParkedRow>, rows: seq<ParkedRow>, id: string)
    ensures (forall r :: r in rows ==> r.id != id) ==> (id in PutParked(m, rows) <==> id in m)
    ensures (forall r :: r in rows ==> r.id != id) && id in m ==> PutParked(m, rows)[id] == m[id]
    ensures (exists r :: r in rows && r.id == id) ==>
              id in PutParked(m, rows) && PutParked(m, rows)[id] in rows && PutParked(m, rows)[id].id == id
  {
    if rows == [] {
    } else {
      var init, last := rows[..|rows| - 1], rows[|rows| - 1];
      assert rows == init + [last];
      PutParkedAt(m, init, id);
    }
  }

  // ---- what each operation sets, read off the result ----------------------------------------------

  /** Once `owner` took the lease, anyone else can take it exactly from the moment it runs out; the owner itself
      at any time. Each taking raises the epoch by one. */
  lemma LeaseRunsOut(rec: KeyRecord, owner: string, ttl: int, now: int, other: string, t: int)
    requires CanAcquire(rec, owner, now) && other != owner
    ensures
      var rec' := AcquireLease(rec, owner, ttl, now);
      && (CanAcquire(rec', other, t) <==> t >= now + ttl) && CanAcquire(rec', owner, t)
      && rec'.epochCounter == rec.epochCounter + 1 && Fenced(rec', Lease(owner, rec.epochCounter + 1, t))
      && rec'.(lease := rec.lease, epochCounter := rec.epochCounter) == rec
  {
  }

  /** A refused taking changes nothing, and is refused exactly while another owner's lease runs. */
  lemma RefusedWhileItRuns(rec: KeyRecord, owner: string, ttl: int, now: int)
    ensures CanAcquire(rec, owner, now) <==>
              match rec.lease { case None => true case Some(l) => l.owner == owner || now >= l.expiresAt }
    ensures !CanAcquire(rec, owner, now) ==> AcquireLease(rec, owner, ttl, now) == rec
  {
  }

  /** A renewal counts anew from `now` under the same epoch, and only for the holder; a release frees the key for
      everyone at once and forgets no epoch. */
  lemma RenewalCountsAnew(rec: KeyRecord, lease: Lease, ttl: int, now: int, other: string, t: int)
    requires Fenced(rec, lease) && other != lease.owner
    ensures
      var rec' := RenewLease(rec, lease, ttl, now);
      && (CanAcquire(rec', other, t) <==> t >= now + ttl) && Fenced(rec', lease) && rec'.(lease := rec.lease) == rec
    ensures
      var rec' := ReleaseLease(rec, lease);
      && CanAcquire(rec', other, t) && CanAcquire(rec', lease.owner, t) && rec'.(lease := rec.lease) == rec
      && forall l :: !Fenced(rec', l)
  {
  }

  lemma OnlyTheHolder(rec: KeyRecord, lease: Lease, ttl: int, now: int)
    requires !Fenced(rec, lease)
    ensures RenewLease(rec, lease, ttl, now) == rec && ReleaseLease(rec, lease) == rec
  {
  }

  /** A patch sets the fields it names and keeps the others; a key without state starts from a running one, with
      nothing counted and no cursors. */
  lemma PatchSets(rec: KeyRecord, patch: StatePatch)
    ensures ApplyPatch(rec, patch).state.Some? && ApplyPatch(rec, patch).(state := rec.state) == rec
    ensures
      var s := ApplyPatch(rec, patch).state.value;
      && (patch.lanes.Some? ==> s.lanes == patch.lanes.value)
      && (patch.paused.Some? ==> s.paused == patch.paused.value)
      && (patch.schemaVersion.Some? ==> s.schemaVersion == patch.schemaVersion)
      && (patch.sequence.Some? ==> s.sequence == patch.sequence.value)
      && (patch.updatedAt.Some? ==> s.updatedAt == patch.updatedAt.value)
      && (patch.lanes.None? ==> if rec.state.Some? then s.lanes == rec.state.value.lanes else s.lanes == map[])
      && (patch.paused.None? ==> if rec.state.Some? then s.paused == rec.state.value.paused else !s.paused)
      && (patch.schemaVersion.None? ==>
            if rec.state.Some? then s.schemaVersion == rec.state.value.schemaVersion else s.schemaVersion.None?)
      && (patch.sequence.None? ==>
            if rec.state.Some? then s.sequence == rec.state.value.sequence else s.sequence == 0)
      && (patch.updatedAt.None? && rec.state.Some? ==> s.updatedAt == rec.state.value.updatedAt)
      && (rec.state.Some? ==> s.createdAt == rec.state.value.createdAt)
  {
  }

  /** After a commit: a deleted identity is gone, an upserted one has one of its upserts, the last one if given
      last, and every other one is as before; committed events and quarantined items are stored, others kept. */
  lemma CommitSets(rec: KeyRecord, batch: CommitBatch, id: string)
    ensures
      var rec', listed := CommitPoll(rec, batch), exists r :: r in batch.upserts && r.identity == id;
      && (id in batch.deletes ==> id !in rec'.items)
      && (id !in batch.deletes && listed ==> id in rec'.items && rec'.items[id] in batch.upserts)
      && (id !in batch.deletes && !listed ==>
            (id in rec'.items <==> id in rec.items) && (id in rec.items ==> rec'.items[id] == rec.items[id]))
    ensures
      var rec', n := CommitPoll(rec, batch), |batch.upserts|;
      n > 0 && batch.upserts[n - 1].identity == id && id !in batch.deletes ==>
        id in rec'.items && rec'.items[id] == batch.upserts[n - 1]
    ensures
      var rec', emitted := CommitPoll(rec, batch), exists r :: r in batch.events && r.eventId == id;
      && (emitted ==> id in rec'.outbox && rec'.outbox[id] in batch.events && rec'.outbox[id].eventId == id)
      && (!emitted ==> (id in rec'.outbox <==> id in rec.outbox) &&
                       (id in rec.outbox ==> rec'.outbox[id] == rec.outbox[id]))
    ensures
      var rec', parks := CommitPoll(rec, batch), exists r :: r in batch.parked && r.id == id;
      && (parks ==> id in rec'.parked && rec'.parked[id] in batch.parked && rec'.parked[id].id == id)
      && (!parks ==> (id in rec'.parked <==> id in rec.parked) &&
                     (id in rec.parked ==> rec'.parked[id] == rec.parked[id]))
    ensures CommitPoll(rec, batch).lease == rec.lease && CommitPoll(rec, batch).epochCounter == rec.epochCounter
  {
    PutItemsAt(rec.items, batch.upserts, id);
    PutOutboxAt(rec.outbox, batch.events, id);
    PutParkedAt(rec.parked, batch.parked, id);
  }

  /** A failed attempt, as it is recorded. */
  datatype Attempt = Attempt(error: Option<string>, nextAttemptAt: Option<int>)

  function RecordAll(rec: KeyRecord, id: string, tries: seq<Attempt>): KeyRecord {
    if tries == [] then rec
    else
      var last := tries[|tries| - 1];
      RecordAttempt(RecordAll(rec, id, tries[..|tries| - 1]), id, last.error, last.nextAttemptAt)
  }

  /** Failed attempts are counted one by one, and the newest error and retry time stay; nothing else changes, and
      an event that is no longer stored is left alone. */
  lemma {:induction false} AttemptsAdd(rec: KeyRecord, id: string, tries: seq<Attempt>)
    ensures id !in rec.outbox ==> RecordAll(rec, id, tries) == rec
    ensures id in rec.outbox ==>
              && id in RecordAll(rec, id, tries).outbox
              && var row, row' := rec.outbox[id], RecordAll(rec, id, tries).outbox[id];
              && row'.attempts == row.attempts + |tries|
              && (tries != [] ==> row'.lastError == tries[|tries| - 1].error &&
                                  row'.nextAttemptAt == tries[|tries| - 1].nextAttemptAt)
              && row'.(attempts := row.attempts, lastError := row.lastError, nextAttemptAt := row.nextAttemptAt) == row
    ensures RecordAll(rec, id, tries).(outbox := rec.outbox) == rec
    ensures RecordAll(rec, id, tries).outbox - {id} == rec.outbox - {id}
  {
    if tries == [] {
    } else {
      var init := tries[..|tries| - 1];
      AttemptsAdd(rec, id, init);
      if id in rec.outbox {
        var last := tries[|tries| - 1];
        assert RecordAttempt(RecordAll(rec, id, init), id, last.error, last.nextAttemptAt).outbox - {id} ==
               RecordAll(rec, id, init).outbox - {id};
      }
    }
  }

  /** A retried event is pending again under its id and sequence, unattempted and due at once, and no longer
      parked; nothing else changes. Quarantined items and unknown ids are not retried. */
  lemma RetryStartsOver(rec: KeyRecord, id: string)
    ensures RetryParked(rec, [id]) == RetryOne(rec, id)
    ensures !(id in rec.parked && rec.parked[id].kind == Poison && rec.parked[id].event.Some?) ==>
              RetryOne(rec, id) == rec
    ensures id in rec.parked && rec.parked[id].kind == Poison && rec.parked[id].event.Some? ==>
              var e, rec' := rec.parked[id].event.value, RetryOne(rec, id);
              && e.id in rec'.outbox && rec'.parked == rec.parked - {id} && rec'.outbox - {e.id} == rec.outbox - {e.id}
              && rec'.outbox[e.id].event == e && rec'.outbox[e.id].sequence == e.sequence
              && rec'.outbox[e.id].status == Pending && rec'.outbox[e.id].attempts == 0
              && rec'.outbox[e.id].nextAttemptAt.None? && rec'.outbox[e.id].lastError.None?
              && rec'.(outbox := rec.outbox, parked := rec.parked) == rec
  {
    assert [id][..0] == [] && RetryParked(rec, []) == rec;
  }

  /** Parking takes an event out of the outbox, discarding takes rows out of the parked ones, and a key is held
      exactly while a parked row holds it. */
  lemma ParkedRowsHold(rec: KeyRecord, row: ParkedRow, ids: seq<string>, k: string)
    ensures ParkEvent(rec, row).parked == rec.parked[row.id := row]
    ensures forall id :: id in ParkEvent(rec, row).outbox <==>
                           id in rec.outbox && !(row.event.Some? && row.event.value.id == id)
    ensures forall id :: id in DiscardParked(rec, ids).parked <==> id in rec.parked && id !in ids
    ensures forall id :: id in AckEvents(rec, ids).outbox <==> id in rec.outbox && id !in ids
    ensures k in HeldKeys(rec) <==> exists id :: id in rec.parked && rec.parked[id].holdKey == Some(k)
  {
  }
}
