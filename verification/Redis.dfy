/** The Redis layout of one record: the outbox split over a sorted set and three hashes, the held keys
    in a hash of their own, the lease in loose fields, the state one field at a time. Every script is
    proved to keep the layout and to do to the record it stands for what the memory store does. */
module Redis {
  import opened Store
  import Memory = MemoryStore

  /** Delivery data kept outside the stored row. */
  datatype AttemptInfo = AttemptInfo(lastError: Option<string>, nextAttemptAt: Option<int>)

  /** One top-level field of the poller state. */
  datatype Field = FLanes | FPaused | FSchema | FSequence | FCreated | FUpdated
  datatype Value =
    | VLanes(lanes: map<Lane, Cursor>) | VBool(flag: bool) | VSchema(schema: Option<int>) | VSeq(n: nat) | VTime(t: int)

  function Get<K, V>(m: map<K, V>, k: K): Option<V> { if k in m then Some(m[k]) else None }

  // ---- outbox: rows, counters and errors ------------------------------------------------------

  function Overlay(row: OutboxRow, extra: Option<nat>, info: Option<AttemptInfo>): OutboxRow {
    var counted := if extra.Some? then row.(attempts := row.attempts + extra.value) else row;
    if info.Some? then counted.(lastError := info.value.lastError, nextAttemptAt := info.value.nextAttemptAt)
      else counted
  }

  function AbsOutbox(rows: map<string, OutboxRow>, attempts: map<string, nat>,
                     errors: map<string, AttemptInfo>): map<string, OutboxRow> {
    map id | id in rows :: Overlay(rows[id], Get(attempts, id), Get(errors, id))
  }

  /** The sorted set holds exactly the pending ids, scored by sequence; counters and errors belong to rows. */
  ghost predicate OutboxLayout(zset: map<string, nat>, rows: map<string, OutboxRow>, attempts: map<string, nat>,
                               errors: map<string, AttemptInfo>) {
    && (forall id :: id in zset <==> id in rows && rows[id].status == Pending)
    && (forall id :: id in zset ==> zset[id] == rows[id].sequence)
    && (forall id :: id in rows ==> rows[id].eventId == id)
    && attempts.Keys <= rows.Keys && errors.Keys <= rows.Keys
  }

  lemma RowPut(zset: map<string, nat>, rows: map<string, OutboxRow>, attempts: map<string, nat>,
               errors: map<string, AttemptInfo>, row: OutboxRow)
    requires OutboxLayout(zset, rows, attempts, errors)
    ensures OutboxLayout(if row.status == Pending then zset[row.eventId := row.sequence] else zset - {row.eventId},
                         rows[row.eventId := row], attempts - {row.eventId}, errors - {row.eventId})
    ensures AbsOutbox(rows[row.eventId := row], attempts - {row.eventId}, errors - {row.eventId}) ==
              AbsOutbox(rows, attempts, errors)[row.eventId := row]
  {
  }

  lemma RowDropped(zset: map<string, nat>, rows: map<string, OutboxRow>, attempts: map<string, nat>,
                   errors: map<string, AttemptInfo>, id: string)
    requires OutboxLayout(zset, rows, attempts, errors)
    ensures OutboxLayout(zset - {id}, rows - {id}, attempts - {id}, errors - {id})
    ensures AbsOutbox(rows - {id}, attempts - {id}, errors - {id}) == AbsOutbox(rows, attempts, errors) - {id}
  {
  }

  /** One more failed attempt on a row. */
  function Bumped(row: OutboxRow, info: AttemptInfo): OutboxRow {
    row.(attempts := row.attempts + 1, lastError := info.lastError, nextAttemptAt := info.nextAttemptAt)
  }

  lemma RecordIsBump(rec: KeyRecord, id: string, info: AttemptInfo)
    ensures Store.RecordAttempt(rec, id, info.lastError, info.nextAttemptAt) ==
            if id in rec.outbox then rec.(outbox := rec.outbox[id := Bumped(rec.outbox[id], info)]) else rec
  {
  }

  lemma RowBumped(zset: map<string, nat>, rows: map<string, OutboxRow>, attempts: map<string, nat>,
                  errors: map<string, AttemptInfo>,
                  id: string, count: nat, info: AttemptInfo)
    requires OutboxLayout(zset, rows, attempts, errors) && id in rows && count == GetOr(Get(attempts, id), 0) + 1
    ensures OutboxLayout(zset, rows, attempts[id := count], errors[id := info])
    ensures
      AbsOutbox(rows, attempts[id := count], errors[id := info])
      == AbsOutbox(rows, attempts, errors)[id := Bumped(AbsOutbox(rows, attempts, errors)[id], info)]
  {
  }

  // ---- reading the sorted set -----------------------------------------------------------------

  lemma {:induction false} LeastExists(zset: map<string, nat>, ids: set<string>)
    requires ids <= zset.Keys && ids != {}
    ensures exists id :: id in ids && forall k :: k in ids ==> zset[id] <= zset[k]
    decreases ids
  {
    var one :| one in ids;
    if ids != {one} {
      LeastExists(zset, ids - {one});
      var id :| id in ids - {one} && forall k :: k in ids - {one} ==> zset[id] <= zset[k];
      if zset[one] < zset[id] {
        assert forall k :: k in ids ==> zset[one] <= zset[k];
      } else {
        assert forall k :: k in ids ==> zset[id] <= zset[k];
      }
    }
  }

  /** The rows found under `ids`, each overlaid with its counter and error; missing ones are skipped. */
  function Overlaid(ids: seq<string>, rows: map<string, OutboxRow>, attempts: map<string, nat>,
                    errors: map<string, AttemptInfo>): seq<OutboxRow> {
    if ids == [] then []
    else
      var id := ids[|ids| - 1];
      Overlaid(ids[..|ids| - 1], rows, attempts, errors)
      + if id in rows then [Overlay(rows[id], Get(attempts, id), Get(errors, id))] else []
  }

  method OverlayRows(ids: seq<string>, rows: map<string, OutboxRow>, attempts: map<string, nat>,
                     errors: map<string, AttemptInfo>) returns (out: seq<OutboxRow>)
    ensures out == Overlaid(ids, rows, attempts, errors)
  {
    out := [];
    for i := 0 to |ids|
      invariant out == Overlaid(ids[..i], rows, attempts, errors)
    {
      assert ids[..i + 1][..i] == ids[..i];
      if ids[i] !in rows { continue; }
      var row := rows[ids[i]];
      if ids[i] in attempts { row := row.(attempts := row.attempts + attempts[ids[i]]); }
      if ids[i] in errors {
        row := row.(lastError := errors[ids[i]].lastError, nextAttemptAt := errors[ids[i]].nextAttemptAt);
      }
      out := out + [row];
    }
    assert ids[..|ids|] == ids;
  }

  lemma {:induction false} NoneMissing(ids: seq<string>, rows: map<string, OutboxRow>, attempts: map<string, nat>,
                                       errors: map<string, AttemptInfo>)
    requires forall id :: id in ids ==> id in rows
    ensures
      var out := Overlaid(ids, rows, attempts, errors);
      |out| == |ids| && forall j :: 0 <= j < |ids| ==>
          ids[j] in rows && out[j] == AbsOutbox(rows, attempts, errors)[ids[j]]
  {
    if ids == [] {
    } else {
      assert ids == ids[..|ids| - 1] + [ids[|ids| - 1]];
      NoneMissing(ids[..|ids| - 1], rows, attempts, errors);
    }
  }

  /** `out` are the rows of the ids in `ids` that are still in `rows`: each with the event and sequence it
      had when the ids were read, in their order, each id once. */
  ghost predicate StillStored(ids: seq<string>, before: map<string, OutboxRow>, rows: map<string, OutboxRow>,
                              out: seq<OutboxRow>) {
    && (forall r :: r in out ==>
          && r.eventId in ids && r.eventId in before && r.eventId in rows
          && r.event == before[r.eventId].event && r.sequence == before[r.eventId].sequence)
    && (forall id :: id in ids && id in rows ==> exists r :: r in out && r.eventId == id)
    && (forall i, j :: 0 <= i < j < |out| ==> out[i].sequence <= out[j].sequence && out[i].eventId != out[j].eventId)
  }

  /** The four reads at different times, with any acks, parks, attempts and discards in between, as long as
      no listed id is written anew: the reply drops exactly the rows that are gone when the rows are read.
      Counters and errors may be of different moments. */
  lemma {:induction false} SplitRead(ids: seq<string>, before: map<string, OutboxRow>, rows: map<string, OutboxRow>,
                                     attempts: map<string, nat>, errors: map<string, AttemptInfo>)
    requires forall id :: id in ids ==> id in before && before[id].eventId == id
    requires forall id :: id in ids && id in rows ==> rows[id] == before[id]
    requires forall i, j :: 0 <= i < j < |ids| ==>
               ids[i] != ids[j] && before[ids[i]].sequence <= before[ids[j]].sequence
    ensures StillStored(ids, before, rows, Overlaid(ids, rows, attempts, errors))
    decreases |ids|
  {
    if ids == [] {
    } else {
      var init, id := ids[..|ids| - 1], ids[|ids| - 1];
      assert ids == init + [id];
      assert forall x :: x in init ==> x in ids;
      SplitRead(init, before, rows, attempts, errors);
      SplitMore(init, id, before, rows, Overlaid(init, rows, attempts, errors), Overlaid(ids, rows, attempts, errors));
    }
  }

  lemma SplitMore(init: seq<string>, id: string, before: map<string, OutboxRow>, rows: map<string, OutboxRow>,
                  out: seq<OutboxRow>, out': seq<OutboxRow>)
    requires StillStored(init, before, rows, out) && id in before && before[id].eventId == id && id !in init
    requires forall x :: x in init ==> x in before && before[x].sequence <= before[id].sequence
    requires id in rows ==>
               && rows[id] == before[id] && |out'| == |out| + 1 && out'[..|out|] == out && out'[|out|].eventId == id
               && out'[|out|].event == before[id].event && out'[|out|].sequence == before[id].sequence
    requires id !in rows ==> out' == out
    ensures StillStored(init + [id], before, rows, out')
  {
    if id in rows {
      assert out' == out + [out'[|out|]];
      forall x | x in init + [id] && x in rows ensures exists r :: r in out' && r.eventId == x {
        if x == id {
          assert out'[|out|] in out';
        } else {
          assert x in init;
          var r :| r in out && r.eventId == x;
          assert r in out';
        }
      }
      forall i, j | 0 <= i < j < |out'|
        ensures out'[i].sequence <= out'[j].sequence && out'[i].eventId != out'[j].eventId {
        assert out'[i] == out[i] && out[i] in out;
      }
    }
  }

  /** `ids` are the first of the sorted set; equal scores may come in any order. */
  ghost predicate IsRange(zset: map<string, nat>, left: set<string>, ids: seq<string>) {
    && (forall i :: 0 <= i < |ids| ==> ids[i] in zset && ids[i] !in left)
    && (forall i, j :: 0 <= i < j < |ids| ==> ids[i] != ids[j] && zset[ids[i]] <= zset[ids[j]])
    && left <= zset.Keys && |ids| + |left| == |zset|
    && (forall k :: k in zset && k !in left ==> k in ids)
    && (forall k, i :: k in left && 0 <= i < |ids| ==> zset[ids[i]] <= zset[k])
  }

  method RangeByScore(zset: map<string, nat>, limit: nat) returns (ids: seq<string>, ghost left: set<string>)
    ensures IsRange(zset, left, ids) && |ids| == if |zset| <= limit then |zset| else limit
  {
    ids := [];
    var todo := zset.Keys;
    while |ids| < limit && todo != {}
      invariant IsRange(zset, todo, ids) && |ids| <= limit
      decreases |todo|
    {
      LeastExists(zset, todo);
      var id :| id in todo && forall k :: k in todo ==> zset[id] <= zset[k];
      RangeGrows(zset, todo, ids, id);
      ids, todo := ids + [id], todo - {id};
    }
    left := todo;
  }

  lemma RangeGrows(zset: map<string, nat>, left: set<string>, ids: seq<string>, id: string)
    requires IsRange(zset, left, ids) && id in left && forall k :: k in left ==> zset[id] <= zset[k]
    ensures IsRange(zset, left - {id}, ids + [id])
  {
  }

  /** The sorted set indexes the pending rows of `outbox` by sequence. */
  ghost predicate Indexes(zset: map<string, nat>, outbox: map<string, OutboxRow>) {
    && PendingIds(outbox) == zset.Keys
    && (forall id :: id in zset ==> id in outbox && outbox[id].sequence == zset[id] && outbox[id].eventId == id)
  }

  lemma LayoutIndexes(zset: map<string, nat>, rows: map<string, OutboxRow>, attempts: map<string, nat>,
                      errors: map<string, AttemptInfo>)
    requires OutboxLayout(zset, rows, attempts, errors)
    ensures Indexes(zset, AbsOutbox(rows, attempts, errors))
  {
  }

  lemma EarlierInRange(zset: map<string, nat>, outbox: map<string, OutboxRow>, left: set<string>, ids: seq<string>,
                       out: seq<OutboxRow>, id: string, i: nat)
    requires Indexes(zset, outbox) && IsRange(zset, left, ids) && id in zset && i < |ids| && zset[id] < zset[ids[i]]
    requires |out| == |ids| && forall k :: 0 <= k < |ids| ==> out[k] == outbox[ids[k]]
    ensures exists j :: 0 <= j < i && out[j] == outbox[id]
  {
    assert id !in left;
    var j :| 0 <= j < |ids| && ids[j] == id;
    assert out[j] == outbox[id] && j < i;
  }

  /** A range of the sorted set, read through the hashes, is a legal reply of `loadPending`. */
  lemma RangeIsPending(zset: map<string, nat>, outbox: map<string, OutboxRow>, left: set<string>, ids: seq<string>,
                       limit: nat, out: seq<OutboxRow>)
    requires Indexes(zset, outbox) && IsRange(zset, left, ids) && |ids| == if |zset| <= limit then |zset| else limit
    requires |out| == |ids| && forall i :: 0 <= i < |ids| ==> out[i] == outbox[ids[i]]
    ensures IsPendingPrefix(outbox, limit, out)
  {
    assert forall i :: 0 <= i < |ids| ==> ids[i] in zset && out[i].eventId == ids[i] && out[i].sequence == zset[ids[i]];
    forall id, i | id in PendingIds(outbox) && 0 <= i < |out| && outbox[id].sequence < out[i].sequence
      ensures exists j :: 0 <= j < i && out[j] == outbox[id]
    {
      EarlierInRange(zset, outbox, left, ids, out, id, i);
    }
  }

  /** When no two pending events share a sequence, there is only one legal reply: both stores agree. */
  lemma {:induction false} RepliesAgree(outbox: map<string, OutboxRow>, limit: nat, a: seq<OutboxRow>,
                                        b: seq<OutboxRow>, n: nat)
    requires IsPendingPrefix(outbox, limit, a) && IsPendingPrefix(outbox, limit, b) && n <= |a|
    requires forall x, y ::
               x in PendingIds(outbox) && y in PendingIds(outbox) && outbox[x].sequence == outbox[y].sequence ==> x == y
    ensures |a| == |b| && a[..n] == b[..n]
  {
    if n == 0 {
    } else {
      RepliesAgree(outbox, limit, a, b, n - 1);
      SameNext(outbox, limit, a, b, n - 1);
      assert a[..n] == a[..n - 1] + [a[n - 1]] && b[..n] == b[..n - 1] + [b[n - 1]];
    }
  }

  lemma SameNext(outbox: map<string, OutboxRow>, limit: nat, a: seq<OutboxRow>, b: seq<OutboxRow>, i: nat)
    requires IsPendingPrefix(outbox, limit, a) && IsPendingPrefix(outbox, limit, b) && i < |a| && i < |b|
    requires a[..i] == b[..i]
    requires forall x, y ::
               x in PendingIds(outbox) && y in PendingIds(outbox) && outbox[x].sequence == outbox[y].sequence ==> x == y
    ensures a[i] == b[i]
  {
    NotBefore(outbox, limit, a, b, i);
    NotBefore(outbox, limit, b, a, i);
    assert a[i].eventId in PendingIds(outbox) && b[i].eventId in PendingIds(outbox);
  }

  lemma NotBefore(outbox: map<string, OutboxRow>, limit: nat, a: seq<OutboxRow>, b: seq<OutboxRow>, i: nat)
    requires IsPendingPrefix(outbox, limit, a) && IsPendingPrefix(outbox, limit, b) && i < |a| && i < |b|
    requires a[..i] == b[..i]
    ensures a[i].sequence <= b[i].sequence
  {
    var id := b[i].eventId;
    assert id in PendingIds(outbox) && outbox[id] == b[i];
    assert forall j :: 0 <= j < i ==> a[j] == a[..i][j] && a[j] == b[j] && b[j].eventId != id;
  }

  // ---- parked rows and holds ------------------------------------------------------------------

  /** The hold hash is the projection of the parked rows that hold a key. */
  ghost predicate HoldLayout(parked: map<string, ParkedRow>, hold: map<string, string>) {
    && (forall id :: id in hold <==> id in parked && parked[id].holdKey.Some?)
    && (forall id :: id in hold ==> parked[id].holdKey == Some(hold[id]))
  }

  function PutHold(hold: map<string, string>, row: ParkedRow): map<string, string> {
    if row.holdKey.Some? then hold[row.id := row.holdKey.value] else hold - {row.id}
  }

  lemma HoldPut(parked: map<string, ParkedRow>, hold: map<string, string>, row: ParkedRow)
    requires HoldLayout(parked, hold)
    ensures HoldLayout(parked[row.id := row], PutHold(hold, row))
  {
  }

  lemma HoldDropped(parked: map<string, ParkedRow>, hold: map<string, string>, ids: set<string>)
    requires HoldLayout(parked, hold)
    ensures HoldLayout(parked - ids, hold - ids)
  {
  }

  // ---- the two phases of a retry --------------------------------------------------------------

  /** What the client reads and passes to the script: the parked id and its fresh outbox row. */
  datatype RetryArg = RetryArg(id: string, row: OutboxRow)

  function RetryArgs(rec: KeyRecord, ids: seq<string>): seq<RetryArg> {
    if ids == [] then []
    else
      var id := ids[|ids| - 1];
      RetryArgs(rec, ids[..|ids| - 1]) + if Retryable(rec, id) then [RetryArg(id, FreshRow(rec.parked[id]))] else []
  }

  /** What the script does with them: every row still parked moves. */
  function RunArgs(rec: KeyRecord, args: seq<RetryArg>): KeyRecord {
    if args == [] then rec
    else
      var init, last := RunArgs(rec, args[..|args| - 1]), args[|args| - 1];
      if last.id !in init.parked then init
      else init.(outbox := init.outbox[last.row.eventId := last.row], parked := init.parked - {last.id})
  }

  function MovedArgs(rec: KeyRecord, args: seq<RetryArg>): nat {
    if args == [] then 0
    else MovedArgs(rec, args[..|args| - 1]) + if args[|args| - 1].id in RunArgs(rec, args[..|args| - 1]).parked then 1
      else 0
  }

  /** With nothing in between, the two phases together are the memory store's retry. */
  lemma {:induction false} TwoPhasesAreOne(rec: KeyRecord, ids: seq<string>)
    ensures RunArgs(rec, RetryArgs(rec, ids)) == RetryParked(rec, ids)
    ensures MovedArgs(rec, RetryArgs(rec, ids)) == RetryCount(rec, ids)
    ensures forall id :: id in RetryParked(rec, ids).parked ==>
              id in rec.parked && RetryParked(rec, ids).parked[id] == rec.parked[id]
  {
    if ids == [] {
    } else {
      var init, id := ids[..|ids| - 1], ids[|ids| - 1];
      TwoPhasesAreOne(rec, init);
      var args := RetryArgs(rec, init);
      if Retryable(rec, id) {
        var more := args + [RetryArg(id, FreshRow(rec.parked[id]))];
        assert more[..|more| - 1] == args && RetryArgs(rec, ids) == more;
      } else {
        assert RetryArgs(rec, ids) == args;
      }
    }
  }

  // ---- the state hash -------------------------------------------------------------------------

  /** All fields are there, each with a value of its kind. */
  predicate Complete(h: map<Field, Value>) {
    && FLanes in h && FPaused in h && FSchema in h && FSequence in h && FCreated in h && FUpdated in h
    && h[FLanes].VLanes? && h[FPaused].VBool? && h[FSchema].VSchema? && h[FSequence].VSeq? && h[FCreated].VTime? &&
        h[FUpdated].VTime?
  }

  predicate StateLayout(h: map<Field, Value>) { h == map[] || Complete(h) }

  function StateOf(h: map<Field, Value>): PollerState
    requires Complete(h)
  {
    PollerState(h[FLanes].lanes, h[FPaused].flag, h[FSchema].schema, h[FSequence].n, h[FCreated].t, h[FUpdated].t)
  }

  function AbsState(h: map<Field, Value>): Option<PollerState>
    requires StateLayout(h)
  {
    if h == map[] then None else Some(StateOf(h))
  }

  function LanesArg(p: StatePatch): seq<(Field, Value)> {
    if p.lanes.Some? then [(FLanes, VLanes(p.lanes.value))] else []
  }
  function PausedArg(p: StatePatch): seq<(Field, Value)> {
    if p.paused.Some? then [(FPaused, VBool(p.paused.value))] else []
  }
  function SchemaArg(p: StatePatch): seq<(Field, Value)> {
    if p.schemaVersion.Some? then [(FSchema, VSchema(p.schemaVersion))] else []
  }
  function SequenceArg(p: StatePatch): seq<(Field, Value)> {
    if p.sequence.Some? then [(FSequence, VSeq(p.sequence.value))] else []
  }
  function UpdatedArg(p: StatePatch): seq<(Field, Value)> {
    if p.updatedAt.Some? then [(FUpdated, VTime(p.updatedAt.value))] else []
  }

  /** The fields a patch sets. */
  function PatchArgs(p: StatePatch): seq<(Field, Value)> {
    LanesArg(p) + PausedArg(p) + SchemaArg(p) + SequenceArg(p) + UpdatedArg(p)
  }

  function SetFields(h: map<Field, Value>, args: seq<(Field, Value)>): map<Field, Value> {
    if args == [] then h
    else
      var init, last := SetFields(h, args[..|args| - 1]), args[|args| - 1];
      if last.0 == FCreated then init else init[last.0 := last.1]
  }

  function ZeroState(now: int): map<Field, Value> {
    map[FLanes := VLanes(map[]), FPaused := VBool(false), FSchema := VSchema(None), FSequence := VSeq(0),
        FCreated := VTime(now), FUpdated := VTime(now)]
  }

  function ApplyState(h: map<Field, Value>, p: StatePatch): map<Field, Value> {
    SetFields(if h == map[] then ZeroState(GetOr(p.updatedAt, 0)) else h, PatchArgs(p))
  }

  lemma {:induction false} SetFieldsThen(h: map<Field, Value>, a: seq<(Field, Value)>, b: seq<(Field, Value)>)
    ensures SetFields(h, a + b) == SetFields(SetFields(h, a), b)
    decreases |b|
  {
    if b == [] {
      assert a + b == a;
    } else {
      assert (a + b)[..|a + b| - 1] == a + b[..|b| - 1];
      SetFieldsThen(h, a, b[..|b| - 1]);
    }
  }

  lemma OneField(h: map<Field, Value>, f: Field, v: Value)
    requires f != FCreated
    ensures SetFields(h, [(f, v)]) == h[f := v] && SetFields(h, []) == h
  {
    assert [(f, v)][..0] == [];
  }

  function Patched(s: PollerState, p: StatePatch): PollerState {
    PollerState(GetOr(p.lanes, s.lanes), GetOr(p.paused, s.paused),
                if p.schemaVersion.Some? then p.schemaVersion else s.schemaVersion,
                GetOr(p.sequence, s.sequence), s.createdAt, GetOr(p.updatedAt, s.updatedAt))
  }

  lemma SetsOne(h: map<Field, Value>, f: Field, v: Option<Value>, args: seq<(Field, Value)>)
    requires f != FCreated && args == if v.Some? then [(f, v.value)] else []
    ensures SetFields(h, args) == if v.Some? then h[f := v.value] else h
  {
    if v.Some? { OneField(h, f, v.value); } else { OneField(h, f, VBool(true)); }
  }

  lemma FirstThree(h: map<Field, Value>, p: StatePatch)
    requires Complete(h)
    ensures
      var h' := SetFields(SetFields(SetFields(h, LanesArg(p)), PausedArg(p)), SchemaArg(p));
      && Complete(h')
      && StateOf(h') == StateOf(h).(lanes := GetOr(p.lanes, h[FLanes].lanes),
                                    paused := GetOr(p.paused, h[FPaused].flag),
                                    schemaVersion := if p.schemaVersion.Some? then p.schemaVersion
                                      else h[FSchema].schema)
  {
    SetsOne(h, FLanes, if p.lanes.Some? then Some(VLanes(p.lanes.value)) else None, LanesArg(p));
    var h1 := SetFields(h, LanesArg(p));
    SetsOne(h1, FPaused, if p.paused.Some? then Some(VBool(p.paused.value)) else None, PausedArg(p));
    var h2 := SetFields(h1, PausedArg(p));
    SetsOne(h2, FSchema, if p.schemaVersion.Some? then Some(VSchema(p.schemaVersion)) else None, SchemaArg(p));
  }

  lemma LastTwo(h: map<Field, Value>, p: StatePatch)
    requires Complete(h)
    ensures
      var h' := SetFields(SetFields(h, SequenceArg(p)), UpdatedArg(p));
      && Complete(h')
      && StateOf(h') == StateOf(h).(sequence := GetOr(p.sequence, h[FSequence].n),
                                    updatedAt := GetOr(p.updatedAt, h[FUpdated].t))
  {
    SetsOne(h, FSequence, if p.sequence.Some? then Some(VSeq(p.sequence.value)) else None, SequenceArg(p));
    var h1 := SetFields(h, SequenceArg(p));
    SetsOne(h1, FUpdated, if p.updatedAt.Some? then Some(VTime(p.updatedAt.value)) else None, UpdatedArg(p));
  }

  lemma PatchIsApplied(h: map<Field, Value>, p: StatePatch)
    requires Complete(h)
    ensures Complete(SetFields(h, PatchArgs(p))) && StateOf(SetFields(h, PatchArgs(p))) == Patched(StateOf(h), p)
  {
    SetFieldsThen(h, LanesArg(p) + PausedArg(p) + SchemaArg(p) + SequenceArg(p), UpdatedArg(p));
    SetFieldsThen(h, LanesArg(p) + PausedArg(p) + SchemaArg(p), SequenceArg(p));
    SetFieldsThen(h, LanesArg(p) + PausedArg(p), SchemaArg(p));
    SetFieldsThen(h, LanesArg(p), PausedArg(p));
    FirstThree(h, p);
    LastTwo(SetFields(SetFields(SetFields(h, LanesArg(p)), PausedArg(p)), SchemaArg(p)), p);
  }

  lemma StateIsApplied(h: map<Field, Value>, p: StatePatch)
    requires StateLayout(h)
    ensures StateLayout(ApplyState(h, p))
    ensures AbsState(ApplyState(h, p)) == ApplyPatch(EMPTY_RECORD.(state := AbsState(h)), p).state
  {
    PatchIsApplied(if h == map[] then ZeroState(GetOr(p.updatedAt, 0)) else h, p);
  }

  // ---- one record -----------------------------------------------------------------------------

  class RedisRecord {
    var leaseOwner: Option<string>
    var leaseEpoch: Option<nat>
    var leaseExpiresAt: Option<int>
    var epochCounter: nat
    var state: map<Field, Value>
    var items: map<string, ItemRow>
    var zset: map<string, nat>
    var rows: map<string, OutboxRow>
    var attempts: map<string, nat>
    var errors: map<string, AttemptInfo>
    var parked: map<string, ParkedRow>
    var hold: map<string, string>

    constructor ()
      ensures Layout() && Abs() == EMPTY_RECORD
    {
      leaseOwner, leaseEpoch, leaseExpiresAt, epochCounter, state, items := None, None, None, 0, map[], map[];
      zset, rows, attempts, errors, parked, hold := map[], map[], map[], map[], map[], map[];
    }

    ghost predicate Layout()
      reads this
    {
      && leaseOwner.Some? == leaseEpoch.Some? == leaseExpiresAt.Some?
      && StateLayout(state)
      && OutboxLayout(zset, rows, attempts, errors)
      && HoldLayout(parked, hold)
    }

    function AbsLease(): Option<Lease>
      reads this
    {
      if leaseOwner.None? then None else Some(Lease(leaseOwner.value, GetOr(leaseEpoch, 0), GetOr(leaseExpiresAt, 0)))
    }

    /** The record the layout stands for. */
    ghost function Abs(): KeyRecord
      reads this
      requires Layout()
    {
      KeyRecord(AbsState(state), AbsLease(), epochCounter, items, AbsOutbox(rows, attempts, errors), parked)
    }

    predicate IsFenced(lease: Lease)
      reads this
    {
      leaseOwner == Some(lease.owner) && leaseEpoch == Some(lease.epoch)
    }

    method AcquireLease(owner: string, ttl: int, now: int) returns (epoch: Option<nat>)
      requires Layout()
      modifies this`leaseOwner, this`leaseEpoch, this`leaseExpiresAt, this`epochCounter
      ensures Layout() && Abs() == Store.AcquireLease(old(Abs()), owner, ttl, now)
      ensures epoch == if CanAcquire(old(Abs()), owner, now) then Some(Abs().epochCounter) else None
    {
      if leaseOwner.Some? && leaseOwner.value != owner {
        if leaseExpiresAt.Some? && leaseExpiresAt.value > now { return None; }
      }
      epochCounter := epochCounter + 1;
      leaseOwner, leaseEpoch, leaseExpiresAt := Some(owner), Some(epochCounter), Some(now + ttl);
      epoch := Some(epochCounter);
    }

    method RenewLease(lease: Lease, ttl: int, now: int) returns (ok: bool)
      requires Layout()
      modifies this`leaseExpiresAt
      ensures Layout() && ok == Fenced(old(Abs()), lease) && Abs() == Store.RenewLease(old(Abs()), lease, ttl, now)
    {
      ok := IsFenced(lease);
      if ok { leaseExpiresAt := Some(now + ttl); }
    }

    method ReleaseLease(lease: Lease)
      requires Layout()
      modifies this`leaseOwner, this`leaseEpoch, this`leaseExpiresAt
      ensures Layout() && Abs() == Store.ReleaseLease(old(Abs()), lease)
    {
      if IsFenced(lease) { leaseOwner, leaseEpoch, leaseExpiresAt := None, None, None; }
    }

    /** The `apply_state` helper: the zero state first when there is none, then the fields one by one. */
    method SetState(p: StatePatch)
      requires Layout()
      modifies this`state
      ensures Layout() && state == ApplyState(old(state), p) && Abs() == ApplyPatch(old(Abs()), p)
    {
      StateIsApplied(state, p);
      state := Overwrite(if state == map[] then ZeroState(GetOr(p.updatedAt, 0)) else state, PatchArgs(p));
    }

    static method Overwrite(base: map<Field, Value>, args: seq<(Field, Value)>) returns (h: map<Field, Value>)
      ensures h == SetFields(base, args)
    {
      h := base;
      for i := 0 to |args|
        invariant h == SetFields(base, args[..i])
      {
        assert args[..i + 1][..i] == args[..i];
        if args[i].0 != FCreated { h := h[args[i].0 := args[i].1]; }
      }
      assert args[..|args|] == args;
    }

    method SaveState(lease: Lease, p: StatePatch) returns (ok: bool)
      requires Layout()
      modifies this`state
      ensures Layout() && ok == Fenced(old(Abs()), lease) && Abs() == if ok then
                ApplyPatch(old(Abs()), p) else old(Abs())
    {
      ok := IsFenced(lease);
      if ok { SetState(p); }
    }

    method SetEvent(row: OutboxRow)
      requires OutboxLayout(zset, rows, attempts, errors)
      modifies this`zset, this`rows, this`attempts, this`errors
      ensures OutboxLayout(zset, rows, attempts, errors)
      ensures AbsOutbox(rows, attempts, errors) == old(AbsOutbox(rows, attempts, errors))[row.eventId := row]
    {
      RowPut(zset, rows, attempts, errors, row);
      rows := rows[row.eventId := row];
      attempts := attempts - {row.eventId};
      errors := errors - {row.eventId};
      if row.status == Pending { zset := zset[row.eventId := row.sequence]; } else { zset := zset - {row.eventId}; }
    }

    method DropOutbox(id: string)
      requires OutboxLayout(zset, rows, attempts, errors)
      modifies this`zset, this`rows, this`attempts, this`errors
      ensures OutboxLayout(zset, rows, attempts, errors)
      ensures AbsOutbox(rows, attempts, errors) == old(AbsOutbox(rows, attempts, errors)) - {id}
    {
      RowDropped(zset, rows, attempts, errors, id);
      zset, rows, attempts, errors := zset - {id}, rows - {id}, attempts - {id}, errors - {id};
    }

    method SetEvents(events: seq<OutboxRow>)
      requires OutboxLayout(zset, rows, attempts, errors)
      modifies this`zset, this`rows, this`attempts, this`errors
      ensures OutboxLayout(zset, rows, attempts, errors)
      ensures AbsOutbox(rows, attempts, errors) == PutOutbox(old(AbsOutbox(rows, attempts, errors)), events)
    {
      ghost var base := AbsOutbox(rows, attempts, errors);
      for i := 0 to |events|
        invariant OutboxLayout(zset, rows, attempts, errors)
        invariant AbsOutbox(rows, attempts, errors) == PutOutbox(base, events[..i])
      {
        SetEvent(events[i]);
        assert events[..i + 1][..i] == events[..i];
      }
      assert events[..|events|] == events;
    }

    method SetParked(list: seq<ParkedRow>)
      requires HoldLayout(parked, hold)
      modifies this`parked, this`hold
      ensures HoldLayout(parked, hold) && parked == PutParked(old(parked), list)
    {
      ghost var base := parked;
      for i := 0 to |list|
        invariant HoldLayout(parked, hold) && parked == PutParked(base, list[..i])
      {
        HoldPut(parked, hold, list[i]);
        assert list[..i + 1][..i] == list[..i];
        hold := PutHold(hold, list[i]);
        parked := parked[list[i].id := list[i]];
      }
      assert list[..|list|] == list;
    }

    method SetItems(upserts: seq<ItemRow>, deletes: seq<string>)
      modifies this`items
      ensures items == PutItems(old(items), upserts) - Elems(deletes)
    {
      ghost var base := items;
      for i := 0 to |upserts|
        invariant items == PutItems(base, upserts[..i])
      {
        items := items[upserts[i].identity := upserts[i]];
        assert upserts[..i + 1][..i] == upserts[..i];
      }
      assert upserts[..|upserts|] == upserts;
      ghost var all := items;
      Memory.AllRemoved(all, deletes);
      for i := 0 to |deletes|
        invariant items == all - Elems(deletes[..i])
      {
        Memory.RemovedSoFar(all, deletes, i);
        items := items - {deletes[i]};
      }
    }

    method CommitPoll(lease: Lease, batch: CommitBatch) returns (ok: bool)
      requires Layout()
      modifies this
      ensures Layout() && ok == Fenced(old(Abs()), lease)
      ensures Abs() == if ok then Store.CommitPoll(old(Abs()), batch) else old(Abs())
    {
      ok := IsFenced(lease);
      if !ok { return; }
      SetState(batch.statePatch);
      SetTables(batch);
    }

    method SetTables(batch: CommitBatch)
      requires Layout()
      modifies this`items, this`parked, this`hold, this`zset, this`rows, this`attempts, this`errors
      ensures Layout() && Abs() == old(Abs()).(
        items := PutItems(old(items), batch.upserts) - Elems(batch.deletes),
        outbox := PutOutbox(old(AbsOutbox(rows, attempts, errors)), batch.events),
        parked := PutParked(old(parked), batch.parked))
    {
      ghost var was := Abs();
      SetItems(batch.upserts, batch.deletes);
      ghost var listed := was.(items := PutItems(was.items, batch.upserts) - Elems(batch.deletes));
      assert Abs() == listed;
      SetOutbox(batch.events);
      assert Abs() == listed.(outbox := PutOutbox(was.outbox, batch.events));
      SetParked(batch.parked);
    }

    method SetOutbox(events: seq<OutboxRow>)
      requires Layout()
      modifies this`zset, this`rows, this`attempts, this`errors
      ensures Layout() && Abs() == old(Abs()).(outbox := PutOutbox(old(AbsOutbox(rows, attempts, errors)), events))
    {
      SetEvents(events);
    }

    method AckEvents(lease: Lease, ids: seq<string>) returns (ok: bool)
      requires Layout()
      modifies this`zset, this`rows, this`attempts, this`errors
      ensures Layout() && ok == Fenced(old(Abs()), lease)
      ensures Abs() == if ok then Store.AckEvents(old(Abs()), ids) else old(Abs())
    {
      ok := IsFenced(lease);
      if !ok { return; }
      ghost var base := AbsOutbox(rows, attempts, errors);
      Memory.AllRemoved(base, ids);
      for i := 0 to |ids|
        invariant OutboxLayout(zset, rows, attempts, errors)
        invariant AbsOutbox(rows, attempts, errors) == base - Elems(ids[..i])
      {
        Memory.RemovedSoFar(base, ids, i);
        DropOutbox(ids[i]);
      }
    }

    method RecordAttempt(lease: Lease, id: string, info: AttemptInfo) returns (ok: bool)
      requires Layout()
      modifies this`attempts, this`errors
      ensures Layout() && ok == Fenced(old(Abs()), lease)
      ensures Abs() == if ok then
                Store.RecordAttempt(old(Abs()), id, info.lastError, info.nextAttemptAt) else old(Abs())
    {
      ok := IsFenced(lease);
      RecordIsBump(Abs(), id, info);
      if ok && id in rows { Bump(id, info); }
    }

    method Bump(id: string, info: AttemptInfo)
      requires OutboxLayout(zset, rows, attempts, errors) && id in rows
      modifies this`attempts, this`errors
      ensures OutboxLayout(zset, rows, attempts, errors)
      ensures
        var was := old(AbsOutbox(rows, attempts, errors));
        AbsOutbox(rows, attempts, errors) == was[id := Bumped(was[id], info)]
    {
      var count := GetOr(Get(attempts, id), 0) + 1;
      RowBumped(zset, rows, attempts, errors, id, count, info);
      attempts, errors := attempts[id := count], errors[id := info];
    }

    method ParkEvent(lease: Lease, row: ParkedRow) returns (ok: bool)
      requires Layout()
      modifies this`parked, this`hold, this`zset, this`rows, this`attempts, this`errors
      ensures Layout() && ok == Fenced(old(Abs()), lease)
      ensures Abs() == if ok then Store.ParkEvent(old(Abs()), row) else old(Abs())
    {
      ok := IsFenced(lease);
      if !ok { return; }
      ParkRow(row);
      if row.event.Some? { DropOutbox(row.event.value.id); }
    }

    method ParkRow(row: ParkedRow)
      requires Layout()
      modifies this`parked, this`hold
      ensures Layout() && Abs() == old(Abs()).(parked := old(parked)[row.id := row])
    {
      HoldPut(parked, hold, row);
      parked, hold := parked[row.id := row], PutHold(hold, row);
    }

    /** First phase: read the rows and build the script's arguments. */
    method ReadRetryArgs(ids: seq<string>) returns (args: seq<RetryArg>)
      requires Layout()
      ensures args == RetryArgs(Abs(), ids)
    {
      args := [];
      for i := 0 to |ids|
        invariant args == RetryArgs(Abs(), ids[..i])
      {
        assert ids[..i + 1][..i] == ids[..i];
        if ids[i] in parked && parked[ids[i]].kind == Poison && parked[ids[i]].event.Some? {
          args := args + [RetryArg(ids[i], FreshRow(parked[ids[i]]))];
        }
      }
      assert ids[..|ids|] == ids;
    }

    /** Second phase: the script moves every row that is still parked. */
    method RetryScript(args: seq<RetryArg>) returns (moved: nat)
      requires Layout() && forall a :: a in args ==> a.row.status == Pending
      modifies this`parked, this`hold, this`zset, this`rows, this`attempts, this`errors
      ensures Layout() && Abs() == RunArgs(old(Abs()), args) && moved == MovedArgs(old(Abs()), args)
    {
      moved := 0;
      ghost var base := Abs();
      for i := 0 to |args|
        invariant Layout() && Abs() == RunArgs(base, args[..i]) && moved == MovedArgs(base, args[..i])
      {
        assert args[..i + 1][..i] == args[..i];
        if args[i].id in parked {
          MoveBack(args[i]);
          moved := moved + 1;
        }
      }
      assert args[..|args|] == args;
    }

    method MoveBack(arg: RetryArg)
      requires Layout() && arg.row.status == Pending
      modifies this`parked, this`hold, this`zset, this`rows, this`attempts, this`errors
      ensures Layout() && parked == old(parked) - {arg.id}
      ensures Abs() ==
                old(Abs()).(outbox := old(Abs()).outbox[arg.row.eventId := arg.row], parked := old(parked) - {arg.id})
    {
      SetEvent(arg.row);
      HoldDropped(parked, hold, {arg.id});
      parked, hold := parked - {arg.id}, hold - {arg.id};
    }

    method RetryParked(ids: seq<string>) returns (moved: nat)
      requires Layout()
      modifies this`parked, this`hold, this`zset, this`rows, this`attempts, this`errors
      ensures Layout() && Abs() == Store.RetryParked(old(Abs()), ids) && moved == RetryCount(old(Abs()), ids)
    {
      TwoPhasesAreOne(Abs(), ids);
      FreshArgs(Abs(), ids);
      var args := ReadRetryArgs(ids);
      moved := RetryScript(args);
    }

    method DiscardParked(ids: seq<string>) returns (removed: nat)
      requires Layout()
      modifies this`parked, this`hold
      ensures Layout() && Abs() == Store.DiscardParked(old(Abs()), ids) && removed == |old(parked)| - |parked|
    {
      var left, holds;
      left, holds, removed := Remove(parked, hold, ids);
      SetHeld(left, holds);
    }

    method SetHeld(rows: map<string, ParkedRow>, holds: map<string, string>)
      requires Layout() && HoldLayout(rows, holds)
      modifies this`parked, this`hold
      ensures Layout() && Abs() == old(Abs()).(parked := rows)
    {
      parked, hold := rows, holds;
    }

    /** Range of the sorted set, then the three hashes, overlaid row by row. */
    method LoadPending(limit: nat) returns (out: seq<OutboxRow>)
      requires Layout()
      ensures IsPendingPrefix(Abs().outbox, limit, out)
    {
      var ids;
      ghost var left;
      ids, left := RangeByScore(zset, limit);
      LayoutIndexes(zset, rows, attempts, errors);
      out := OverlayRows(ids, rows, attempts, errors);
      NoneMissing(ids, rows, attempts, errors);
      RangeIsPending(zset, AbsOutbox(rows, attempts, errors), left, ids, limit, out);
    }

    method CountPending() returns (n: nat)
      requires Layout()
      ensures n == |PendingIds(Abs().outbox)|
    {
      n := |zset|;
      LayoutIndexes(zset, rows, attempts, errors);
    }

    method HeldKeys() returns (held: set<string>)
      requires Layout()
      ensures held == Store.HeldKeys(Abs())
    {
      held := set id | id in hold :: hold[id];
      HoldsAreHeld(Abs(), hold);
    }

    static method Remove(parked: map<string, ParkedRow>, hold: map<string, string>, ids: seq<string>)
      returns (left: map<string, ParkedRow>, holds: map<string, string>, removed: nat)
      requires HoldLayout(parked, hold)
      ensures HoldLayout(left, holds) && left == parked - Elems(ids) && removed == |parked| - |left|
    {
      left, holds, removed := parked, hold, 0;
      Memory.AllRemoved(parked, ids);
      for i := 0 to |ids|
        invariant HoldLayout(left, holds) && left == parked - Elems(ids[..i]) && removed == |parked| - |left|
      {
        Memory.RemovedSoFar(parked, ids, i);
        Memory.RemovedCount(left, ids[i]);
        HoldDropped(left, holds, {ids[i]});
        if ids[i] in left { removed := removed + 1; }
        left, holds := left - {ids[i]}, holds - {ids[i]};
      }
    }
  }

  /** Held keys read from the hold hash. */
  lemma HoldsAreHeld(rec: KeyRecord, hold: map<string, string>)
    requires HoldLayout(rec.parked, hold)
    ensures (set id | id in hold :: hold[id]) == HeldKeys(rec)
  {
    forall k ensures k in (set id | id in hold :: hold[id]) <==> k in HeldKeys(rec) {
      if k in HeldKeys(rec) {
        var id :| id in rec.parked && rec.parked[id].holdKey.Some? && rec.parked[id].holdKey.value == k;
        assert id in hold && hold[id] == k;
      }
      if k in (set id | id in hold :: hold[id]) {
        var id :| id in hold && hold[id] == k;
        assert id in rec.parked && rec.parked[id].holdKey == Some(k);
      }
    }
  }

  lemma {:induction false} FreshArgs(rec: KeyRecord, ids: seq<string>)
    ensures forall a :: a in RetryArgs(rec, ids) ==> a.row.status == Pending
  {
    if ids == [] {
    } else {
      FreshArgs(rec, ids[..|ids| - 1]);
    }
  }
}
