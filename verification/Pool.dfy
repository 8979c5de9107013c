/** The pool of workers behind a drain: rows grouped by ordering key, what each worker is at, and what every
    step of a worker keeps. */
module Pool {
  import opened Store
  import Delivery

  type Positive = n: nat | n >= 1 witness 1

  /** Delivery options. `order` gives the ordering key, the attempts and whether poison holds its key. */
  datatype Options = Options(order: Delivery.Config, concurrency: Positive, halt: bool, batchSize: nat)

  datatype Group = Group(key: string, rows: seq<OutboxRow>)

  datatype DrainResult = DrainResult(delivered: nat, parked: nat, failed: nat, nextRetryAt: Option<int>, halted: bool,
                                     remaining: nat)

  /** Where a worker stands: at each constructor it may be suspended while others run. */
  datatype Worker =
    | Fetching
    | AtRow(group: Group, i: nat)
    | Delivering(group: Group, i: nat)
    | Acking(group: Group, i: nat)
    | Failing(group: Group, i: nat)
    | Returned

  datatype Next = Stop | Widen | Again

  predicate Busy(w: Worker) { !w.Fetching? && !w.Returned? }

  // ---- grouping -------------------------------------------------------------------------------

  ghost predicate DistinctKeys(groups: seq<Group>) {
    forall i, j :: 0 <= i < j < |groups| ==> groups[i].key != groups[j].key
  }

  /** One group per key in `rows`, each with exactly that key's rows in their order. */
  ghost predicate IsGrouping(cfg: Delivery.Config, rows: seq<OutboxRow>, groups: seq<Group>) {
    && DistinctKeys(groups)
    && (forall g :: g in groups ==> g.rows == Delivery.RowsOf(cfg, rows, g.key) && g.rows != [])
    && (forall r :: r in rows ==> exists g :: g in groups && g.key == cfg.key(r.event))
  }

  lemma {:induction false} RowsOfAbsent(cfg: Delivery.Config, rows: seq<OutboxRow>, key: string)
    requires forall r :: r in rows ==> cfg.key(r.event) != key
    ensures Delivery.RowsOf(cfg, rows, key) == []
  {
    if rows == [] {
    } else {
      RowsOfAbsent(cfg, rows[..|rows| - 1], key);
    }
  }

  method GroupByOrderingKey(cfg: Delivery.Config, rows: seq<OutboxRow>) returns (groups: seq<Group>)
    ensures IsGrouping(cfg, rows, groups)
  {
    groups := [];
    for n := 0 to |rows|
      invariant IsGrouping(cfg, rows[..n], groups)
    {
      ghost var before, was := rows[..n], groups;
      assert rows[..n + 1] == before + [rows[n]] && rows[..n + 1][..n] == before;
      var k := cfg.key(rows[n].event);
      var at := 0;
      while at < |groups| && groups[at].key != k
        invariant 0 <= at <= |groups| && forall j :: 0 <= j < at ==> groups[j].key != k
      {
        at := at + 1;
      }
      if at == |groups| {
        RowsOfAbsent(cfg, before, k);
        groups := groups + [Group(k, [rows[n]])];
      } else {
        groups := groups[at := Group(k, groups[at].rows + [rows[n]])];
      }
      Grouped(cfg, before, rows[n], was, groups, at);
    }
    assert rows[..|rows|] == rows;
  }

  lemma Grouped(cfg: Delivery.Config, rows: seq<OutboxRow>, row: OutboxRow, groups: seq<Group>, groups': seq<Group>,
                at: nat)
    requires IsGrouping(cfg, rows, groups) && at <= |groups|
    requires forall j :: 0 <= j < at ==> groups[j].key != cfg.key(row.event)
    requires at < |groups| ==>
        groups[at].key == cfg.key(row.event) && groups' == groups[at := Group(groups[at].key, groups[at].rows + [row])]
    requires at == |groups| ==>
        groups' == groups + [Group(cfg.key(row.event), [row])] && Delivery.RowsOf(cfg, rows, cfg.key(row.event)) == []
    ensures IsGrouping(cfg, rows + [row], groups')
  {
    assert (rows + [row])[..|rows|] == rows;
    forall i | 0 <= i < |groups'|
      ensures groups'[i].rows == Delivery.RowsOf(cfg, rows + [row], groups'[i].key) && groups'[i].rows != [] {
      GroupAt(cfg, rows, row, groups, groups', at, i);
    }
    forall r | r in rows + [row] ensures exists g :: g in groups' && g.key == cfg.key(r.event) {
      HasGroup(cfg, rows, row, groups, groups', at, r);
    }
  }

  lemma GroupAt(cfg: Delivery.Config, rows: seq<OutboxRow>, row: OutboxRow, groups: seq<Group>, groups': seq<Group>,
                at: nat, i: nat)
    requires IsGrouping(cfg, rows, groups) && at <= |groups| && (rows + [row])[..|rows|] == rows && i < |groups'|
    requires forall j :: 0 <= j < at ==> groups[j].key != cfg.key(row.event)
    requires at < |groups| ==>
        groups[at].key == cfg.key(row.event) && groups' == groups[at := Group(groups[at].key, groups[at].rows + [row])]
    requires at == |groups| ==>
        groups' == groups + [Group(cfg.key(row.event), [row])] && Delivery.RowsOf(cfg, rows, cfg.key(row.event)) == []
    ensures groups'[i].rows == Delivery.RowsOf(cfg, rows + [row], groups'[i].key) && groups'[i].rows != []
  {
    if i != at {
      assert groups'[i] == groups[i] && groups[i] in groups && groups[i].key != cfg.key(row.event);
    } else if at < |groups| {
      assert groups[at] in groups;
    }
  }

  lemma HasGroup(cfg: Delivery.Config, rows: seq<OutboxRow>, row: OutboxRow, groups: seq<Group>, groups': seq<Group>,
                 at: nat, r: OutboxRow)
    requires IsGrouping(cfg, rows, groups) && at <= |groups| && r in rows + [row]
    requires at < |groups| ==>
        groups[at].key == cfg.key(row.event) && groups' == groups[at := Group(groups[at].key, groups[at].rows + [row])]
    requires at == |groups| ==> groups' == groups + [Group(cfg.key(row.event), [row])]
    ensures exists g :: g in groups' && g.key == cfg.key(r.event)
  {
    assert groups'[at].key == cfg.key(row.event) && groups'[at] in groups';
    if r in rows {
      var g :| g in groups && g.key == cfg.key(r.event);
      var i :| 0 <= i < |groups| && groups[i] == g;
      assert groups'[i] in groups' && groups'[i].key == g.key;
    }
  }

  /** The groups whose key is neither held nor blocked, in their order. */
  method Select(cfg: Delivery.Config, rows: seq<OutboxRow>, skip: set<string>) returns (groups: seq<Group>)
    ensures DistinctKeys(groups)
    ensures forall g :: g in groups ==> g.key !in skip && g.rows == Delivery.RowsOf(cfg, rows, g.key) && g.rows != []
    ensures forall r :: r in rows && cfg.key(r.event) !in skip ==> exists g :: g in groups && g.key == cfg.key(r.event)
  {
    var all := GroupByOrderingKey(cfg, rows);
    groups := [];
    for n := 0 to |all|
      invariant forall g :: g in groups <==> g in all[..n] && g.key !in skip
      invariant DistinctKeys(groups)
    {
      assert all[..n + 1] == all[..n] + [all[n]];
      if all[n].key !in skip {
        forall g | g in groups ensures g.key != all[n].key {
          var i :| 0 <= i < n && all[..n][i] == g;
          assert all[i] == g;
        }
        assert forall i :: 0 <= i < |groups| ==> groups[i] in groups;
        groups := groups + [all[n]];
      }
    }
    assert all[..|all|] == all;
  }

  // ---- what the pool keeps --------------------------------------------------------------------

  /** The rows of a group from `from` on are still stored, pending, and of the group's key. */
  ghost predicate RowsLive(cfg: Delivery.Config, outbox: map<string, OutboxRow>, g: Group, from: nat) {
    && from <= |g.rows|
    && (forall j :: from <= j < |g.rows| ==>
          && g.rows[j].eventId in outbox && outbox[g.rows[j].eventId] == g.rows[j]
          && g.rows[j].status == Pending && cfg.key(g.rows[j].event) == g.key)
    && (forall i, j :: from <= i < j < |g.rows| ==> g.rows[i].eventId != g.rows[j].eventId)
  }

  /** No key is worked on twice, or both worked on and queued. */
  ghost predicate PoolOk(cfg: Delivery.Config, outbox: map<string, OutboxRow>, queue: seq<Group>,
                         workers: seq<Worker>) {
    && DistinctKeys(queue)
    && (forall i :: 0 <= i < |queue| ==> RowsLive(cfg, outbox, queue[i], 0))
    && (forall w :: 0 <= w < |workers| && Busy(workers[w]) ==>
          RowsLive(cfg, outbox, workers[w].group,
                   workers[w].i) && (workers[w].AtRow? || workers[w].i < |workers[w].group.rows|))
    && (forall v, w :: 0 <= v < w < |workers| && Busy(workers[v]) && Busy(workers[w]) ==>
        workers[v].group.key != workers[w].group.key)
    && (forall w, i :: 0 <= w < |workers| && Busy(workers[w]) && 0 <= i < |queue| ==>
        workers[w].group.key != queue[i].key)
  }

  lemma Fetched(cfg: Delivery.Config, outbox: map<string, OutboxRow>, queue: seq<Group>, workers: seq<Worker>, w: nat)
    requires PoolOk(cfg, outbox, queue, workers) && w < |workers| && workers[w].Fetching? && queue != []
    ensures PoolOk(cfg, outbox, queue[1..], workers[w := AtRow(queue[0], 0)])
  {
  }

  lemma Moved(cfg: Delivery.Config, outbox: map<string, OutboxRow>, queue: seq<Group>, workers: seq<Worker>, w: nat,
              x: Worker)
    requires PoolOk(cfg, outbox, queue, workers) && w < |workers|
    requires Busy(x) ==> Busy(workers[w]) && x.group == workers[w].group && x.i == workers[w].i && x.i < |x.group.rows|
    ensures PoolOk(cfg, outbox, queue, workers[w := x])
  {
  }

  /** A change at one id of one key is not seen by the groups of other keys. */
  lemma Elsewhere(cfg: Delivery.Config, outbox: map<string, OutboxRow>, outbox': map<string, OutboxRow>, id: string,
                  g: Group, from: nat)
    requires RowsLive(cfg, outbox, g, from) && id in outbox && cfg.key(outbox[id].event) != g.key
    requires forall k :: k in outbox && k != id ==> k in outbox' && outbox'[k] == outbox[k]
    ensures RowsLive(cfg, outbox', g, from)
  {
  }

  /** The row at the head of a worker is settled or rescheduled; the worker goes past it or drops its group. */
  lemma Settled(cfg: Delivery.Config, outbox: map<string, OutboxRow>, outbox': map<string, OutboxRow>,
                queue: seq<Group>, workers: seq<Worker>, w: nat, x: Worker)
    requires PoolOk(cfg, outbox, queue, workers) && w < |workers| && Busy(workers[w])
    requires workers[w].i < |workers[w].group.rows|
    requires forall k :: k in outbox && k != workers[w].group.rows[workers[w].i].eventId ==>
               k in outbox' && outbox'[k] == outbox[k]
    requires Busy(x) ==> x == AtRow(workers[w].group, workers[w].i + 1)
    ensures PoolOk(cfg, outbox', queue, workers[w := x])
  {
    var id := workers[w].group.rows[workers[w].i].eventId;
    forall i | 0 <= i < |queue|
      ensures RowsLive(cfg, outbox', queue[i], 0)
    {
      Elsewhere(cfg, outbox, outbox', id, queue[i], 0);
    }
    forall v | 0 <= v < |workers| && v != w && Busy(workers[v])
      ensures RowsLive(cfg, outbox', workers[v].group, workers[v].i) {
      assert workers[v].group.key != workers[w].group.key;
      Elsewhere(cfg, outbox, outbox', id, workers[v].group, workers[v].i);
    }
  }

  ghost predicate DistinctIds(rows: seq<OutboxRow>) {
    forall i, j :: 0 <= i < j < |rows| ==> rows[i].eventId != rows[j].eventId
  }

  lemma {:induction false} RowsOfDistinct(cfg: Delivery.Config, rows: seq<OutboxRow>, key: string)
    requires DistinctIds(rows)
    ensures DistinctIds(Delivery.RowsOf(cfg, rows, key))
    ensures forall r :: r in Delivery.RowsOf(cfg, rows, key) ==> r in rows && cfg.key(r.event) == key
  {
    if rows == [] {
    } else {
      var init := rows[..|rows| - 1];
      RowsOfDistinct(cfg, init, key);
      var xs := Delivery.RowsOf(cfg, init, key);
      forall i | 0 <= i < |xs| ensures xs[i].eventId != rows[|rows| - 1].eventId {
        assert xs[i] in init;
      }
    }
  }

  lemma LoadedIsLive(cfg: Delivery.Config, outbox: map<string, OutboxRow>, limit: nat, rows: seq<OutboxRow>, g: Group)
    requires IsPendingPrefix(outbox, limit, rows) && g.rows == Delivery.RowsOf(cfg, rows, g.key)
    ensures RowsLive(cfg, outbox, g, 0)
  {
    RowsOfDistinct(cfg, rows, g.key);
    forall j | 0 <= j < |g.rows|
      ensures g.rows[j].eventId in outbox && outbox[g.rows[j].eventId] == g.rows[j] && g.rows[j].status == Pending
      ensures cfg.key(g.rows[j].event) == g.key
    {
      assert g.rows[j] in rows;
    }
  }

  lemma PendingRemoved(outbox: map<string, OutboxRow>, id: string)
    requires id in outbox && outbox[id].status == Pending
    ensures |PendingIds(outbox - {id})| == |PendingIds(outbox)| - 1
  {
    assert PendingIds(outbox - {id}) == PendingIds(outbox) - {id};
  }

  // ---- termination of one pass ----------------------------------------------------------------

  function WorkerWeight(w: Worker): nat {
    match w
    case Returned => 0
    case Fetching => 1
    case AtRow(g, i) => if i <= |g.rows| then 2 + 4 * (|g.rows| - i) else 2
    case Delivering(g, i) => if i < |g.rows| then 1 + 4 * (|g.rows| - i) else 1
    case Acking(g, i) => if i < |g.rows| then 4 * (|g.rows| - i) else 0
    case Failing(g, i) => if i < |g.rows| then 4 * (|g.rows| - i) - 1 else 0
  }

  function PoolWeight(ws: seq<Worker>): nat { if ws == [] then 0 else WorkerWeight(ws[0]) + PoolWeight(ws[1..]) }

  function QueueWeight(queue: seq<Group>): nat {
    if queue == [] then 0 else 2 + 4 * |queue[0].rows| + QueueWeight(queue[1..])
  }

  lemma {:induction false} WeightOf(ws: seq<Worker>, w: nat, x: Worker)
    requires w < |ws|
    ensures PoolWeight(ws[w := x]) == PoolWeight(ws) - WorkerWeight(ws[w]) + WorkerWeight(x)
  {
    if w == 0 {
      assert ws[0 := x][1..] == ws[1..];
    } else {
      WeightOf(ws[1..], w - 1, x);
      assert ws[w := x][1..] == ws[1..][w - 1 := x];
    }
  }

  function Weight(queue: seq<Group>, workers: seq<Worker>): nat { PoolWeight(workers) + QueueWeight(queue) }

  lemma Lighter(queue: seq<Group>, workers: seq<Worker>, w: nat, x: Worker)
    requires w < |workers| && WorkerWeight(x) < WorkerWeight(workers[w])
    ensures Weight(queue, workers[w := x]) < Weight(queue, workers)
  {
    WeightOf(workers, w, x);
  }

  lemma LighterQueue(queue: seq<Group>, workers: seq<Worker>, w: nat)
    requires w < |workers| && workers[w].Fetching? && queue != []
    ensures Weight(queue[1..], workers[w := AtRow(queue[0], 0)]) < Weight(queue, workers)
  {
    WeightOf(workers, w, AtRow(queue[0], 0));
  }

  predicate NotDue(row: OutboxRow, now: int) { row.nextAttemptAt.Some? && row.nextAttemptAt.value > now }

  /** The earlier of the retry time so far and `at`. */
  function EarliestRetry(a: Option<int>, at: int): (r: Option<int>)
    ensures r.Some? && r.value <= at && (a.Some? ==> r.value <= a.value) && (r == a || r == Some(at))
  {
    if a.None? || at < a.value then Some(at) else a
  }

  function WithRetry(r: DrainResult, failed: nat, at: int): DrainResult {
    r.(failed := r.failed + failed, nextRetryAt := EarliestRetry(r.nextRetryAt, at))
  }

  // ---- the books of a drain -------------------------------------------------------------------

  /** Every row there was is still stored, delivered or parked, and the counters add up. */
  ghost predicate Books(before: KeyRecord, rec: KeyRecord, delivered: nat, parked: nat, done: set<string>) {
    && OutboxKeyed(rec.outbox)
    && (forall id :: id in before.outbox ==> id in rec.outbox || id in done || id in rec.parked)
    && (forall id :: id in rec.outbox ==> id in before.outbox && rec.outbox[id].event == before.outbox[id].event)
    && delivered + parked == |PendingIds(before.outbox)| - |PendingIds(rec.outbox)|
    && delivered == |done| && done <= before.outbox.Keys - rec.outbox.Keys
  }

  lemma AckBooks(before: KeyRecord, rec: KeyRecord, delivered: nat, parked: nat, done: set<string>, id: string)
    requires Books(before, rec, delivered, parked, done) && id in rec.outbox && rec.outbox[id].status == Pending
    ensures Books(before, rec.(outbox := rec.outbox - {id}), delivered + 1, parked, done + {id})
  {
    PendingRemoved(rec.outbox, id);
  }

  lemma ParkBooks(before: KeyRecord, rec: KeyRecord, delivered: nat, parked: nat, done: set<string>, row: ParkedRow)
    requires Books(before, rec, delivered, parked, done) && row.id in rec.outbox && rec.outbox[row.id].status == Pending
    requires row.event == Some(rec.outbox[row.id].event)
    ensures Books(before, ParkEvent(rec, row), delivered, parked + 1, done)
  {
    PendingRemoved(rec.outbox, row.id);
  }

  lemma RecordBooks(before: KeyRecord, rec: KeyRecord, delivered: nat, parked: nat, done: set<string>, id: string,
                    error: Option<string>, at: Option<int>)
    requires Books(before, rec, delivered, parked, done)
    ensures Books(before, RecordAttempt(rec, id, error, at), delivered, parked, done)
  {
    assert PendingIds(RecordAttempt(rec, id, error, at).outbox) == PendingIds(rec.outbox);
  }

  /** The worker at `w` is past delivering a row that is still stored. */
  ghost predicate AtLiveRow(cfg: Delivery.Config, rec: KeyRecord, queue: seq<Group>, workers: seq<Worker>, w: nat) {
    && PoolOk(cfg, rec.outbox, queue, workers) && w < |workers| && Busy(workers[w]) &&
        workers[w].i < |workers[w].group.rows|
  }

  function RowAt(x: Worker): OutboxRow
    requires Busy(x) && x.i < |x.group.rows|
  {
    x.group.rows[x.i]
  }

  lemma AckStep(cfg: Delivery.Config, before: KeyRecord, rec: KeyRecord, delivered: nat, parked: nat,
                done: set<string>, queue: seq<Group>, workers: seq<Worker>, w: nat)
    requires AtLiveRow(cfg, rec, queue, workers, w) && Books(before, rec, delivered, parked, done) && workers[w].Acking?
    ensures Weight(queue, workers[w := AtRow(workers[w].group, workers[w].i + 1)]) < Weight(queue, workers)
    ensures
      var rec' := AckEvents(rec, [RowAt(workers[w]).eventId]);
      && Books(before, rec', delivered + 1, parked, done + {RowAt(workers[w]).eventId})
      && PoolOk(cfg, rec'.outbox, queue, workers[w := AtRow(workers[w].group, workers[w].i + 1)])
  {
    var id := RowAt(workers[w]).eventId;
    var rec' := AckEvents(rec, [id]);
    assert Elems([id]) == {id};
    AckBooks(before, rec, delivered, parked, done, id);
    Settled(cfg, rec.outbox, rec'.outbox, queue, workers, w, AtRow(workers[w].group, workers[w].i + 1));
    Lighter(queue, workers, w, AtRow(workers[w].group, workers[w].i + 1));
  }

  lemma ParkStep(cfg: Delivery.Config, before: KeyRecord, rec: KeyRecord, delivered: nat, parked: nat,
                 done: set<string>, queue: seq<Group>, workers: seq<Worker>, w: nat, row: ParkedRow, x: Worker)
    requires AtLiveRow(cfg, rec, queue, workers, w) && Books(before, rec, delivered, parked, done)
    requires row.id == RowAt(workers[w]).eventId && row.event == Some(RowAt(workers[w]).event)
    requires workers[w].Failing? && (!Busy(x) || x == AtRow(workers[w].group, workers[w].i + 1))
    ensures Weight(queue, workers[w := x]) < Weight(queue, workers)
    ensures Books(before, ParkEvent(rec, row), delivered, parked + 1, done)
    ensures PoolOk(cfg, ParkEvent(rec, row).outbox, queue, workers[w := x])
  {
    ParkBooks(before, rec, delivered, parked, done, row);
    Settled(cfg, rec.outbox, ParkEvent(rec, row).outbox, queue, workers, w, x);
    Lighter(queue, workers, w, x);
  }

  lemma RecordStep(cfg: Delivery.Config, before: KeyRecord, rec: KeyRecord, delivered: nat, parked: nat,
                   done: set<string>, queue: seq<Group>, workers: seq<Worker>, w: nat, error: Option<string>,
                   at: Option<int>)
    requires w < |workers| && workers[w].Failing? && AtLiveRow(cfg, rec, queue, workers, w)
    requires Books(before, rec, delivered, parked, done)
    ensures Weight(queue, workers[w := Fetching]) < Weight(queue, workers)
    ensures
      var rec' := RecordAttempt(rec, RowAt(workers[w]).eventId, error, at);
      Books(before, rec', delivered, parked, done) && PoolOk(cfg, rec'.outbox, queue, workers[w := Fetching])
  {
    var id := RowAt(workers[w]).eventId;
    RecordBooks(before, rec, delivered, parked, done, id, error, at);
    Settled(cfg, rec.outbox, RecordAttempt(rec, id, error, at).outbox, queue, workers, w, Fetching);
    Lighter(queue, workers, w, Fetching);
  }

  /** The record after the pending `row` of ordering key `k` was parked: poison, with its event and one attempt
      more, and with `k` held exactly if poison holds keys. */
  ghost predicate ParkedAs(cfg: Delivery.Config, was: KeyRecord, rec: KeyRecord, row: OutboxRow, k: string, now: int) {
    && rec == ParkEvent(was, Delivery.ParkedOf(cfg, row, now))
    && row.eventId in rec.parked && row.eventId !in rec.outbox
    && rec.parked[row.eventId] == ParkedRow(row.eventId, Poison, Some(row.event), row.attempts + 1, now,
                                            if cfg.holdKey then Some(k) else None)
    && (cfg.holdKey ==> k in HeldKeys(rec))
    && HeldKeys(rec) <= HeldKeys(was) + if cfg.holdKey then {k} else {}
  }

  lemma ParkedHolds(cfg: Delivery.Config, rec: KeyRecord, queue: seq<Group>, workers: seq<Worker>, w: nat,
                    row: ParkedRow, now: int)
    requires AtLiveRow(cfg, rec, queue, workers, w) && OutboxKeyed(rec.outbox)
    requires
      var x := RowAt(workers[w]);
      row == ParkedRow(x.eventId, Poison, Some(x.event), x.attempts + 1, now,
                       if cfg.holdKey then Some(workers[w].group.key) else None)
    ensures ParkedAs(cfg, rec, ParkEvent(rec, row), RowAt(workers[w]), workers[w].group.key, now)
  {
    assert ParkEvent(rec, row).parked[row.id] == row;
  }

  lemma WideEnough(batch: nat, factor: nat)
    requires factor >= 16
    ensures batch * factor >= batch * 16
  {
  }

  lemma AtLeastOne(batch: nat, factor: nat)
    requires factor >= 1
    ensures batch * factor >= batch
  {
  }

  lemma Doubled(batch: nat, factor: nat)
    ensures batch * factor * 2 == batch * (factor * 2)
  {
  }

  lemma OthersKept<K>(records: map<K, KeyRecord>, key: K, rec: KeyRecord)
    ensures records[key := rec] - {key} == records - {key}
  {
  }

  // ---- nothing deliverable is left out ------------------------------------------------------------

  predicate InQueue(queue: seq<Group>, k: string) { exists i :: 0 <= i < |queue| && queue[i].key == k }

  predicate WorkedOn(workers: seq<Worker>, k: string) {
    exists w :: 0 <= w < |workers| && Busy(workers[w]) && workers[w].group.key == k
  }

  /** Unless the pass was told to stop, or something was delivered or parked: every key of the pass is blocked,
      queued or worked on, and nobody returns before the queue is empty. */
  ghost predicate Accounts(todo: set<string>, blocked: set<string>, queue: seq<Group>, workers: seq<Worker>,
                           over: bool) {
    over ||
    (&& (forall k {:trigger InQueue(queue, k)} {:trigger WorkedOn(workers, k)} :: k in todo ==>
           k in blocked || InQueue(queue, k) || WorkedOn(workers, k))
     && (forall i :: 0 <= i < |queue| ==> queue[i].rows != [])
     && (forall w :: 0 <= w < |workers| && Busy(workers[w]) ==> workers[w].i < |workers[w].group.rows|)
     && (queue != [] ==> workers != [] && forall w :: 0 <= w < |workers| ==> !workers[w].Returned?))
  }

  /** One worker's step as the accounts see it: a group is taken from the queue, kept, or dropped with its key
      blocked. */
  ghost predicate Turns(queue: seq<Group>, workers: seq<Worker>, blocked: set<string>, w: nat, queue': seq<Group>,
                        workers': seq<Worker>, blocked': set<string>) {
    w < |workers| == |workers'| && workers' == workers[w := workers'[w]] && blocked <= blocked' &&
    var x, x' := workers[w], workers'[w];
    if x.Fetching? && queue != [] then queue' == queue[1..] && x' == AtRow(queue[0], 0)
    else if x.Fetching? then queue' == [] && x'.Returned?
    else if Busy(x) && Busy(x') then queue' == queue && x'.group == x.group && x'.i == x.i
    else if Busy(x) then queue' == queue && x'.Fetching? && (x.i >= |x.group.rows| || x.group.key in blocked')
    else false
  }

  lemma DropsGroup(queue: seq<Group>, workers: seq<Worker>, blocked: set<string>, w: nat)
    requires w < |workers| && Busy(workers[w])
    ensures Turns(queue, workers, blocked, w, queue, workers[w := Fetching], blocked + {workers[w].group.key})
    ensures workers[w].i >= |workers[w].group.rows| ==>
              Turns(queue, workers, blocked, w, queue, workers[w := Fetching], blocked)
  {
  }

  lemma KeepsGroup(queue: seq<Group>, workers: seq<Worker>, blocked: set<string>, w: nat, x: Worker)
    requires w < |workers| && Busy(workers[w]) && Busy(x) && x.group == workers[w].group && x.i == workers[w].i
    ensures Turns(queue, workers, blocked, w, queue, workers[w := x], blocked)
  {
  }

  lemma AccountsTurn(todo: set<string>, queue: seq<Group>, workers: seq<Worker>, blocked: set<string>, w: nat,
                     queue': seq<Group>, workers': seq<Worker>, blocked': set<string>)
    requires Accounts(todo, blocked, queue, workers, false)
    requires Turns(queue, workers, blocked, w, queue', workers', blocked')
    ensures Accounts(todo, blocked', queue', workers', false)
  {
    forall k | k in todo ensures k in blocked' || InQueue(queue', k) || WorkedOn(workers', k) {
      KeyTurns(k, queue, workers, blocked, w, queue', workers', blocked');
    }
  }

  lemma KeyTurns(k: string, queue: seq<Group>, workers: seq<Worker>, blocked: set<string>, w: nat,
                 queue': seq<Group>, workers': seq<Worker>, blocked': set<string>)
    requires k in blocked || InQueue(queue, k) || WorkedOn(workers, k)
    requires forall v :: 0 <= v < |workers| && Busy(workers[v]) ==> workers[v].i < |workers[v].group.rows|
    requires Turns(queue, workers, blocked, w, queue', workers', blocked')
    ensures k in blocked' || InQueue(queue', k) || WorkedOn(workers', k)
  {
    if InQueue(queue, k) {
      var i :| 0 <= i < |queue| && queue[i].key == k;
      if queue' == queue {
        assert queue'[i].key == k;
      } else if i == 0 {
        assert Busy(workers'[w]) && workers'[w].group.key == k;
      } else {
        assert queue'[i - 1].key == k;
      }
    } else if WorkedOn(workers, k) {
      var v :| 0 <= v < |workers| && Busy(workers[v]) && workers[v].group.key == k;
      if v != w || Busy(workers'[w]) { assert Busy(workers'[v]) && workers'[v].group.key == k; }
    }
  }

  /** When everybody has returned, every key of the pass is blocked. */
  lemma AllBlocked(todo: set<string>, blocked: set<string>, queue: seq<Group>, workers: seq<Worker>)
    requires Accounts(todo, blocked, queue, workers, false)
    requires forall w :: 0 <= w < |workers| ==> workers[w].Returned?
    ensures todo <= blocked
  {
    assert workers != [] ==> workers[0].Returned?;
    forall k | k in todo ensures k in blocked { assert InQueue(queue, k) || WorkedOn(workers, k) || k in blocked; }
  }

  function Keys(groups: seq<Group>): set<string> { set g | g in groups :: g.key }

  lemma AccountsOpen(blocked: set<string>, groups: seq<Group>, workers: seq<Worker>)
    requires groups != [] ==> workers != []
    requires forall w :: 0 <= w < |workers| ==> workers[w].Fetching?
    ensures (forall g :: g in groups ==> g.rows != []) ==> Accounts(Keys(groups), blocked, groups, workers, false)
  {
    forall k | k in Keys(groups) ensures InQueue(groups, k) {
      var g :| g in groups && g.key == k;
      var i :| 0 <= i < |groups| && groups[i] == g;
      assert groups[i].key == k;
    }
  }

  /** The keys of the rows are among `keys`. */
  ghost predicate Within(cfg: Delivery.Config, rows: seq<OutboxRow>, keys: set<string>) {
    forall r :: r in rows ==> cfg.key(r.event) in keys
  }

  lemma Exhausted(cfg: Delivery.Config, rows: seq<OutboxRow>, todo: set<string>, held: set<string>,
                  blocked: set<string>, blocked': set<string>)
    requires Within(cfg, rows, todo + (held + blocked)) && todo <= blocked' && blocked <= blocked'
    ensures Within(cfg, rows, held + blocked')
  {
  }

  /** How the drain goes on after a pass over `loaded` rows, of a load window of `window`. */
  function AfterPass(some: bool, progress: nat, loaded: nat, window: nat, batchSize: nat): Next {
    if !some then (if loaded < window || window >= batchSize * 16 then Stop else Widen)
    else if progress == 0 then Stop
    else Again
  }
}
