/** Order of deliveries within one ordering key, when poison events hold their key: what every worker,
    of whatever drain and whoever holds the lease, knows about the smaller sequences of its key. */
module Ordering {
  import opened Store
  import opened Pages
  import opened Delivery
  import Conservation
  import Leases

  predicate PendingSeq(committed: map<nat, Event>, outbox: map<string, OutboxRow>, q: nat) {
    q in committed && committed[q].id in outbox && outbox[committed[q].id].sequence == q
  }

  predicate ParkedSeq(committed: map<nat, Event>, parked: map<string, ParkedRow>, q: nat) {
    && q in committed && committed[q].id in parked
    && parked[committed[q].id].event.Some? && parked[committed[q].id].event.value.sequence == q
  }

  ghost predicate HasSeq(rows: seq<OutboxRow>, q: nat) { exists r :: r in rows && r.sequence == q }

  ghost predicate Ascending(rows: seq<OutboxRow>) {
    forall i, j :: 0 <= i < j < |rows| ==> rows[i].sequence < rows[j].sequence
  }

  /** `q` is an earlier event of the same key as row `r`. */
  predicate Earlier(cfg: Config, committed: map<nat, Event>, r: OutboxRow, q: nat) {
    q in committed && q < r.sequence && cfg.key(committed[q]) == cfg.key(r.event)
  }

  predicate SameKey(cfg: Config, committed: map<nat, Event>, p: nat, q: nat) {
    p in committed && q in committed && cfg.key(committed[p]) == cfg.key(committed[q])
  }

  // ---- what sessions and workers know ---------------------------------------------------------

  ghost predicate LoadingOrd(cfg: Config, committed: map<nat, Event>, done: set<nat>, parked: map<string, ParkedRow>,
                             rows: seq<OutboxRow>) {
    && Ascending(rows)
    && (forall r, q :: r in rows && Earlier(cfg, committed, r, q) ==>
        q in done || HasSeq(rows, q) || ParkedSeq(committed, parked, q))
  }

  ghost predicate GroupOrd(cfg: Config, committed: map<nat, Event>, done: set<nat>, rows: seq<OutboxRow>) {
    && Ascending(rows)
    && (forall r, q :: r in rows && Earlier(cfg, committed, r, q) ==> q in done || HasSeq(rows, q))
  }

  ghost predicate GroupsOrd(cfg: Config, committed: map<nat, Event>, done: set<nat>, groups: map<string, Group>) {
    forall k :: k in groups ==> GroupOrd(cfg, committed, done, groups[k].rows)
  }

  ghost predicate CrewsOrd(cfg: Config, committed: map<nat, Event>, done: set<nat>, crews: map<nat, Crew>) {
    forall c :: c in crews ==> GroupsOrd(cfg, committed, done, crews[c].groups)
  }

  ghost predicate LoadsOrd(cfg: Config, committed: map<nat, Event>, done: set<nat>, parked: map<string, ParkedRow>,
                           sessions: map<nat, Session>) {
    forall sid :: sid in sessions && sessions[sid].drain.Loading? ==>
      LoadingOrd(cfg, committed, done, parked, sessions[sid].drain.rows)
  }

  /** `q` is the newest event of its id. */
  ghost predicate Newest(committed: map<nat, Event>, id: string, q: nat) {
    forall p :: p in committed && committed[p].id == id ==> p <= q
  }

  ghost predicate RowsNewest(committed: map<nat, Event>, rows: seq<OutboxRow>) {
    forall r :: r in rows ==> Newest(committed, r.eventId, r.sequence)
  }

  ghost predicate GroupsNewest(committed: map<nat, Event>, groups: map<string, Group>) {
    forall k :: k in groups ==> RowsNewest(committed, groups[k].rows)
  }

  /** Whoever can still write has the newest events of their ids in hand. */
  ghost predicate HandsNewest(s: Sys) {
    && (forall c :: Manned(s, c) ==> GroupsNewest(s.committed, s.crews[c].groups))
    && (forall sid :: Current(s, sid) && sid in s.sessions && s.sessions[sid].drain.Loading? ==>
          RowsNewest(s.committed, s.sessions[sid].drain.rows))
  }

  // ---- what the record keeps ------------------------------------------------------------------

  /** Per sequence: settled, pending or parked, and never pending and parked at once. */
  ghost predicate SeqsAccounted(committed: map<nat, Event>, done: set<nat>, rec: KeyRecord) {
    && rec.outbox.Keys !! rec.parked.Keys
    && (forall q :: q in committed ==>
        q in done || PendingSeq(committed, rec.outbox, q) || ParkedSeq(committed, rec.parked, q))
  }

  ghost predicate StoredNewest(committed: map<nat, Event>, rec: KeyRecord) {
    && (forall id :: id in rec.outbox ==> Newest(committed, id, rec.outbox[id].sequence))
    && (forall id :: id in rec.parked && rec.parked[id].event.Some? ==>
          Newest(committed, id, rec.parked[id].event.value.sequence))
  }

  ghost predicate RecOrd(committed: map<nat, Event>, done: set<nat>, rec: KeyRecord) {
    SeqsAccounted(committed, done, rec) && StoredNewest(committed, rec)
  }

  function Done(s: Sys): set<nat> { s.delivered + s.discarded }

  ghost predicate Inv(cfg: Config, s: Sys) {
    && RecOrd(s.committed, Done(s), s.rec) && HandsNewest(s)
    && LoadsOrd(cfg, s.committed, Done(s), s.rec.parked, s.sessions) && CrewsOrd(cfg, s.committed, Done(s), s.crews)
  }

  // ---- growth of the histories ----------------------------------------------------------------

  lemma GroupsGrow(cfg: Config, committed: map<nat, Event>, done: set<nat>, done': set<nat>, groups: map<string, Group>)
    requires GroupsOrd(cfg, committed, done, groups) && done <= done'
    ensures GroupsOrd(cfg, committed, done', groups)
  {
    forall k | k in groups ensures GroupOrd(cfg, committed, done', groups[k].rows) {
      assert GroupOrd(cfg, committed, done, groups[k].rows);
    }
  }

  lemma CrewsGrow(cfg: Config, committed: map<nat, Event>, done: set<nat>, done': set<nat>, crews: map<nat, Crew>)
    requires CrewsOrd(cfg, committed, done, crews) && done <= done'
    ensures CrewsOrd(cfg, committed, done', crews)
  {
    forall c | c in crews ensures GroupsOrd(cfg, committed, done', crews[c].groups) {
      GroupsGrow(cfg, committed, done, done', crews[c].groups);
    }
  }

  /** More is settled, and what was parked stays parked or is settled. */
  lemma LoadsGrow(cfg: Config, committed: map<nat, Event>, done: set<nat>, done': set<nat>,
                  parked: map<string, ParkedRow>, parked': map<string, ParkedRow>, sessions: map<nat, Session>)
    requires LoadsOrd(cfg, committed, done, parked, sessions) && done <= done'
    requires forall q :: ParkedSeq(committed, parked, q) ==> q in done' || ParkedSeq(committed, parked', q)
    ensures LoadsOrd(cfg, committed, done', parked', sessions)
  {
    forall sid | sid in sessions && sessions[sid].drain.Loading?
      ensures LoadingOrd(cfg, committed, done', parked', sessions[sid].drain.rows)
    {
      assert LoadingOrd(cfg, committed, done, parked, sessions[sid].drain.rows);
    }
  }

  // ---- steps that leave the record alone ------------------------------------------------------

  lemma LocalStep(cfg: Config, s: Sys, sid: nat, x: Session)
    requires Inv(cfg, s) && Has(s, sid)
    requires x.drain.Loading? ==> LoadingOrd(cfg, s.committed, Done(s), s.rec.parked, x.drain.rows)
    requires Current(s, sid) && x.drain.Loading? ==> RowsNewest(s.committed, x.drain.rows)
    ensures Inv(cfg, Put(s, sid, x))
  {
    assert forall t :: Current(Put(s, sid, x), t) <==> Current(s, t);
    assert forall c :: Manned(Put(s, sid, x), c) <==> Manned(s, c);
  }

  lemma CrewStep(cfg: Config, s: Sys, c: nat, groups: map<string, Group>, delivered: set<nat>)
    requires Inv(cfg, s) && c in s.crews && s.delivered <= delivered
    requires GroupsOrd(cfg, s.committed, delivered + s.discarded, groups)
    requires Manned(s, c) ==> GroupsNewest(s.committed, groups)
    ensures Inv(cfg, PutGroups(s, c, groups).(delivered := delivered))
  {
    var s' := PutGroups(s, c, groups).(delivered := delivered);
    CrewsGrow(cfg, s.committed, Done(s), Done(s'), s.crews);
    LoadsGrow(cfg, s.committed, Done(s), Done(s'), s.rec.parked, s.rec.parked, s.sessions);
    forall d | Manned(s', d) ensures GroupsNewest(s.committed, s'.crews[d].groups) { assert Manned(s, d); }
    assert forall t :: Current(s', t) <==> Current(s, t);
  }

  /** A group changes: its rows go, or only its phase moves, or its settled head is dropped. */
  lemma GroupStep(cfg: Config, s: Sys, c: nat, key: string, g: Group, delivered: set<nat>)
    requires Inv(cfg, s) && HasGroup(s, c, key) && s.delivered <= delivered
    requires g.rows == [] || g.rows == GroupOf(s, c, key).rows
    ensures Inv(cfg, SetGroup(s, c, key, g).(delivered := delivered))
  {
    var groups := s.crews[c].groups;
    GroupsGrow(cfg, s.committed, Done(s), delivered + s.discarded, groups);
    CrewStep(cfg, s, c, WithGroup(groups, key, g), delivered);
  }

  // ---- reading the pending rows, then the held keys -------------------------------------------

  lemma PendingAscends(committed: map<nat, Event>, outbox: map<string, OutboxRow>, limit: nat, rows: seq<OutboxRow>,
                       i: nat, j: nat)
    requires Conservation.OutboxOk(committed, outbox) && IsPendingPrefix(outbox, limit, rows) && i < j < |rows|
    ensures rows[i].sequence < rows[j].sequence
  {
    assert rows[i].eventId in PendingIds(outbox) && rows[j].eventId in PendingIds(outbox);
  }

  lemma PendingHas(committed: map<nat, Event>, outbox: map<string, OutboxRow>, limit: nat, rows: seq<OutboxRow>,
                   i: nat, q: nat)
    requires Conservation.OutboxOk(committed, outbox) && IsPendingPrefix(outbox, limit, rows)
    requires i < |rows| && q < rows[i].sequence && PendingSeq(committed, outbox, q)
    ensures HasSeq(rows, q)
  {
    var id := committed[q].id;
    assert id in PendingIds(outbox) && outbox[id].sequence < rows[i].sequence;
  }

  lemma PendingIsOrd(cfg: Config, committed: map<nat, Event>, done: set<nat>, rec: KeyRecord, limit: nat,
                     rows: seq<OutboxRow>)
    requires Conservation.OutboxOk(committed, rec.outbox) && RecOrd(committed, done, rec)
    requires IsPendingPrefix(rec.outbox, limit, rows)
    ensures LoadingOrd(cfg, committed, done, rec.parked, rows) && RowsNewest(committed, rows)
  {
    forall i, q | 0 <= i < |rows| && Earlier(cfg, committed, rows[i], q) && PendingSeq(committed, rec.outbox, q)
      ensures HasSeq(rows, q)
    {
      PendingHas(committed, rec.outbox, limit, rows, i, q);
    }
    forall i, j | 0 <= i < j < |rows| ensures rows[i].sequence < rows[j].sequence {
      PendingAscends(committed, rec.outbox, limit, rows, i, j);
    }
    forall r | r in rows ensures Newest(committed, r.eventId, r.sequence) {
      var i :| 0 <= i < |rows| && rows[i] == r;
      assert rec.outbox[rows[i].eventId] == rows[i];
    }
  }

  lemma {:induction false} RowsOfAscend(cfg: Config, rows: seq<OutboxRow>, key: string)
    requires Ascending(rows)
    ensures Ascending(RowsOf(cfg, rows, key))
  {
    if rows == [] {
    } else {
      RowsOfAscend(cfg, rows[..|rows| - 1], key);
      Conservation.RowsOfFacts(cfg, rows[..|rows| - 1], key);
      var xs := RowsOf(cfg, rows[..|rows| - 1], key);
      assert forall i :: 0 <= i < |xs| ==> xs[i] in xs;
    }
  }

  lemma RowsOfFacts(cfg: Config, committed: map<nat, Event>, rows: seq<OutboxRow>, k: string)
    requires Conservation.RowsOk(committed, rows)
    ensures forall r :: r in RowsOf(cfg, rows, k) <==> r in rows && cfg.key(r.event) == k
    ensures forall q :: HasSeq(rows, q) && cfg.key(committed[q]) == k ==> HasSeq(RowsOf(cfg, rows, k), q)
  {
    Conservation.RowsOfFacts(cfg, rows, k);
  }

  ghost predicate Unheld(parked: map<string, ParkedRow>, key: string) {
    forall id :: id in parked ==> parked[id].holdKey != Some(key)
  }

  lemma NotHeld(rec: KeyRecord, k: string)
    requires k !in HeldKeys(rec)
    ensures Unheld(rec.parked, k)
  {
    forall id | id in rec.parked ensures rec.parked[id].holdKey != Some(k) {
      if rec.parked[id].holdKey.Some? { assert rec.parked[id].holdKey.value in HeldKeys(rec); }
    }
  }

  lemma GroupIsOrd(cfg: Config, s: Sys, rows: seq<OutboxRow>, k: string)
    requires cfg.holdKey && Conservation.RowsOk(s.committed, rows)
    requires Conservation.ParkedOk(cfg, s.committed, s.rec.parked)
    requires LoadingOrd(cfg, s.committed, Done(s), s.rec.parked, rows) && k !in HeldKeys(s.rec)
    ensures GroupOrd(cfg, s.committed, Done(s), RowsOf(cfg, rows, k))
  {
    RowsOfFacts(cfg, s.committed, rows, k);
    RowsOfAscend(cfg, rows, k);
    NotHeld(s.rec, k);
  }

  lemma LoadPendingKeepsInv(cfg: Config, s: Sys, step: Step)
    requires Conservation.Inv(cfg, s) && Inv(cfg, s) && step.LoadPending?
    ensures Inv(cfg, Apply(cfg, s, step))
  {
    if Apply(cfg, s, step) == s { return; }
    PendingIsOrd(cfg, s.committed, Done(s), s.rec, step.limit, step.rows);
    LocalStep(cfg, s, step.sid, s.sessions[step.sid].(drain := Loading(step.rows)));
  }

  lemma LoadedGroups(cfg: Config, s: Sys, sid: nat)
    requires cfg.holdKey && Conservation.Inv(cfg, s) && Inv(cfg, s) && Has(s, sid) && s.sessions[sid].drain.Loading?
    ensures
      var groups := GroupsOf(cfg, s.sessions[sid].drain.rows, HeldKeys(s.rec));
      GroupsOrd(cfg, s.committed, Done(s), groups) && (Current(s, sid) ==> GroupsNewest(s.committed, groups))
  {
    var rows := s.sessions[sid].drain.rows;
    var groups := GroupsOf(cfg, rows, HeldKeys(s.rec));
    forall k | k in groups
      ensures GroupOrd(cfg, s.committed, Done(s), groups[k].rows)
      ensures Current(s, sid) ==> RowsNewest(s.committed, groups[k].rows)
    {
      GroupIsOrd(cfg, s, rows, k);
      RowsOfFacts(cfg, s.committed, rows, k);
    }
  }

  lemma LoadHeldKeepsInv(cfg: Config, s: Sys, sid: nat, c: nat)
    requires cfg.holdKey && Conservation.Inv(cfg, s) && Inv(cfg, s)
    ensures Inv(cfg, Apply(cfg, s, LoadHeld(sid, c)))
  {
    if !Has(s, sid) || !s.sessions[sid].drain.Loading? || c in s.crews { return; }
    LoadedGroups(cfg, s, sid);
    var crew := Crew(s.leases[sid], GroupsOf(cfg, s.sessions[sid].drain.rows, HeldKeys(s.rec)));
    var s1 := s.(crews := s.crews[c := crew]);
    forall d | Manned(s1, d) ensures GroupsNewest(s.committed, s1.crews[d].groups) {
      if d != c { assert Manned(s, d); }
    }
    assert forall t :: Current(s1, t) <==> Current(s, t);
    LocalStep(cfg, s1, sid, s.sessions[sid].(drain := Draining(c)));
  }

  lemma ThrowKeepsInv(cfg: Config, s: Sys, sid: nat, left: set<string>)
    requires Inv(cfg, s)
    ensures Inv(cfg, Throwing(s, sid, left))
  {
    if !Has(s, sid) { return; }
    LocalStep(cfg, s, sid, s.sessions[sid].(drain := Quiet));
    if Drains(s, sid) {
      var c := s.sessions[sid].drain.crew;
      var groups := s.crews[c].groups;
      assert Manned(Rest(s, sid), c) ==> Manned(s, c);
      CrewStep(cfg, Rest(s, sid), c, Restrict(groups, left), s.delivered);
    }
  }

  lemma SessionStepKeepsInv(cfg: Config, s: Sys, step: Step)
    requires Inv(cfg, s) && (step.EndPass? || step.LoadState? || step.CommitFails?)
    ensures Inv(cfg, Apply(cfg, s, step))
  {
    var s' := Apply(cfg, s, step);
    if s' != s { LocalStep(cfg, s, step.sid, s'.sessions[step.sid]); }
  }

  lemma WorkerStepKeepsInv(cfg: Config, s: Sys, step: Step)
    requires Inv(cfg, s) && (step.Start? || step.Finish? || step.AckError? || step.Abandon?)
    ensures Inv(cfg, Apply(cfg, s, step))
  {
    if !HasGroup(s, step.crew, step.key) { return; }
    var g := GroupOf(s, step.crew, step.key);
    match step
    case Start(c, key) => if g.phase.Ready? { GroupStep(cfg, s, c, key, g.(phase := InFlight), s.delivered); }
    case Finish(c, key, ok) =>
      if g.phase.InFlight? {
        var delivered := if ok then s.delivered + {g.rows[0].sequence} else s.delivered;
        GroupStep(cfg, s, c, key, g.(phase := Finished(ok)), delivered);
      }
    case AckError(c, key) =>
      if g.phase == Finished(true) { GroupStep(cfg, s, c, key, g.(phase := Finished(false)), s.delivered); }
    case Abandon(c, key) => GroupStep(cfg, s, c, key, Group([], Ready), s.delivered);
  }

  // ---- fenced calls of a worker ---------------------------------------------------------------

  /** A worker that passes the fence moves the record; nothing parked is forgotten. */
  lemma MoveKeepsInv(cfg: Config, s: Sys, c: nat, rec: KeyRecord, acked: seq<nat>)
    requires Inv(cfg, s) && Manned(s, c) && rec.lease == s.rec.lease && RecOrd(s.committed, Done(s), rec)
    requires forall q :: ParkedSeq(s.committed, s.rec.parked, q) ==> ParkedSeq(s.committed, rec.parked, q)
    ensures Inv(cfg, Moved(s, c, rec).(acked := acked))
  {
    var s' := Moved(s, c, rec).(acked := acked);
    LoadsGrow(cfg, s.committed, Done(s), Done(s), s.rec.parked, rec.parked, s.sessions);
    forall d | Manned(s', d) ensures GroupsNewest(s.committed, s'.crews[d].groups) { assert Manned(s, d); }
    assert forall t :: Current(s', t) <==> Current(s, t);
  }

  lemma GroupFacts(cfg: Config, s: Sys, c: nat, key: string)
    requires Conservation.Inv(cfg, s) && Inv(cfg, s) && HasGroup(s, c, key)
    ensures
      var g := GroupOf(s, c, key);
      && Conservation.GroupOk(cfg, s.committed, s.delivered, key, g) && g.rows[0] in g.rows
      && Conservation.RowOk(s.committed, g.rows[0]) && GroupOrd(cfg, s.committed, Done(s), g.rows)
      && (Manned(s, c) ==> Newest(s.committed, g.rows[0].eventId, g.rows[0].sequence))
  {
    Conservation.GroupIsOk(cfg, s, c, key);
    assert GroupsOrd(cfg, s.committed, Done(s), s.crews[c].groups);
  }

  /** What is stored under the id of a row that is the newest of its id is that row. */
  lemma StoredIsRow(cfg: Config, committed: map<nat, Event>, rec: KeyRecord, row: OutboxRow)
    requires Conservation.OutboxOk(committed, rec.outbox) && Conservation.ParkedOk(cfg, committed, rec.parked)
    requires StoredNewest(committed, rec) && Conservation.RowOk(committed, row)
    requires Newest(committed, row.eventId, row.sequence)
    ensures row.eventId in rec.outbox ==> rec.outbox[row.eventId].sequence == row.sequence
    ensures row.eventId in rec.parked ==>
              rec.parked[row.eventId].event.Some? && rec.parked[row.eventId].event.value.sequence == row.sequence
  {
    if row.eventId in rec.parked {
      assert Conservation.ParkedRowOk(cfg, committed, row.eventId, rec.parked[row.eventId]);
    }
  }

  lemma AckRecOrd(cfg: Config, committed: map<nat, Event>, done: set<nat>, rec: KeyRecord, row: OutboxRow)
    requires Conservation.OutboxOk(committed, rec.outbox) && Conservation.ParkedOk(cfg, committed, rec.parked)
    requires RecOrd(committed, done, rec) && Conservation.RowOk(committed, row)
    requires Newest(committed, row.eventId, row.sequence) && row.sequence in done
    ensures RecOrd(committed, done, AckEvents(rec, [row.eventId]))
  {
    StoredIsRow(cfg, committed, rec, row);
    assert Elems([row.eventId]) == {row.eventId};
    var rec' := AckEvents(rec, [row.eventId]);
    forall q | q in committed
      ensures q in done || PendingSeq(committed, rec'.outbox, q) || ParkedSeq(committed, rec'.parked, q)
    {
      if PendingSeq(committed, rec.outbox, q) && committed[q].id == row.eventId { assert q == row.sequence; }
    }
  }

  lemma AckKeepsInv(cfg: Config, s: Sys, c: nat, key: string)
    requires Conservation.Inv(cfg, s) && Inv(cfg, s) && HasGroup(s, c, key) && Manned(s, c)
    requires GroupOf(s, c, key).phase == Finished(true)
    ensures Inv(cfg, Acking(s, c, key)) && Inv(cfg, AckingLost(s, c, key))
  {
    var g := GroupOf(s, c, key);
    var rec, acked := AckEvents(s.rec, [g.rows[0].eventId]), s.acked + [g.rows[0].sequence];
    GroupFacts(cfg, s, c, key);
    AckRecOrd(cfg, s.committed, Done(s), s.rec, g.rows[0]);
    MoveKeepsInv(cfg, s, c, rec, acked);
    var s1 := Moved(s, c, rec).(acked := acked);
    TailStep(cfg, s1, c, key);
    GroupStep(cfg, s1, c, key, g.(phase := Finished(false)), s1.delivered);
  }

  lemma TailFacts(rows: seq<OutboxRow>)
    requires rows != [] && Ascending(rows)
    ensures forall r :: r in rows[1..] ==> r in rows && rows[0].sequence < r.sequence
    ensures forall q :: HasSeq(rows, q) ==> q == rows[0].sequence || HasSeq(rows[1..], q)
  {
    var rest := rows[1..];
    assert rows == [rows[0]] + rest;
    forall q | HasSeq(rows, q) && q != rows[0].sequence ensures HasSeq(rest, q) {
      var r :| r in rows && r.sequence == q;
      assert r in rest;
    }
  }

  lemma OrderedTail(cfg: Config, committed: map<nat, Event>, done: set<nat>, rows: seq<OutboxRow>)
    requires rows != [] && GroupOrd(cfg, committed, done, rows) && rows[0].sequence in done
    ensures GroupOrd(cfg, committed, done, rows[1..])
  {
    TailFacts(rows);
  }

  /** The settled head of a group is dropped. */
  lemma TailStep(cfg: Config, s: Sys, c: nat, key: string)
    requires Inv(cfg, s) && HasGroup(s, c, key) && GroupOf(s, c, key).rows[0].sequence in Done(s)
    ensures Inv(cfg, SetGroup(s, c, key, Group(GroupOf(s, c, key).rows[1..], Ready)))
  {
    var groups, rows := s.crews[c].groups, GroupOf(s, c, key).rows;
    assert GroupsOrd(cfg, s.committed, Done(s), groups);
    OrderedTail(cfg, s.committed, Done(s), rows);
    TailFacts(rows);
    CrewStep(cfg, s, c, WithGroup(groups, key, Group(rows[1..], Ready)), s.delivered);
  }

  lemma ParkRecOrd(cfg: Config, committed: map<nat, Event>, done: set<nat>, rec: KeyRecord, row: OutboxRow, now: int)
    requires Conservation.OutboxOk(committed, rec.outbox) && Conservation.ParkedOk(cfg, committed, rec.parked)
    requires RecOrd(committed, done, rec) && Conservation.RowOk(committed, row)
    requires Newest(committed, row.eventId, row.sequence)
    ensures RecOrd(committed, done, ParkEvent(rec, ParkedOf(cfg, row, now)))
    ensures forall q :: ParkedSeq(committed, rec.parked, q) ==>
              ParkedSeq(committed, ParkEvent(rec, ParkedOf(cfg, row, now)).parked, q)
  {
    StoredIsRow(cfg, committed, rec, row);
    var rec' := ParkEvent(rec, ParkedOf(cfg, row, now));
    forall q | q in committed
      ensures q in done || PendingSeq(committed, rec'.outbox, q) || ParkedSeq(committed, rec'.parked, q)
    {
      if committed[q].id == row.eventId &&
          (PendingSeq(committed, rec.outbox, q) || ParkedSeq(committed, rec.parked, q)) {
        assert q == row.sequence;
      }
    }
  }

  lemma ParkKeepsInv(cfg: Config, s: Sys, c: nat, key: string, now: int)
    requires cfg.holdKey && Conservation.Inv(cfg, s) && Inv(cfg, s) && HasGroup(s, c, key) && Manned(s, c)
    ensures Inv(cfg, Fence(s, c, key, ParkEvent(s.rec, ParkedOf(cfg, GroupOf(s, c, key).rows[0], now)), []))
  {
    var row := GroupOf(s, c, key).rows[0];
    var rec := ParkEvent(s.rec, ParkedOf(cfg, row, now));
    GroupFacts(cfg, s, c, key);
    ParkRecOrd(cfg, s.committed, Done(s), s.rec, row, now);
    MoveKeepsInv(cfg, s, c, rec, s.acked);
    GroupStep(cfg, Moved(s, c, rec), c, key, Group([], Ready), s.delivered);
  }

  /** A record whose rows keep their ids and sequences looks the same to everybody. */
  lemma SameSeqs(committed: map<nat, Event>, done: set<nat>, rec: KeyRecord, rec': KeyRecord)
    requires rec'.parked == rec.parked && rec'.outbox.Keys == rec.outbox.Keys && RecOrd(committed, done, rec)
    requires forall id :: id in rec.outbox ==> rec'.outbox[id].sequence == rec.outbox[id].sequence
    ensures RecOrd(committed, done, rec')
  {
    assert forall q :: PendingSeq(committed, rec'.outbox, q) <==> PendingSeq(committed, rec.outbox, q);
  }

  lemma RecordKeepsInv(cfg: Config, s: Sys, c: nat, key: string, error: string, retryAt: int)
    requires Inv(cfg, s) && HasGroup(s, c, key) && Manned(s, c)
    ensures
      var rec := RecordAttempt(s.rec, GroupOf(s, c, key).rows[0].eventId, Some(error), Some(retryAt));
      Inv(cfg, Fence(s, c, key, rec, []))
  {
    var rec := RecordAttempt(s.rec, GroupOf(s, c, key).rows[0].eventId, Some(error), Some(retryAt));
    SameSeqs(s.committed, Done(s), s.rec, rec);
    MoveKeepsInv(cfg, s, c, rec, s.acked);
    GroupStep(cfg, Moved(s, c, rec), c, key, Group([], Ready), s.delivered);
  }

  // ---- administration -------------------------------------------------------------------------

  lemma RetryOneRecOrd(cfg: Config, committed: map<nat, Event>, done: set<nat>, rec: KeyRecord, id: string)
    requires Conservation.RecOk(cfg, rec, committed, done) && RecOrd(committed, done, rec)
    ensures RecOrd(committed, done, RetryOne(rec, id))
    ensures forall q :: ParkedSeq(committed, rec.parked, q) && committed[q].id != id ==>
              ParkedSeq(committed, RetryOne(rec, id).parked, q)
  {
    if Retryable(rec, id) { assert Conservation.ParkedRowOk(cfg, committed, id, rec.parked[id]); }
  }

  lemma {:induction false} RetryRecOrd(cfg: Config, committed: map<nat, Event>, done: set<nat>, rec: KeyRecord,
                                       ids: seq<string>)
    requires Conservation.RecOk(cfg, rec, committed, done) && RecOrd(committed, done, rec)
    ensures RecOrd(committed, done, RetryParked(rec, ids)) && RetryParked(rec, ids).lease == rec.lease
    ensures forall q :: ParkedSeq(committed, rec.parked, q) && committed[q].id !in ids ==>
              ParkedSeq(committed, RetryParked(rec, ids).parked, q)
  {
    if ids == [] {
    } else {
      var init, id := ids[..|ids| - 1], ids[|ids| - 1];
      assert ids == init + [id];
      RetryRecOrd(cfg, committed, done, rec, init);
      Conservation.RetryKeeps(cfg, rec, committed, done, init);
      RetryOneRecOrd(cfg, committed, done, RetryParked(rec, init), id);
    }
  }

  /** Outside the gap, a session between its two reads keeps what it knows. */
  lemma RetryKeepsLoading(cfg: Config, s: Sys, ids: seq<string>, sid: nat)
    requires Conservation.Inv(cfg, s) && Inv(cfg, s) && RetryOutsideGap(cfg, s, Retry(ids))
    requires sid in s.sessions && s.sessions[sid].drain.Loading?
    ensures LoadingOrd(cfg, s.committed, Done(s), RetryParked(s.rec, ids).parked, s.sessions[sid].drain.rows)
  {
    var rows, parked' := s.sessions[sid].drain.rows, RetryParked(s.rec, ids).parked;
    RetryRecOrd(cfg, s.committed, Done(s), s.rec, ids);
    assert LoadingOrd(cfg, s.committed, Done(s), s.rec.parked, rows);
    forall r, q | r in rows && Earlier(cfg, s.committed, r, q)
      ensures q in Done(s) || HasSeq(rows, q) || ParkedSeq(s.committed, parked', q)
    {
      if ParkedSeq(s.committed, s.rec.parked, q) && s.committed[q].id in ids {
        ParkedIsFollowed(cfg, s, q, r, rows);
      }
    }
  }

  lemma ParkedIsFollowed(cfg: Config, s: Sys, q: nat, r: OutboxRow, rows: seq<OutboxRow>)
    requires Conservation.ParkedOk(cfg, s.committed, s.rec.parked) && ParkedSeq(s.committed, s.rec.parked, q)
    requires r in rows && Earlier(cfg, s.committed, r, q)
    ensures Retryable(s.rec, s.committed[q].id)
    ensures Followed(cfg, s.rec.parked[s.committed[q].id].event.value, rows)
  {
    assert Conservation.ParkedRowOk(cfg, s.committed, s.committed[q].id, s.rec.parked[s.committed[q].id]);
  }

  lemma RetryKeepsInv(cfg: Config, s: Sys, ids: seq<string>)
    requires Conservation.Inv(cfg, s) && Inv(cfg, s) && RetryOutsideGap(cfg, s, Retry(ids))
    ensures Inv(cfg, s.(rec := RetryParked(s.rec, ids)))
  {
    var s' := s.(rec := RetryParked(s.rec, ids));
    RetryRecOrd(cfg, s.committed, Done(s), s.rec, ids);
    forall sid | sid in s.sessions && s.sessions[sid].drain.Loading?
      ensures LoadingOrd(cfg, s.committed, Done(s), s'.rec.parked, s.sessions[sid].drain.rows)
    {
      RetryKeepsLoading(cfg, s, ids, sid);
    }
    forall c | Manned(s', c) ensures GroupsNewest(s.committed, s'.crews[c].groups) { assert Manned(s, c); }
    assert forall t :: Current(s', t) <==> Current(s, t);
  }

  lemma DiscardRecOrd(committed: map<nat, Event>, done: set<nat>, done': set<nat>, rec: KeyRecord, ids: set<string>)
    requires RecOrd(committed, done, rec) && done' == done + ParkedSeqs(rec, ids)
    ensures RecOrd(committed, done', rec.(parked := rec.parked - ids))
    ensures forall q :: ParkedSeq(committed, rec.parked, q) ==> q in done' || ParkedSeq(committed, rec.parked - ids, q)
  {
  }

  lemma DiscardKeepsInv(cfg: Config, s: Sys, ids: seq<string>)
    requires Inv(cfg, s)
    ensures Inv(cfg, s.(rec := DiscardParked(s.rec, ids), discarded := s.discarded + ParkedSeqs(s.rec, Elems(ids))))
  {
    var s' := s.(rec := DiscardParked(s.rec, ids), discarded := s.discarded + ParkedSeqs(s.rec, Elems(ids)));
    DiscardRecOrd(s.committed, Done(s), Done(s'), s.rec, Elems(ids));
    LoadsGrow(cfg, s.committed, Done(s), Done(s'), s.rec.parked, s'.rec.parked, s.sessions);
    CrewsGrow(cfg, s.committed, Done(s), Done(s'), s.crews);
    forall c | Manned(s', c) ensures GroupsNewest(s.committed, s'.crews[c].groups) { assert Manned(s, c); }
    assert forall t :: Current(s', t) <==> Current(s, t);
  }

  // ---- commits --------------------------------------------------------------------------------

  /** New rows under new ids: old rows stay, each new sequence is pending. */
  lemma NewRowsAt(outbox: map<string, OutboxRow>, rows: seq<OutboxRow>, seq0: nat)
    requires NewRows(rows, seq0) && (forall r :: r in rows ==> r.eventId !in outbox)
    requires forall i, j :: 0 <= i < j < |rows| ==> rows[i].eventId != rows[j].eventId
    ensures forall id :: id in outbox ==> id in PutOutbox(outbox, rows) && PutOutbox(outbox, rows)[id] == outbox[id]
    ensures forall i :: 0 <= i < |rows| ==>
              rows[i].eventId in PutOutbox(outbox, rows) && PutOutbox(outbox, rows)[rows[i].eventId] == rows[i]
    ensures forall id :: id in PutOutbox(outbox, rows) ==>
              id in outbox || (PutOutbox(outbox, rows)[id] in rows && PutOutbox(outbox, rows)[id].eventId == id &&
                  seq0 < PutOutbox(outbox, rows)[id].sequence)
  {
    forall id | id in outbox
      ensures id in PutOutbox(outbox, rows) && PutOutbox(outbox, rows)[id] == outbox[id]
    {
      PutOutboxAt(outbox, rows, id);
    }
    forall i | 0 <= i < |rows|
      ensures rows[i].eventId in PutOutbox(outbox, rows) && PutOutbox(outbox, rows)[rows[i].eventId] == rows[i] {
      PutOutboxAt(outbox, rows, rows[i].eventId);
      assert rows[i] in rows;
    }
    assert forall r :: r in rows ==> seq0 < r.sequence;
    forall id | id in PutOutbox(outbox, rows) && id !in outbox
      ensures PutOutbox(outbox, rows)[id] in rows && PutOutbox(outbox, rows)[id].eventId == id {
      PutOutboxAt(outbox, rows, id);
    }
  }

  /** The history grows by larger sequences only. */
  ghost predicate Extends(committed: map<nat, Event>, committed': map<nat, Event>, seq0: nat) {
    && (forall q :: q in committed ==> q <= seq0 && q in committed' && committed'[q] == committed[q])
    && (forall q :: q in committed' && q <= seq0 ==> q in committed)
  }

  lemma RowsBelow(committed: map<nat, Event>, committed': map<nat, Event>, seq0: nat, rows: seq<OutboxRow>)
    requires Extends(committed, committed', seq0) && Conservation.RowsOk(committed, rows)
    ensures forall cfg, r, q :: r in rows && Earlier(cfg, committed', r, q) ==> Earlier(cfg, committed, r, q)
  {
  }

  lemma CommitGroupsOrd(cfg: Config, committed: map<nat, Event>, committed': map<nat, Event>, seq0: nat,
                        delivered: set<nat>, done: set<nat>, groups: map<string, Group>)
    requires Extends(committed, committed', seq0) && Conservation.GroupsOk(cfg, committed, delivered, groups)
    requires GroupsOrd(cfg, committed, done, groups)
    ensures GroupsOrd(cfg, committed', done, groups)
  {
    forall k | k in groups ensures GroupOrd(cfg, committed', done, groups[k].rows) {
      assert Conservation.GroupOk(cfg, committed, delivered, k, groups[k]);
      assert GroupOrd(cfg, committed, done, groups[k].rows);
      RowsBelow(committed, committed', seq0, groups[k].rows);
    }
  }

  lemma CommitLoadsOrd(cfg: Config, committed: map<nat, Event>, committed': map<nat, Event>, seq0: nat, done: set<nat>,
                       parked: map<string, ParkedRow>, parked': map<string, ParkedRow>, rows: seq<OutboxRow>)
    requires Extends(committed, committed', seq0) && Conservation.RowsOk(committed, rows)
    requires forall q :: ParkedSeq(committed, parked, q) ==> ParkedSeq(committed', parked', q)
    requires LoadingOrd(cfg, committed, done, parked, rows)
    ensures LoadingOrd(cfg, committed', done, parked', rows)
  {
    RowsBelow(committed, committed', seq0, rows);
  }

  lemma QuarantineAt(s: Sys, rows: seq<OutboxRow>, invalid: seq<ParkedRow>)
    requires QuarantineOnly(s, rows, invalid)
    ensures forall q :: q in s.committed && s.committed[q].id in s.rec.parked ==>
              s.committed[q].id in PutParked(s.rec.parked, invalid) && PutParked(s.rec.parked,
                  invalid)[s.committed[q].id] == s.rec.parked[s.committed[q].id]
    ensures forall id :: id in PutParked(s.rec.parked, invalid) ==>
              (id in s.rec.parked && PutParked(s.rec.parked, invalid)[id] == s.rec.parked[id])
              || (PutParked(s.rec.parked, invalid)[id] in invalid && PutParked(s.rec.parked, invalid)[id].id == id)
  {
    forall q | q in s.committed && s.committed[q].id in s.rec.parked
      ensures s.committed[q].id in PutParked(s.rec.parked, invalid)
      ensures PutParked(s.rec.parked, invalid)[s.committed[q].id] == s.rec.parked[s.committed[q].id]
    {
      PutParkedAt(s.rec.parked, invalid, s.committed[q].id);
    }
    forall id | id in PutParked(s.rec.parked, invalid)
      ensures (id in s.rec.parked && PutParked(s.rec.parked, invalid)[id] == s.rec.parked[id])
              || (PutParked(s.rec.parked, invalid)[id] in invalid && PutParked(s.rec.parked, invalid)[id].id == id)
    {
      PutParkedAt(s.rec.parked, invalid, id);
    }
  }

  /** How a commit under fresh ids moves the two kinds of outstanding sequences. */
  ghost predicate CommitMoves(committed: map<nat, Event>, committed': map<nat, Event>, seq0: nat, rec: KeyRecord,
                              rec': KeyRecord) {
    && Extends(committed, committed', seq0)
    && (forall id :: id in rec.outbox ==> id in rec'.outbox && rec'.outbox[id] == rec.outbox[id])
    && (forall q :: PendingSeq(committed', rec'.outbox, q) ==> seq0 < q || PendingSeq(committed, rec.outbox, q))
    && (forall q :: q in committed' && seq0 < q ==> PendingSeq(committed', rec'.outbox, q))
    && (forall q :: ParkedSeq(committed, rec.parked, q) ==> ParkedSeq(committed', rec'.parked, q))
    && (forall q :: ParkedSeq(committed', rec'.parked, q) ==> seq0 < q || ParkedSeq(committed, rec.parked, q))
    && (forall k :: Unheld(rec.parked, k) ==> Unheld(rec'.parked, k))
    && rec'.outbox.Keys !! rec'.parked.Keys
  }

  lemma CommitPending(committed: map<nat, Event>, outbox: map<string, OutboxRow>, rows: seq<OutboxRow>, seq0: nat)
    requires NewRows(rows, seq0) && (forall q :: q in committed ==> q <= seq0)
    requires (forall r :: r in rows ==> r.eventId !in outbox)
    requires forall i, j :: 0 <= i < j < |rows| ==> rows[i].eventId != rows[j].eventId
    requires forall q :: q in committed ==> committed[q].sequence == q
    ensures
      var committed', outbox' := AddCommitted(committed, rows), PutOutbox(outbox, rows);
      && Extends(committed, committed', seq0)
      && (forall id :: id in outbox ==> id in outbox' && outbox'[id] == outbox[id])
      && (forall q :: PendingSeq(committed', outbox', q) ==> seq0 < q || PendingSeq(committed, outbox, q))
      && (forall q :: q in committed' && seq0 < q ==> PendingSeq(committed', outbox', q))
  {
    Conservation.AddCommittedAt(committed, rows, seq0);
    NewRowsAt(outbox, rows, seq0);
    var committed', outbox' := AddCommitted(committed, rows), PutOutbox(outbox, rows);
    forall q | q in committed' && seq0 < q ensures PendingSeq(committed', outbox', q) {
      var i := q - seq0 - 1;
      assert committed'[seq0 + 1 + i] == rows[i].event && rows[i] in rows;
    }
  }

  lemma CommitParked(s: Sys, rows: seq<OutboxRow>, invalid: seq<ParkedRow>, committed': map<nat, Event>, seq0: nat)
    requires QuarantineOnly(s, rows, invalid) && Extends(s.committed, committed', seq0)
    ensures
      var parked' := PutParked(s.rec.parked, invalid);
      && (forall q :: ParkedSeq(s.committed, s.rec.parked, q) ==> ParkedSeq(committed', parked', q))
      && (forall q :: ParkedSeq(committed', parked', q) ==> seq0 < q || ParkedSeq(s.committed, s.rec.parked, q))
      && (forall k :: Unheld(s.rec.parked, k) ==> Unheld(parked', k))
  {
    QuarantineAt(s, rows, invalid);
  }

  lemma CommitDisjoint(s: Sys, rows: seq<OutboxRow>, invalid: seq<ParkedRow>, seq0: nat)
    requires QuarantineOnly(s, rows, invalid) && NewRows(rows, seq0) && Conservation.OutboxOk(s.committed, s.rec.outbox)
    requires s.rec.outbox.Keys !! s.rec.parked.Keys && FreshIds(s, Commit(0, rows, invalid, 0))
    ensures PutOutbox(s.rec.outbox, rows).Keys !! PutParked(s.rec.parked, invalid).Keys
  {
    QuarantineAt(s, rows, invalid);
    NewRowsAt(s.rec.outbox, rows, seq0);
  }

  lemma CommitIsMove(cfg: Config, s: Sys, sid: nat, rows: seq<OutboxRow>, invalid: seq<ParkedRow>, now: int)
    requires Conservation.Inv(cfg, s) && Has(s, sid) && Current(s, sid) && s.sessions[sid].loaded
    requires SeqsAccounted(s.committed, s.delivered + s.discarded, s.rec)
    requires NewRows(rows, s.sessions[sid].sequence) && QuarantineOnly(s, rows, invalid)
    requires FreshIds(s, Commit(sid, rows, invalid, now))
    ensures
      var s' := Committing(s, sid, rows, invalid, now);
      CommitMoves(s.committed, s'.committed, s.sessions[sid].sequence, s.rec, s'.rec)
  {
    var s', seq0 := Committing(s, sid, rows, invalid, now), s.sessions[sid].sequence;
    CommitPending(s.committed, s.rec.outbox, rows, seq0);
    CommitParked(s, rows, invalid, s'.committed, seq0);
    CommitDisjoint(s, rows, invalid, seq0);
  }

  /** The new events have ids of their own. */
  lemma CommitNewest(committed: map<nat, Event>, rows: seq<OutboxRow>, seq0: nat, id: string, q: nat)
    requires NewRows(rows, seq0) && (forall p :: p in committed ==> p <= seq0) && Newest(committed, id, q)
    requires forall r :: r in rows ==> r.eventId != id
    ensures Newest(AddCommitted(committed, rows), id, q)
  {
    Conservation.AddCommittedAt(committed, rows, seq0);
    var committed' := AddCommitted(committed, rows);
    forall p | p in committed' && p !in committed ensures committed'[p].id != id {
      assert committed'[p] == rows[p - seq0 - 1].event && rows[p - seq0 - 1] in rows;
    }
  }

  lemma NewIsNewest(committed: map<nat, Event>, rows: seq<OutboxRow>, seq0: nat, i: nat)
    requires NewRows(rows, seq0) && (forall p :: p in committed ==> p <= seq0) && i < |rows|
    requires forall i, j :: 0 <= i < j < |rows| ==> rows[i].eventId != rows[j].eventId
    ensures Newest(AddCommitted(committed, rows), rows[i].eventId, rows[i].sequence)
  {
    Conservation.AddCommittedAt(committed, rows, seq0);
    var committed' := AddCommitted(committed, rows);
    forall p | p in committed' && committed'[p].id == rows[i].eventId ensures p <= rows[i].sequence {
      if p !in committed {
        var j := p - seq0 - 1;
        assert committed'[p] == rows[j].event && rows[j] in rows;
      }
    }
  }

  lemma CommitStored(s: Sys, rows: seq<OutboxRow>, invalid: seq<ParkedRow>, seq0: nat)
    requires NewRows(rows, seq0) && (forall p :: p in s.committed ==> p <= seq0) && StoredNewest(s.committed, s.rec)
    requires QuarantineOnly(s, rows, invalid) && FreshIds(s, Commit(0, rows, invalid, 0))
    ensures
      var outbox', parked' := PutOutbox(s.rec.outbox, rows), PutParked(s.rec.parked, invalid);
      StoredNewest(AddCommitted(s.committed, rows), s.rec.(outbox := outbox', parked := parked'))
  {
    var outbox', parked' := PutOutbox(s.rec.outbox, rows), PutParked(s.rec.parked, invalid);
    NewRowsAt(s.rec.outbox, rows, seq0);
    QuarantineAt(s, rows, invalid);
    forall id | id in outbox' ensures Newest(AddCommitted(s.committed, rows), id, outbox'[id].sequence) {
      if id in s.rec.outbox {
        CommitNewest(s.committed, rows, seq0, id, outbox'[id].sequence);
      } else {
        var i :| 0 <= i < |rows| && rows[i] == outbox'[id];
        NewIsNewest(s.committed, rows, seq0, i);
      }
    }
    forall id | id in parked' && parked'[id].event.Some?
      ensures Newest(AddCommitted(s.committed, rows), id, parked'[id].event.value.sequence)
    {
      assert id in s.rec.parked && parked'[id] == s.rec.parked[id];
      CommitNewest(s.committed, rows, seq0, id, parked'[id].event.value.sequence);
    }
  }

  lemma CommitHands(cfg: Config, s: Sys, rows: seq<OutboxRow>, invalid: seq<ParkedRow>, seq0: nat, c: nat)
    requires NewRows(rows, seq0) && (forall p :: p in s.committed ==> p <= seq0) && Manned(s, c)
    requires GroupsNewest(s.committed, s.crews[c].groups) && FreshIds(s, Commit(0, rows, invalid, 0))
    ensures GroupsNewest(AddCommitted(s.committed, rows), s.crews[c].groups)
  {
    var groups := s.crews[c].groups;
    forall k, r | k in groups && r in groups[k].rows
      ensures Newest(AddCommitted(s.committed, rows), r.eventId, r.sequence) {
      assert RowsNewest(s.committed, groups[k].rows);
      assert InHand(s, c, r.eventId);
      CommitNewest(s.committed, rows, seq0, r.eventId, r.sequence);
    }
  }

  lemma CommitRecOrd(committed: map<nat, Event>, committed': map<nat, Event>, seq0: nat, done: set<nat>, rec: KeyRecord,
                     rec': KeyRecord)
    requires CommitMoves(committed, committed', seq0, rec, rec') && RecOrd(committed, done, rec)
    requires StoredNewest(committed', rec')
    ensures RecOrd(committed', done, rec')
  {
    forall q | q in committed'
      ensures q in done || PendingSeq(committed', rec'.outbox, q) || ParkedSeq(committed', rec'.parked, q)
    {
      if q <= seq0 {
        assert q in committed && (PendingSeq(committed, rec.outbox, q) ==> PendingSeq(committed', rec'.outbox, q));
      }
    }
  }

  lemma CommitKeepsInv(cfg: Config, s: Sys, sid: nat, rows: seq<OutboxRow>, invalid: seq<ParkedRow>, now: int)
    requires Conservation.Inv(cfg, s) && Inv(cfg, s) && Has(s, sid) && Current(s, sid)
    requires CanCommit(s, s.sessions[sid], rows, invalid) && FreshIds(s, Commit(sid, rows, invalid, now))
    ensures Inv(cfg, Committing(s, sid, rows, invalid, now))
  {
    var s', seq0 := Committing(s, sid, rows, invalid, now), s.sessions[sid].sequence;
    CommitIsMove(cfg, s, sid, rows, invalid, now);
    CommitStored(s, rows, invalid, seq0);
    CommitRecOrd(s.committed, s'.committed, seq0, Done(s), s.rec, s'.rec);
    forall t | t in s'.sessions && s'.sessions[t].drain.Loading?
      ensures LoadingOrd(cfg, s'.committed, Done(s), s'.rec.parked, s'.sessions[t].drain.rows)
    {
      CommitLoadsOrd(cfg, s.committed, s'.committed, seq0, Done(s), s.rec.parked, s'.rec.parked,
                     s.sessions[t].drain.rows);
    }
    CommitCrews(cfg, s, sid, rows, invalid, now);
    forall t | Current(s', t) && t in s'.sessions ensures !s'.sessions[t].drain.Loading? {
      Leases.Exclusive(s.rec, s.leases, s.granted, s.writes, sid, t);
    }
  }

  lemma CommitCrews(cfg: Config, s: Sys, sid: nat, rows: seq<OutboxRow>, invalid: seq<ParkedRow>, now: int)
    requires Conservation.Inv(cfg, s) && Inv(cfg, s) && Has(s, sid) && Current(s, sid)
    requires CanCommit(s, s.sessions[sid], rows, invalid) && FreshIds(s, Commit(sid, rows, invalid, now))
    requires Extends(s.committed, AddCommitted(s.committed, rows), s.sessions[sid].sequence)
    ensures
      var s' := Committing(s, sid, rows, invalid, now);
      && CrewsOrd(cfg, s'.committed, Done(s), s'.crews)
      && forall c :: Manned(s', c) ==> GroupsNewest(s'.committed, s'.crews[c].groups)
  {
    var s', seq0 := Committing(s, sid, rows, invalid, now), s.sessions[sid].sequence;
    forall c | c in s.crews ensures GroupsOrd(cfg, s'.committed, Done(s), s.crews[c].groups) {
      assert Conservation.GroupsOk(cfg, s.committed, s.delivered, s.crews[c].groups);
      CommitGroupsOrd(cfg, s.committed, s'.committed, seq0, s.delivered, Done(s), s.crews[c].groups);
    }
    forall c | Manned(s', c) ensures GroupsNewest(s'.committed, s'.crews[c].groups) {
      assert Manned(s, c);
      CommitHands(cfg, s, rows, invalid, seq0, c);
    }
  }

  // ---- leases ---------------------------------------------------------------------------------

  lemma QuietStep(cfg: Config, s: Sys, s': Sys)
    requires Inv(cfg, s)
    requires s'.rec.outbox == s.rec.outbox && s'.rec.parked == s.rec.parked && s'.committed == s.committed
    requires s'.delivered == s.delivered && s'.discarded == s.discarded
    requires forall t :: t in s'.sessions ==>
               (t in s.sessions && s'.sessions[t] == s.sessions[t]) || s'.sessions[t] == Session(false, 0, Quiet)
    requires forall t :: Current(s', t) && t in s.sessions ==> Current(s, t)
    requires forall c :: c in s'.crews ==> c in s.crews && s'.crews[c] == s.crews[c]
    requires forall c :: Manned(s', c) ==> Manned(s, c)
    ensures Inv(cfg, s')
  {
  }

  lemma AcquireKeepsInv(cfg: Config, s: Sys, step: Step)
    requires Conservation.LeaseInv(s) && Inv(cfg, s) && step.Acquire?
    ensures Inv(cfg, Apply(cfg, s, step))
  {
    if step.sid in s.leases || step.sid in s.sessions || !CanAcquire(s.rec, step.owner, step.clock) { return; }
    var s' := Apply(cfg, s, step);
    Leases.Acquired(s.rec, s.leases, s.granted, s.writes, step.sid, step.owner, step.ttl, step.clock);
    forall c | c in s.crews ensures !Manned(s', c) { assert s.crews[c].lease.epoch in s.granted; }
    QuietStep(cfg, s, s');
  }

  lemma RenewKeepsInv(cfg: Config, s: Sys, step: Step)
    requires Inv(cfg, s) && step.Renew?
    ensures Inv(cfg, Apply(cfg, s, step))
  {
    if Has(s, step.sid) { QuietStep(cfg, s, s.(rec := RenewLease(s.rec, s.leases[step.sid], step.ttl, step.clock))); }
  }

  lemma ReleaseKeepsInv(cfg: Config, s: Sys, sid: nat)
    requires Inv(cfg, s)
    ensures Inv(cfg, Apply(cfg, s, Release(sid)))
  {
    if Has(s, sid) { QuietStep(cfg, s, Drop(s.(rec := ReleaseLease(s.rec, s.leases[sid])), sid)); }
  }

  lemma CrashKeepsInv(cfg: Config, s: Sys, sid: nat)
    requires Inv(cfg, s)
    ensures Inv(cfg, Apply(cfg, s, Crash(sid)))
  {
    if sid in s.leases {
      QuietStep(cfg, s, Drop(Vanish(s, s.leases[sid]), sid));
    } else {
      QuietStep(cfg, s, Drop(s, sid));
    }
  }

  lemma LeaseKeepsInv(cfg: Config, s: Sys, step: Step)
    requires Conservation.LeaseInv(s) && Inv(cfg, s) && LeaseKind(step)
    ensures Inv(cfg, Apply(cfg, s, step))
  {
    match step
    case Acquire(_, _, _, _) => AcquireKeepsInv(cfg, s, step);
    case Renew(_, _, _) => RenewKeepsInv(cfg, s, step);
    case Release(sid) => ReleaseKeepsInv(cfg, s, sid);
    case Crash(sid) => CrashKeepsInv(cfg, s, sid);
  }

  // ---- all orderly runs -----------------------------------------------------------------------

  lemma AckStepKeepsInv(cfg: Config, s: Sys, step: Step)
    requires Conservation.Inv(cfg, s) && Inv(cfg, s) && (step.Ack? || step.AckLost?)
    ensures Inv(cfg, Apply(cfg, s, step))
  {
    if !HasGroup(s, step.crew, step.key) || GroupOf(s, step.crew, step.key).phase != Finished(true) { return; }
    if Manned(s, step.crew) {
      AckKeepsInv(cfg, s, step.crew, step.key);
    } else {
      GroupStep(cfg, s, step.crew, step.key, Group([], Ready), s.delivered);
      GroupStep(cfg, s, step.crew, step.key, GroupOf(s, step.crew, step.key).(phase := Finished(false)), s.delivered);
    }
  }

  lemma FailStepKeepsInv(cfg: Config, s: Sys, step: Step)
    requires cfg.holdKey && Conservation.Inv(cfg, s) && Inv(cfg, s) && (step.Record? || step.Park?)
    ensures Inv(cfg, Apply(cfg, s, step))
  {
    if !HasGroup(s, step.crew, step.key) { return; }
    if !Manned(s, step.crew) {
      GroupStep(cfg, s, step.crew, step.key, Group([], Ready), s.delivered);
    } else if step.Record? {
      RecordKeepsInv(cfg, s, step.crew, step.key, step.error, step.retryAt);
    } else {
      ParkKeepsInv(cfg, s, step.crew, step.key, step.now);
    }
  }

  lemma CommitStepKeepsInv(cfg: Config, s: Sys, step: Step)
    requires Conservation.Inv(cfg, s) && Inv(cfg, s) && step.Commit? && FreshIds(s, step)
    ensures Inv(cfg, Apply(cfg, s, step))
  {
    var sid := step.sid;
    if !Has(s, sid) || !CanCommit(s, s.sessions[sid], step.rows, step.invalid) { return; }
    if Current(s, sid) {
      CommitKeepsInv(cfg, s, sid, step.rows, step.invalid, step.now);
    } else {
      QuietStep(cfg, s, Drop(s, sid));
    }
  }

  lemma FencedKeepsInv(cfg: Config, s: Sys, step: Step)
    requires cfg.holdKey && Conservation.Inv(cfg, s) && Inv(cfg, s) && FencedKind(step)
    ensures Inv(cfg, Apply(cfg, s, step))
  {
    if step.Ack? || step.AckLost? { AckStepKeepsInv(cfg, s, step); } else { FailStepKeepsInv(cfg, s, step); }
  }

  lemma SessionKeepsInv(cfg: Config, s: Sys, step: Step)
    requires cfg.holdKey && Conservation.Inv(cfg, s) && Inv(cfg, s) && SessionKind(step)
    ensures Inv(cfg, Apply(cfg, s, step))
  {
    match step
    case LoadPending(_, _, _) => LoadPendingKeepsInv(cfg, s, step);
    case LoadHeld(sid, c) => LoadHeldKeepsInv(cfg, s, sid, c);
    case DrainThrows(sid, left) => ThrowKeepsInv(cfg, s, sid, left);
    case _ => SessionStepKeepsInv(cfg, s, step);
  }

  lemma AdminKeepsInv(cfg: Config, s: Sys, step: Step)
    requires cfg.holdKey && Conservation.Inv(cfg, s) && Inv(cfg, s) && AdminKind(step) && RetryOutsideGap(cfg, s, step)
    ensures Inv(cfg, Apply(cfg, s, step))
  {
    match step
    case Retry(ids) => RetryKeepsInv(cfg, s, ids);
    case Discard(ids) => DiscardKeepsInv(cfg, s, ids);
  }

  lemma StepKeepsInv(cfg: Config, s: Sys, step: Step)
    requires cfg.holdKey && Conservation.Inv(cfg, s) && Inv(cfg, s) && FreshIds(s, step)
    requires RetryOutsideGap(cfg, s, step)
    ensures Inv(cfg, Apply(cfg, s, step))
  {
    if LeaseKind(step) { LeaseKeepsInv(cfg, s, step); }
    else if SessionKind(step) { SessionKeepsInv(cfg, s, step); }
    else if WorkerKind(step) { WorkerStepKeepsInv(cfg, s, step); }
    else if FencedKind(step) { FencedKeepsInv(cfg, s, step); }
    else if AdminKind(step) { AdminKeepsInv(cfg, s, step); }
    else { CommitStepKeepsInv(cfg, s, step); }
  }

  lemma {:induction false} RunKeepsInv(cfg: Config, s: Sys, steps: seq<Step>)
    requires Init(s) && cfg.holdKey && Orderly(cfg, s, steps)
    ensures Inv(cfg, Run(cfg, s, steps))
  {
    if steps == [] {
    } else {
      var init := steps[..|steps| - 1];
      RunKeepsInv(cfg, s, init);
      Conservation.RunKeepsInv(cfg, s, init);
      StepKeepsInv(cfg, Run(cfg, s, init), steps[|steps| - 1]);
    }
  }

  lemma {:induction false} OrderlyPrefix(cfg: Config, s: Sys, steps: seq<Step>, n: nat)
    requires Orderly(cfg, s, steps) && n <= |steps|
    ensures Orderly(cfg, s, steps[..n])
  {
    if n < |steps| {
      OrderlyPrefix(cfg, s, steps[..|steps| - 1], n);
      assert steps[..|steps| - 1][..n] == steps[..n];
    } else {
      assert steps[..n] == steps;
    }
  }

  lemma HeadsFollowKeyOrder(cfg: Config, s: Sys, c: nat, key: string, q: nat)
    requires Conservation.Inv(cfg, s) && Inv(cfg, s) && HasGroup(s, c, key)
    requires q in s.committed && q < GroupOf(s, c, key).rows[0].sequence && cfg.key(s.committed[q]) == key
    ensures q in Done(s)
  {
    var rows := GroupOf(s, c, key).rows;
    GroupFacts(cfg, s, c, key);
    assert Earlier(cfg, s.committed, rows[0], q);
    assert forall r :: r in rows ==> rows[0].sequence <= r.sequence;
  }

  /** The step starts delivering the event of sequence `p`. */
  predicate Starts(s: Sys, step: Step, p: nat) {
    && step.Start? && HasGroup(s, step.crew, step.key) && GroupOf(s, step.crew, step.key).phase.Ready?
    && GroupOf(s, step.crew, step.key).rows[0].sequence == p
  }

  /** When a delivery starts, by any worker of any drain and whoever holds the lease, every smaller
      sequence of the same key was delivered or discarded before. */
  lemma DeliveriesFollowKeyOrder(cfg: Config, s: Sys, steps: seq<Step>, n: nat, p: nat, q: nat)
    requires Init(s) && cfg.holdKey && Orderly(cfg, s, steps) && n < |steps|
    requires
      var before := Run(cfg, s, steps[..n]);
      Starts(before, steps[n], p) && q < p && SameKey(cfg, before.committed, p, q)
    ensures
      var before := Run(cfg, s, steps[..n]);
      q in before.delivered || q in before.discarded
  {
    var before := Run(cfg, s, steps[..n]);
    OrderlyPrefix(cfg, s, steps, n);
    RunKeepsInv(cfg, s, steps[..n]);
    Conservation.RunKeepsInv(cfg, s, steps[..n]);
    GroupFacts(cfg, before, steps[n].crew, steps[n].key);
    HeadsFollowKeyOrder(cfg, before, steps[n].crew, steps[n].key, q);
  }
}
