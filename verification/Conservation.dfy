/** At-least-once delivery: no crash point, steal or administrative step loses a committed event. */
module Conservation {
  import opened Store
  import opened Pages
  import opened Delivery
  import Leases

  ghost predicate LeaseInv(s: Sys) {
    && s.leases.Keys == s.sessions.Keys && Leases.Inv(s.rec, s.leases, s.granted, s.writes)
    && CrewsLeased(s.leases, s.sessions, s.crews, s.granted)
  }

  /** Crews work under leases that were granted, and a draining session has its own crew. */
  ghost predicate CrewsLeased(leases: map<nat, Lease>, sessions: map<nat, Session>, crews: map<nat, Crew>,
                              granted: seq<nat>) {
    && (forall c :: c in crews ==> crews[c].lease.epoch in granted)
    && (forall sid :: sid in sessions && sid in leases && sessions[sid].drain.Draining? ==>
          sessions[sid].drain.crew in crews && crews[sessions[sid].drain.crew].lease == leases[sid])
  }

  /** A row that stands for a committed event. */
  predicate RowOk(committed: map<nat, Event>, r: OutboxRow) {
    && r.eventId == r.event.id && r.sequence == r.event.sequence
    && r.sequence in committed && committed[r.sequence] == r.event
  }

  ghost predicate RowsOk(committed: map<nat, Event>, rows: seq<OutboxRow>) {
    forall r :: r in rows ==> RowOk(committed, r)
  }

  ghost predicate OutboxOk(committed: map<nat, Event>, outbox: map<string, OutboxRow>) {
    forall id :: id in outbox ==>
        outbox[id].eventId == id && outbox[id].status == Pending && RowOk(committed, outbox[id])
  }

  predicate ParkedRowOk(cfg: Config, committed: map<nat, Event>, id: string, p: ParkedRow) {
    if p.event.Some? then
      var e := p.event.value;
      p.kind == Poison && e.id == id && e.sequence in committed && committed[e.sequence] == e && p.holdKey == Hold(cfg,
          e)
    else p.kind == Invalid && p.holdKey.None?
  }

  ghost predicate ParkedOk(cfg: Config, committed: map<nat, Event>, parked: map<string, ParkedRow>) {
    && (forall id :: id in parked ==> ParkedRowOk(cfg, committed, id, parked[id]))
    && (forall id, q :: id in parked && q in committed && committed[q].id == id ==> parked[id].event.Some?)
  }

  ghost predicate GroupOk(cfg: Config, committed: map<nat, Event>, delivered: set<nat>, key: string, g: Group) {
    && RowsOk(committed, g.rows) && (forall r :: r in g.rows ==> cfg.key(r.event) == key)
    && (g.phase == Finished(true) && g.rows != [] ==> g.rows[0].sequence in delivered)
  }

  ghost predicate GroupsOk(cfg: Config, committed: map<nat, Event>, delivered: set<nat>, groups: map<string, Group>) {
    forall k :: k in groups ==> GroupOk(cfg, committed, delivered, k, groups[k])
  }

  ghost predicate CrewsOk(cfg: Config, committed: map<nat, Event>, delivered: set<nat>, crews: map<nat, Crew>) {
    forall c :: c in crews ==> GroupsOk(cfg, committed, delivered, crews[c].groups)
  }

  ghost predicate LoadsOk(committed: map<nat, Event>, sessions: map<nat, Session>) {
    forall sid :: sid in sessions && sessions[sid].drain.Loading? ==> RowsOk(committed, sessions[sid].drain.rows)
  }

  ghost predicate SeqInv(s: Sys) {
    && (forall q :: q in s.committed ==> q <= Sequence(s.rec) && s.committed[q].sequence == q)
    && (forall sid :: Current(s, sid) && sid in s.sessions && s.sessions[sid].loaded ==>
        Sequence(s.rec) <= s.sessions[sid].sequence)
  }

  /** Pending, parked, or settled under the same id. */
  ghost predicate Accounted(rec: KeyRecord, committed: map<nat, Event>, settled: set<nat>, id: string) {
    || id in rec.outbox
    || (id in rec.parked && rec.parked[id].event.Some?)
    || exists q :: q in settled && q in committed && committed[q].id == id
  }

  ghost predicate Conserved(rec: KeyRecord, committed: map<nat, Event>, settled: set<nat>) {
    forall q :: q in committed ==> Accounted(rec, committed, settled, committed[q].id)
  }

  /** The record part of the invariant. */
  ghost predicate RecOk(cfg: Config, rec: KeyRecord, committed: map<nat, Event>, settled: set<nat>) {
    OutboxOk(committed, rec.outbox) && ParkedOk(cfg, committed, rec.parked) && Conserved(rec, committed, settled)
  }

  ghost predicate Inv(cfg: Config, s: Sys) {
    && LeaseInv(s) && SeqInv(s)
    && RecOk(cfg, s.rec, s.committed, s.delivered + s.discarded)
    && LoadsOk(s.committed, s.sessions) && CrewsOk(cfg, s.committed, s.delivered, s.crews)
  }

  // ---- sessions and workers move, nothing is stored -------------------------------------------

  /** One session changes. */
  lemma LocalStep(cfg: Config, s: Sys, sid: nat, x: Session)
    requires Inv(cfg, s) && Has(s, sid) && (x.drain.Loading? ==> RowsOk(s.committed, x.drain.rows))
    requires x.drain.Draining? ==> x.drain.crew in s.crews && s.crews[x.drain.crew].lease == s.leases[sid]
    requires Current(s, sid) && x.loaded ==> Sequence(s.rec) <= x.sequence
    ensures Inv(cfg, Put(s, sid, x))
  {
    assert Put(s, sid, x).sessions.Keys == s.sessions.Keys;
  }

  /** The groups of one crew change; histories may grow by a delivery. */
  lemma CrewStep(cfg: Config, s: Sys, c: nat, groups: map<string, Group>, delivered: set<nat>)
    requires Inv(cfg, s) && c in s.crews && s.delivered <= delivered && GroupsOk(cfg, s.committed, delivered, groups)
    ensures Inv(cfg, PutGroups(s, c, groups).(delivered := delivered))
  {
    var s' := PutGroups(s, c, groups).(delivered := delivered);
    CrewsGrow(cfg, s.committed, s.committed, s.delivered, delivered, s.crews);
    forall q | q in s.committed ensures Accounted(s.rec, s.committed, delivered + s.discarded, s.committed[q].id) {
      MoreSettled(s.rec, s.committed, s.delivered + s.discarded, delivered + s.discarded, s.committed[q].id);
    }
  }

  lemma GroupsGrow(cfg: Config, committed: map<nat, Event>, committed': map<nat, Event>, delivered: set<nat>,
                   delivered': set<nat>, groups: map<string, Group>)
    requires GroupsOk(cfg, committed, delivered, groups) && delivered <= delivered'
    requires forall q :: q in committed ==> q in committed' && committed'[q] == committed[q]
    ensures GroupsOk(cfg, committed', delivered', groups)
  {
    forall k | k in groups ensures GroupOk(cfg, committed', delivered', k, groups[k]) {
      assert GroupOk(cfg, committed, delivered, k, groups[k]);
    }
  }

  lemma CrewsGrow(cfg: Config, committed: map<nat, Event>, committed': map<nat, Event>, delivered: set<nat>,
                  delivered': set<nat>, crews: map<nat, Crew>)
    requires CrewsOk(cfg, committed, delivered, crews) && delivered <= delivered'
    requires forall q :: q in committed ==> q in committed' && committed'[q] == committed[q]
    ensures CrewsOk(cfg, committed', delivered', crews)
  {
    forall c | c in crews ensures GroupsOk(cfg, committed', delivered', crews[c].groups) {
      GroupsGrow(cfg, committed, committed', delivered, delivered', crews[c].groups);
    }
  }

  lemma MoreSettled(rec: KeyRecord, committed: map<nat, Event>, settled: set<nat>, settled': set<nat>, id: string)
    requires Accounted(rec, committed, settled, id) && settled <= settled'
    ensures Accounted(rec, committed, settled', id)
  {
  }

  lemma {:induction false} RowsOfFacts(cfg: Config, rows: seq<OutboxRow>, key: string)
    ensures forall r :: r in RowsOf(cfg, rows, key) <==> r in rows && cfg.key(r.event) == key
  {
    if rows == [] {
    } else {
      assert rows == rows[..|rows| - 1] + [rows[|rows| - 1]];
      RowsOfFacts(cfg, rows[..|rows| - 1], key);
    }
  }

  lemma GroupsAreOk(cfg: Config, committed: map<nat, Event>, delivered: set<nat>, rows: seq<OutboxRow>,
                    held: set<string>)
    requires RowsOk(committed, rows)
    ensures GroupsOk(cfg, committed, delivered, GroupsOf(cfg, rows, held))
  {
    var gs := GroupsOf(cfg, rows, held);
    forall k | k in gs ensures GroupOk(cfg, committed, delivered, k, gs[k]) { RowsOfFacts(cfg, rows, k); }
  }

  lemma LoadHeldKeepsInv(cfg: Config, s: Sys, sid: nat, c: nat)
    requires Inv(cfg, s)
    ensures Inv(cfg, Apply(cfg, s, LoadHeld(sid, c)))
  {
    if !Has(s, sid) || !s.sessions[sid].drain.Loading? || c in s.crews { return; }
    GroupsAreOk(cfg, s.committed, s.delivered, s.sessions[sid].drain.rows, HeldKeys(s.rec));
    var crew := Crew(s.leases[sid], GroupsOf(cfg, s.sessions[sid].drain.rows, HeldKeys(s.rec)));
    var s1 := s.(crews := s.crews[c := crew]);
    assert Inv(cfg, s1);
    LocalStep(cfg, s1, sid, s.sessions[sid].(drain := Draining(c)));
  }

  lemma ThrowKeepsInv(cfg: Config, s: Sys, sid: nat, left: set<string>)
    requires Inv(cfg, s)
    ensures Inv(cfg, Throwing(s, sid, left))
  {
    if !Has(s, sid) { return; }
    LocalStep(cfg, s, sid, s.sessions[sid].(drain := Quiet));
    if Drains(s, sid) {
      var c := s.sessions[sid].drain.crew;
      var groups := s.crews[c].groups;
      CrewStep(cfg, Rest(s, sid), c, Restrict(groups, left), s.delivered);
    }
  }

  lemma DrainStepKeepsInv(cfg: Config, s: Sys, step: Step)
    requires Inv(cfg, s) && (step.LoadPending? || step.EndPass? || step.LoadState? || step.CommitFails?)
    ensures Inv(cfg, Apply(cfg, s, step))
  {
    var s' := Apply(cfg, s, step);
    if s' != s { LocalStep(cfg, s, step.sid, s'.sessions[step.sid]); }
  }

  /** A worker's group changes, and nothing but the delivery history with it. */
  lemma GroupStep(cfg: Config, s: Sys, c: nat, key: string, g: Group, delivered: set<nat>)
    requires Inv(cfg, s) && HasGroup(s, c, key) && s.delivered <= delivered
    requires GroupOk(cfg, s.committed, delivered, key, g)
    ensures Inv(cfg, SetGroup(s, c, key, g).(delivered := delivered))
  {
    GroupsGrow(cfg, s.committed, s.committed, s.delivered, delivered, s.crews[c].groups);
    CrewStep(cfg, s, c, WithGroup(s.crews[c].groups, key, g), delivered);
  }

  lemma GroupIsOk(cfg: Config, s: Sys, c: nat, key: string)
    requires Inv(cfg, s) && HasGroup(s, c, key)
    ensures GroupOk(cfg, s.committed, s.delivered, key, GroupOf(s, c, key))
    ensures GroupOf(s, c, key).rows[0] in GroupOf(s, c, key).rows
  {
    assert GroupsOk(cfg, s.committed, s.delivered, s.crews[c].groups);
  }

  /** A worker starts or finishes. */
  lemma DeliveryStepKeepsInv(cfg: Config, s: Sys, step: Step)
    requires Inv(cfg, s) && (step.Start? || step.Finish?) && HasGroup(s, step.crew, step.key)
    ensures Inv(cfg, Apply(cfg, s, step))
  {
    var g := GroupOf(s, step.crew, step.key);
    GroupIsOk(cfg, s, step.crew, step.key);
    if step.Start? {
      if g.phase.Ready? { GroupStep(cfg, s, step.crew, step.key, g.(phase := InFlight), s.delivered); }
    } else if g.phase.InFlight? {
      GroupStep(cfg, s, step.crew, step.key, g.(phase := Finished(step.ok)),
                if step.ok then s.delivered + {g.rows[0].sequence} else s.delivered);
    }
  }

  /** A worker starts, finishes, fails to ack or gives up. */
  lemma WorkerStepKeepsInv(cfg: Config, s: Sys, step: Step)
    requires Inv(cfg, s) && (step.Start? || step.Finish? || step.AckError? || step.Abandon?)
    ensures Inv(cfg, Apply(cfg, s, step))
  {
    if !HasGroup(s, step.crew, step.key) { return; }
    var g := GroupOf(s, step.crew, step.key);
    GroupIsOk(cfg, s, step.crew, step.key);
    if step.AckError? {
      if g.phase == Finished(true) {
        GroupStep(cfg, s, step.crew, step.key, g.(phase := Finished(false)), s.delivered);
      }
    } else if step.Abandon? {
      GroupStep(cfg, s, step.crew, step.key, Group([], Ready), s.delivered);
    } else {
      DeliveryStepKeepsInv(cfg, s, step);
    }
  }

  // ---- fenced calls of a worker ---------------------------------------------------------------

  /** A worker that passes the fence moves the record. */
  lemma WriteKeepsInv(cfg: Config, s: Sys, c: nat, rec: KeyRecord, acked: seq<nat>)
    requires Inv(cfg, s) && Manned(s, c) && RecOk(cfg, rec, s.committed, s.delivered + s.discarded)
    requires rec.lease == s.rec.lease && rec.epochCounter == s.rec.epochCounter && rec.state == s.rec.state
    ensures Inv(cfg, Moved(s, c, rec).(acked := acked))
  {
    Leases.WroteUnder(s.rec, s.leases, s.granted, s.writes, s.crews[c].lease);
    Leases.Kept(s.rec, rec, s.leases, s.leases, s.granted, s.writes + [s.crews[c].lease.epoch]);
  }

  /** A fenced write of a worker, which keeps a part of its group. */
  lemma FenceKeepsInv(cfg: Config, s: Sys, c: nat, key: string, rec: KeyRecord, rest: seq<OutboxRow>, acked: seq<nat>)
    requires Inv(cfg, s) && HasGroup(s, c, key) && Manned(s, c)
    requires RecOk(cfg, rec, s.committed, s.delivered + s.discarded)
    requires rec.lease == s.rec.lease && rec.epochCounter == s.rec.epochCounter && rec.state == s.rec.state
    requires forall r :: r in rest ==> r in GroupOf(s, c, key).rows
    ensures Inv(cfg, Fence(s, c, key, rec, rest).(acked := acked))
  {
    WriteKeepsInv(cfg, s, c, rec, acked);
    var s1 := Moved(s, c, rec).(acked := acked);
    GroupIsOk(cfg, s, c, key);
    GroupStep(cfg, s1, c, key, Group(rest, Ready), s1.delivered);
    assert Fence(s, c, key, rec, rest).(acked := acked) ==
        SetGroup(s1, c, key, Group(rest, Ready)).(delivered := s1.delivered);
  }

  lemma RejectedKeepsInv(cfg: Config, s: Sys, c: nat, key: string, rec: KeyRecord, rest: seq<OutboxRow>)
    requires Inv(cfg, s) && HasGroup(s, c, key) && !Manned(s, c)
    ensures Inv(cfg, Fence(s, c, key, rec, rest))
  {
    GroupStep(cfg, s, c, key, Group([], Ready), s.delivered);
  }

  lemma AckKeepsInv(cfg: Config, s: Sys, c: nat, key: string)
    requires Inv(cfg, s) && HasGroup(s, c, key) && GroupOf(s, c, key).phase == Finished(true)
    ensures Inv(cfg, Acking(s, c, key))
  {
    var g := GroupOf(s, c, key);
    var row := g.rows[0];
    GroupIsOk(cfg, s, c, key);
    var rec := AckEvents(s.rec, [row.eventId]);
    if !Manned(s, c) { RejectedKeepsInv(cfg, s, c, key, rec, g.rows[1..]); return; }
    forall q | q in s.committed ensures Accounted(rec, s.committed, s.delivered + s.discarded, s.committed[q].id) {
      assert Accounted(s.rec, s.committed, s.delivered + s.discarded, s.committed[q].id);
      if s.committed[q].id == row.eventId { assert row.sequence in s.delivered + s.discarded; }
    }
    FenceKeepsInv(cfg, s, c, key, rec, g.rows[1..], s.acked + [row.sequence]);
  }

  lemma AckLostKeepsInv(cfg: Config, s: Sys, c: nat, key: string)
    requires Inv(cfg, s) && HasGroup(s, c, key) && GroupOf(s, c, key).phase == Finished(true)
    ensures Inv(cfg, AckingLost(s, c, key))
  {
    var g := GroupOf(s, c, key);
    var row, failed := g.rows[0], g.(phase := Finished(false));
    GroupIsOk(cfg, s, c, key);
    if !Manned(s, c) { GroupStep(cfg, s, c, key, failed, s.delivered); return; }
    var rec := AckEvents(s.rec, [row.eventId]);
    forall q | q in s.committed ensures Accounted(rec, s.committed, s.delivered + s.discarded, s.committed[q].id) {
      assert Accounted(s.rec, s.committed, s.delivered + s.discarded, s.committed[q].id);
      if s.committed[q].id == row.eventId { assert row.sequence in s.delivered + s.discarded; }
    }
    WriteKeepsInv(cfg, s, c, rec, s.acked + [row.sequence]);
    var s1 := Moved(s, c, rec).(acked := s.acked + [row.sequence]);
    GroupStep(cfg, s1, c, key, failed, s1.delivered);
  }

  lemma RecordKeepsInv(cfg: Config, s: Sys, c: nat, key: string, error: string, retryAt: int)
    requires Inv(cfg, s) && HasGroup(s, c, key)
    ensures Inv(cfg,
                Fence(s, c, key,
                      RecordAttempt(s.rec, GroupOf(s, c, key).rows[0].eventId, Some(error), Some(retryAt)), []))
  {
    var rec := RecordAttempt(s.rec, GroupOf(s, c, key).rows[0].eventId, Some(error), Some(retryAt));
    if !Manned(s, c) { RejectedKeepsInv(cfg, s, c, key, rec, []); return; }
    forall q | q in s.committed ensures Accounted(rec, s.committed, s.delivered + s.discarded, s.committed[q].id) {
      assert Accounted(s.rec, s.committed, s.delivered + s.discarded, s.committed[q].id);
    }
    FenceKeepsInv(cfg, s, c, key, rec, [], s.acked);
  }

  lemma ParkKeepsInv(cfg: Config, s: Sys, c: nat, key: string, now: int)
    requires Inv(cfg, s) && HasGroup(s, c, key)
    ensures Inv(cfg,
                Fence(s, c, key, ParkEvent(s.rec, ParkedOf(cfg, GroupOf(s, c, key).rows[0], now)),
                      AfterPark(cfg, GroupOf(s, c, key).rows)))
  {
    var g := GroupOf(s, c, key);
    var row := g.rows[0];
    GroupIsOk(cfg, s, c, key);
    var rec := ParkEvent(s.rec, ParkedOf(cfg, row, now));
    if !Manned(s, c) { RejectedKeepsInv(cfg, s, c, key, rec, AfterPark(cfg, g.rows)); return; }
    forall q | q in s.committed ensures Accounted(rec, s.committed, s.delivered + s.discarded, s.committed[q].id) {
      assert Accounted(s.rec, s.committed, s.delivered + s.discarded, s.committed[q].id);
    }
    FenceKeepsInv(cfg, s, c, key, rec, AfterPark(cfg, g.rows), s.acked);
  }

  // ---- administration -------------------------------------------------------------------------

  lemma RetryOneKeeps(cfg: Config, rec: KeyRecord, committed: map<nat, Event>, settled: set<nat>, id: string)
    requires RecOk(cfg, rec, committed, settled)
    ensures RecOk(cfg, RetryOne(rec, id), committed, settled)
  {
    if Retryable(rec, id) {
      var rec' := RetryOne(rec, id);
      assert ParkedRowOk(cfg, committed, id, rec.parked[id]);
      forall q | q in committed ensures Accounted(rec', committed, settled, committed[q].id) {
        assert Accounted(rec, committed, settled, committed[q].id);
      }
    }
  }

  lemma {:induction false} RetryKeeps(cfg: Config, rec: KeyRecord, committed: map<nat, Event>, settled: set<nat>,
                                      ids: seq<string>)
    requires RecOk(cfg, rec, committed, settled)
    ensures RecOk(cfg, RetryParked(rec, ids), committed, settled)
    ensures RetryParked(rec, ids).lease == rec.lease && RetryParked(rec, ids).epochCounter == rec.epochCounter
    ensures RetryParked(rec, ids).state == rec.state
  {
    if ids == [] {
    } else {
      RetryKeeps(cfg, rec, committed, settled, ids[..|ids| - 1]);
      RetryOneKeeps(cfg, RetryParked(rec, ids[..|ids| - 1]), committed, settled, ids[|ids| - 1]);
    }
  }

  lemma AdminKeepsInv(cfg: Config, s: Sys, rec: KeyRecord, discarded: set<nat>)
    requires Inv(cfg, s) && s.discarded <= discarded && RecOk(cfg, rec, s.committed, s.delivered + discarded)
    requires rec.lease == s.rec.lease && rec.epochCounter == s.rec.epochCounter && rec.state == s.rec.state
    ensures Inv(cfg, s.(rec := rec, discarded := discarded))
  {
    Leases.Kept(s.rec, rec, s.leases, s.leases, s.granted, s.writes);
  }

  lemma RetryKeepsInv(cfg: Config, s: Sys, ids: seq<string>)
    requires Inv(cfg, s)
    ensures Inv(cfg, s.(rec := RetryParked(s.rec, ids)))
  {
    RetryKeeps(cfg, s.rec, s.committed, s.delivered + s.discarded, ids);
    AdminKeepsInv(cfg, s, RetryParked(s.rec, ids), s.discarded);
    assert s.(rec := RetryParked(s.rec, ids)) == s.(rec := RetryParked(s.rec, ids), discarded := s.discarded);
  }

  lemma DiscardKeepsInv(cfg: Config, s: Sys, ids: seq<string>)
    requires Inv(cfg, s)
    ensures Inv(cfg, s.(rec := DiscardParked(s.rec, ids), discarded := s.discarded + ParkedSeqs(s.rec, Elems(ids))))
  {
    var rec, gone := DiscardParked(s.rec, ids), ParkedSeqs(s.rec, Elems(ids));
    forall q | q in s.committed
      ensures Accounted(rec, s.committed, s.delivered + (s.discarded + gone), s.committed[q].id) {
      var id := s.committed[q].id;
      assert Accounted(s.rec, s.committed, s.delivered + s.discarded, id);
      if id in s.rec.parked && id in Elems(ids) && s.rec.parked[id].event.Some? {
        assert ParkedRowOk(cfg, s.committed, id, s.rec.parked[id]);
        assert s.rec.parked[id].event.value.sequence in s.delivered + (s.discarded + gone);
      }
    }
    AdminKeepsInv(cfg, s, rec, s.discarded + gone);
  }

  // ---- commits --------------------------------------------------------------------------------

  lemma {:induction false} AddCommittedAt(m: map<nat, Event>, rows: seq<OutboxRow>, seq0: nat)
    requires Numbered(rows, seq0) && forall q :: q in m ==> q <= seq0
    ensures forall q :: q in AddCommitted(m, rows) <==> q in m || seq0 < q <= seq0 + |rows|
    ensures forall q :: q in m ==> AddCommitted(m, rows)[q] == m[q]
    ensures forall i :: 0 <= i < |rows| ==> AddCommitted(m, rows)[seq0 + 1 + i] == rows[i].event
  {
    if rows == [] {
    } else {
      AddCommittedAt(m, rows[..|rows| - 1], seq0);
    }
  }

  lemma CommitRowOk(s: Sys, rows: seq<OutboxRow>, seq0: nat, id: string)
    requires OutboxOk(s.committed, s.rec.outbox) && NewRows(rows, seq0) && forall q :: q in s.committed ==> q <= seq0
    requires id in PutOutbox(s.rec.outbox, rows)
    ensures
      var row := PutOutbox(s.rec.outbox, rows)[id];
      row.eventId == id && row.status == Pending && RowOk(AddCommitted(s.committed, rows), row)
  {
    AddCommittedAt(s.committed, rows, seq0);
    PutOutboxAt(s.rec.outbox, rows, id);
    if r :| r in rows && r.eventId == id {
      var row := PutOutbox(s.rec.outbox, rows)[id];
      var i :| 0 <= i < |rows| && rows[i] == row;
      assert AddCommitted(s.committed, rows)[seq0 + 1 + i] == row.event;
    }
  }

  lemma CommitOutboxOk(cfg: Config, s: Sys, rows: seq<OutboxRow>, seq0: nat)
    requires OutboxOk(s.committed, s.rec.outbox) && NewRows(rows, seq0) && forall q :: q in s.committed ==> q <= seq0
    ensures OutboxOk(AddCommitted(s.committed, rows), PutOutbox(s.rec.outbox, rows))
    ensures forall r :: r in rows ==> r.eventId in PutOutbox(s.rec.outbox, rows)
    ensures forall id :: id in s.rec.outbox ==> id in PutOutbox(s.rec.outbox, rows)
  {
    AddCommittedAt(s.committed, rows, seq0);
    forall id | id in PutOutbox(s.rec.outbox, rows)
      ensures
        var row := PutOutbox(s.rec.outbox, rows)[id];
        row.eventId == id && row.status == Pending && RowOk(AddCommitted(s.committed, rows), row)
    {
      CommitRowOk(s, rows, seq0, id);
    }
    forall r | r in rows
      ensures r.eventId in PutOutbox(s.rec.outbox, rows)
    {
      PutOutboxAt(s.rec.outbox, rows, r.eventId);
    }
    forall id | id in s.rec.outbox ensures id in PutOutbox(s.rec.outbox, rows) { PutOutboxAt(s.rec.outbox, rows, id); }
  }

  lemma CommitParkedOk(cfg: Config, s: Sys, rows: seq<OutboxRow>, invalid: seq<ParkedRow>, seq0: nat)
    requires ParkedOk(cfg, s.committed, s.rec.parked) && NewRows(rows, seq0) && QuarantineOnly(s, rows, invalid)
    requires forall q :: q in s.committed ==> q <= seq0
    requires forall id :: id in s.rec.parked && s.rec.parked[id].event.None? ==> forall r :: r in rows ==>
               r.eventId != id
    ensures ParkedOk(cfg, AddCommitted(s.committed, rows), PutParked(s.rec.parked, invalid))
    ensures forall id :: id in s.rec.parked && s.rec.parked[id].event.Some? ==>
              id in PutParked(s.rec.parked, invalid) && PutParked(s.rec.parked, invalid)[id] == s.rec.parked[id]
  {
    AddCommittedAt(s.committed, rows, seq0);
    var committed', parked' := AddCommitted(s.committed, rows), PutParked(s.rec.parked, invalid);
    forall id | id in parked'
      ensures ParkedRowOk(cfg, committed', id, parked'[id])
    {
      PutParkedAt(s.rec.parked, invalid, id);
    }
    forall id, q | id in parked' && q in committed' && committed'[q].id == id ensures parked'[id].event.Some? {
      PutParkedAt(s.rec.parked, invalid, id);
      if q !in s.committed { assert committed'[q] == rows[q - seq0 - 1].event && rows[q - seq0 - 1] in rows; }
    }
    forall id | id in s.rec.parked && s.rec.parked[id].event.Some?
      ensures id in parked' && parked'[id] == s.rec.parked[id] {
      PutParkedAt(s.rec.parked, invalid, id);
      assert ParkedRowOk(cfg, s.committed, id, s.rec.parked[id]);
    }
  }

  lemma CommitConserves(cfg: Config, s: Sys, rows: seq<OutboxRow>, seq0: nat, rec: KeyRecord)
    requires NewRows(rows, seq0) && Conserved(s.rec, s.committed, s.delivered + s.discarded)
    requires forall q :: q in s.committed ==> q <= seq0
    requires forall r :: r in rows ==> r.eventId in rec.outbox
    requires forall id :: id in s.rec.outbox ==> id in rec.outbox
    requires forall id :: id in s.rec.parked && s.rec.parked[id].event.Some? ==>
               id in rec.parked && rec.parked[id] == s.rec.parked[id]
    ensures Conserved(rec, AddCommitted(s.committed, rows), s.delivered + s.discarded)
  {
    AddCommittedAt(s.committed, rows, seq0);
    var committed' := AddCommitted(s.committed, rows);
    forall q | q in committed' ensures Accounted(rec, committed', s.delivered + s.discarded, committed'[q].id) {
      if q in s.committed {
        assert Accounted(s.rec, s.committed, s.delivered + s.discarded, s.committed[q].id);
      } else {
        assert rows[q - seq0 - 1] in rows;
      }
    }
  }

  lemma CommitKeepsInv(cfg: Config, s: Sys, sid: nat, rows: seq<OutboxRow>, invalid: seq<ParkedRow>, now: int)
    requires Inv(cfg, s) && Has(s, sid) && Current(s, sid) && s.sessions[sid].loaded
    requires NewRows(rows, s.sessions[sid].sequence) && QuarantineOnly(s, rows, invalid)
    ensures Inv(cfg, Committing(s, sid, rows, invalid, now))
  {
    var seq0 := s.sessions[sid].sequence;
    var s' := Committing(s, sid, rows, invalid, now);
    CommitOutboxOk(cfg, s, rows, seq0);
    CommitParkedOk(cfg, s, rows, invalid, seq0);
    CommitConserves(cfg, s, rows, seq0, s'.rec);
    AddCommittedAt(s.committed, rows, seq0);
    CommitKeepsLeases(s, sid, rows, invalid, now);
    CrewsGrow(cfg, s.committed, s'.committed, s.delivered, s.delivered, s.crews);
    CommitKeepsSeq(cfg, s, sid, rows, invalid, now);
  }

  lemma CommitKeepsLeases(s: Sys, sid: nat, rows: seq<OutboxRow>, invalid: seq<ParkedRow>, now: int)
    requires LeaseInv(s) && Has(s, sid) && Current(s, sid)
    ensures LeaseInv(Committing(s, sid, rows, invalid, now))
  {
    var s' := Committing(s, sid, rows, invalid, now);
    Leases.Wrote(s.rec, s.leases, s.granted, s.writes, sid);
    Leases.Kept(s.rec, s'.rec, s.leases, s.leases, s.granted, s'.writes);
  }

  lemma CommitKeepsSeq(cfg: Config, s: Sys, sid: nat, rows: seq<OutboxRow>, invalid: seq<ParkedRow>, now: int)
    requires LeaseInv(s) && SeqInv(s) && Has(s, sid) && Current(s, sid) && s.sessions[sid].loaded
    requires NewRows(rows, s.sessions[sid].sequence)
    ensures SeqInv(Committing(s, sid, rows, invalid, now))
  {
    var seq0, s' := s.sessions[sid].sequence, Committing(s, sid, rows, invalid, now);
    AddCommittedAt(s.committed, rows, seq0);
    forall t | Current(s', t) && t in s'.sessions && s'.sessions[t].loaded
      ensures Sequence(s'.rec) <= s'.sessions[t].sequence
    {
      Leases.Exclusive(s.rec, s.leases, s.granted, s.writes, sid, t);
    }
    forall q | q in s'.committed ensures q <= Sequence(s'.rec) && s'.committed[q].sequence == q {
      if q !in s.committed { assert s'.committed[q] == rows[q - seq0 - 1].event; }
    }
  }

  // ---- leases ---------------------------------------------------------------------------------

  lemma QuietStep(cfg: Config, s: Sys, s': Sys)
    requires Inv(cfg, s) && LeaseInv(s')
    requires s'.rec.outbox == s.rec.outbox && s'.rec.parked == s.rec.parked && s'.rec.state == s.rec.state
    requires s'.committed == s.committed && s'.delivered == s.delivered && s'.discarded == s.discarded
    requires forall t :: t in s'.sessions ==>
               (t in s.sessions && s'.sessions[t] == s.sessions[t]) || s'.sessions[t] == Session(false, 0, Quiet)
    requires forall t :: Current(s', t) && t in s.sessions ==> Current(s, t)
    requires forall c :: c in s'.crews ==> c in s.crews && s'.crews[c] == s.crews[c]
    ensures Inv(cfg, s')
  {
    forall q | q in s.committed ensures Accounted(s'.rec, s.committed, s.delivered + s.discarded, s.committed[q].id) {
      assert Accounted(s.rec, s.committed, s.delivered + s.discarded, s.committed[q].id);
    }
  }

  lemma LeaveKeepsInv(cfg: Config, s: Sys, sid: nat, rec: KeyRecord)
    requires Inv(cfg, s) && (rec == s.rec || rec == s.rec.(lease := None))
    ensures Inv(cfg, Drop(s.(rec := rec), sid))
  {
    Leases.Kept(s.rec, rec, s.leases, s.leases - {sid}, s.granted, s.writes);
    QuietStep(cfg, s, Drop(s.(rec := rec), sid));
  }

  lemma CrashKeepsInv(cfg: Config, s: Sys, sid: nat)
    requires Inv(cfg, s) && sid in s.leases
    ensures Inv(cfg, Drop(Vanish(s, s.leases[sid]), sid))
  {
    var s' := Drop(Vanish(s, s.leases[sid]), sid);
    Leases.Kept(s.rec, s.rec, s.leases, s.leases - {sid}, s.granted, s.writes);
    forall t | t in s'.sessions && s'.sessions[t].drain.Draining? ensures s'.sessions[t].drain.crew in s'.crews {
      assert s.crews[s.sessions[t].drain.crew].lease == s.leases[t] && s.leases[t].epoch != s.leases[sid].epoch;
    }
    QuietStep(cfg, s, s');
  }

  lemma RenewKeepsInv(cfg: Config, s: Sys, sid: nat, ttl: int, clock: int)
    requires Inv(cfg, s) && Has(s, sid)
    ensures Inv(cfg, s.(rec := RenewLease(s.rec, s.leases[sid], ttl, clock)))
  {
    var rec := RenewLease(s.rec, s.leases[sid], ttl, clock);
    Leases.Kept(s.rec, rec, s.leases, s.leases, s.granted, s.writes);
    QuietStep(cfg, s, s.(rec := rec));
  }

  lemma AcquireKeepsLeases(s: Sys, s': Sys, step: Step)
    requires LeaseInv(s) && step.Acquire? && step.sid !in s.leases && CanAcquire(s.rec, step.owner, step.clock)
    requires s'.rec == AcquireLease(s.rec, step.owner, step.ttl, step.clock) && s'.crews == s.crews
    requires s'.leases == s.leases[step.sid := s'.rec.lease.value] && s'.writes == s.writes
    requires s'.sessions == s.sessions[step.sid := Session(false, 0, Quiet)]
    requires s'.granted == s.granted + [s'.rec.epochCounter]
    ensures LeaseInv(s') && forall t :: Current(s', t) && t in s.sessions ==> Current(s, t)
  {
    Leases.Acquired(s.rec, s.leases, s.granted, s.writes, step.sid, step.owner, step.ttl, step.clock);
  }

  lemma AcquireKeepsInv(cfg: Config, s: Sys, step: Step)
    requires Inv(cfg, s) && step.Acquire?
    ensures Inv(cfg, Apply(cfg, s, step))
  {
    if step.sid in s.leases || step.sid in s.sessions || !CanAcquire(s.rec, step.owner, step.clock) { return; }
    var rec := AcquireLease(s.rec, step.owner, step.ttl, step.clock);
    var s' := s.(rec := rec, leases := s.leases[step.sid := rec.lease.value],
                 sessions := s.sessions[step.sid := Session(false, 0, Quiet)],
                 granted := s.granted + [rec.epochCounter]);
    assert Apply(cfg, s, step) == s';
    AcquireKeepsLeases(s, s', step);
    QuietStep(cfg, s, s');
  }

  lemma LeaseStepKeepsInv(cfg: Config, s: Sys, step: Step)
    requires Inv(cfg, s) && (step.Acquire? || step.Renew? || step.Release? || step.Crash?)
    ensures Inv(cfg, Apply(cfg, s, step))
  {
    match step
    case Acquire(_, _, _, _) => AcquireKeepsInv(cfg, s, step);
    case Renew(sid, ttl, clock) => if Has(s, sid) { RenewKeepsInv(cfg, s, sid, ttl, clock); }
    case Release(sid) => if Has(s, sid) { LeaveKeepsInv(cfg, s, sid, ReleaseLease(s.rec, s.leases[sid])); }
    case Crash(sid) => if sid in s.leases { CrashKeepsInv(cfg, s, sid); } else { LeaveKeepsInv(cfg, s, sid, s.rec); }
  }

  // ---- all runs -------------------------------------------------------------------------------

  lemma FailStepKeepsInv(cfg: Config, s: Sys, step: Step)
    requires Inv(cfg, s) && (step.Record? || step.Park?)
    ensures Inv(cfg, Apply(cfg, s, step))
  {
    if !HasGroup(s, step.crew, step.key) { return; }
    match step
    case Record(c, key, error, retryAt) => RecordKeepsInv(cfg, s, c, key, error, retryAt);
    case Park(c, key, now) => ParkKeepsInv(cfg, s, c, key, now);
  }

  lemma AckStepKeepsInv(cfg: Config, s: Sys, step: Step)
    requires Inv(cfg, s) && (step.Ack? || step.AckLost?)
    ensures Inv(cfg, Apply(cfg, s, step))
  {
    if !HasGroup(s, step.crew, step.key) || GroupOf(s, step.crew, step.key).phase != Finished(true) { return; }
    if step.Ack? { AckKeepsInv(cfg, s, step.crew, step.key); } else { AckLostKeepsInv(cfg, s, step.crew, step.key); }
  }

  lemma CommitStepKeepsInv(cfg: Config, s: Sys, step: Step)
    requires Inv(cfg, s) && step.Commit?
    ensures Inv(cfg, Apply(cfg, s, step))
  {
    var sid := step.sid;
    if !Has(s, sid) || !CanCommit(s, s.sessions[sid], step.rows, step.invalid) { return; }
    if Current(s, sid) {
      CommitKeepsInv(cfg, s, sid, step.rows, step.invalid, step.now);
    } else {
      LeaveKeepsInv(cfg, s, sid, s.rec);
    }
  }

  lemma StepKeepsInv(cfg: Config, s: Sys, step: Step)
    requires Inv(cfg, s)
    ensures Inv(cfg, Apply(cfg, s, step))
  {
    match step
    case Acquire(_, _, _, _) => LeaseStepKeepsInv(cfg, s, step);
    case Renew(_, _, _) => LeaseStepKeepsInv(cfg, s, step);
    case Release(_) => LeaseStepKeepsInv(cfg, s, step);
    case Crash(_) => LeaseStepKeepsInv(cfg, s, step);
    case LoadState(_) => DrainStepKeepsInv(cfg, s, step);
    case Commit(_, _, _, _) => CommitStepKeepsInv(cfg, s, step);
    case CommitFails(_, _) => DrainStepKeepsInv(cfg, s, step);
    case LoadPending(_, _, _) => DrainStepKeepsInv(cfg, s, step);
    case LoadHeld(sid, c) => LoadHeldKeepsInv(cfg, s, sid, c);
    case Start(_, _) => WorkerStepKeepsInv(cfg, s, step);
    case Finish(_, _, _) => WorkerStepKeepsInv(cfg, s, step);
    case AckError(_, _) => WorkerStepKeepsInv(cfg, s, step);
    case Abandon(_, _) => WorkerStepKeepsInv(cfg, s, step);
    case Ack(_, _) => AckStepKeepsInv(cfg, s, step);
    case AckLost(_, _) => AckStepKeepsInv(cfg, s, step);
    case Record(_, _, _, _) => FailStepKeepsInv(cfg, s, step);
    case Park(_, _, _) => FailStepKeepsInv(cfg, s, step);
    case EndPass(_) => DrainStepKeepsInv(cfg, s, step);
    case DrainThrows(sid, left) => ThrowKeepsInv(cfg, s, sid, left);
    case Retry(ids) => RetryKeepsInv(cfg, s, ids);
    case Discard(ids) => DiscardKeepsInv(cfg, s, ids);
  }

  lemma {:induction false} RunKeepsInv(cfg: Config, s: Sys, steps: seq<Step>)
    requires Init(s)
    ensures Inv(cfg, Run(cfg, s, steps))
  {
    if steps == [] {
    } else {
      RunKeepsInv(cfg, s, steps[..|steps| - 1]);
      StepKeepsInv(cfg, Run(cfg, s, steps[..|steps| - 1]), steps[|steps| - 1]);
    }
  }

  /** Whatever the interleaving, a committed event is pending, parked, or an event of the same id was
      completed by the consumer or discarded by an administrator. */
  lemma AtLeastOnce(cfg: Config, s: Sys, steps: seq<Step>, q: nat)
    requires Init(s) && q in Run(cfg, s, steps).committed
    ensures
      var s' := Run(cfg, s, steps);
      var id := s'.committed[q].id;
      || (id in s'.rec.outbox && s'.rec.outbox[id].status == Pending && s'.rec.outbox[id].event.id == id)
      || (id in s'.rec.parked && s'.rec.parked[id].event.Some? && s'.rec.parked[id].event.value.id == id)
      || (exists p :: p in s'.committed && s'.committed[p].id == id && (p in s'.delivered || p in s'.discarded))
  {
    RunKeepsInv(cfg, s, steps);
    var s' := Run(cfg, s, steps);
    assert Accounted(s'.rec, s'.committed, s'.delivered + s'.discarded, s'.committed[q].id);
  }
}
