/** Order of acks within one ordering key, when no worker outlives its drain: at any time at most one crew
    can write, and what its workers know of the stored rows keeps the acks in sequence order. */
module AckOrder {
  import opened Store
  import opened Pages
  import opened Delivery
  import opened Ordering
  import Conservation
  import Leases

  predicate Outstanding(committed: map<nat, Event>, rec: KeyRecord, q: nat) {
    PendingSeq(committed, rec.outbox, q) || ParkedSeq(committed, rec.parked, q)
  }

  /** What has happened so far; `strict` if no reply to an ack was lost. */
  datatype History = History(committed: map<nat, Event>, done: set<nat>, acked: seq<nat>, strict: bool)

  function Hist(s: Sys, strict: bool): History { History(s.committed, s.delivered + s.discarded, s.acked, strict) }

  predicate Precedes(h: History, p: nat, q: nat) { if h.strict then p < q else p <= q }

  ghost predicate AcksOrdered(cfg: Config, h: History) {
    && (forall p :: p in h.acked ==> p in h.committed)
    && (forall i, j :: 0 <= i < j < |h.acked| && SameKey(cfg, h.committed, h.acked[i], h.acked[j]) ==>
        Precedes(h, h.acked[i], h.acked[j]))
  }

  ghost predicate AcksBelow(cfg: Config, h: History, rec: KeyRecord) {
    forall p, q :: p in h.acked && Outstanding(h.committed, rec, q) && SameKey(cfg, h.committed, p, q) ==>
        Precedes(h, p, q)
  }

  ghost predicate AckRec(cfg: Config, h: History, rec: KeyRecord) {
    SeqsAccounted(h.committed, h.done, rec) && AcksOrdered(cfg, h) && AcksBelow(cfg, h, rec)
  }

  /** The session that holds the lease also knows that its rows are still stored, with every pending
      smaller sequence of their key among them, and that no parked event holds a key it works on. */
  ghost predicate Live(cfg: Config, committed: map<nat, Event>, outbox: map<string, OutboxRow>, rows: seq<OutboxRow>) {
    && (forall r :: r in rows ==> r.eventId in outbox && outbox[r.eventId].sequence == r.sequence)
    && (forall r, q :: r in rows && Earlier(cfg, committed, r, q) && PendingSeq(committed, outbox, q) ==>
        HasSeq(rows, q))
  }

  /** The ack of the head was applied and its reply lost: the row is gone, and no later event of the key was acked. */
  ghost predicate Lost(cfg: Config, h: History, rec: KeyRecord, g: Group) {
    && !h.strict && g.phase == Finished(false) && g.rows != []
    && g.rows[0].eventId !in rec.outbox && g.rows[0].eventId !in rec.parked && g.rows[0].sequence in h.done
    && forall p :: p in h.acked && SameKey(cfg, h.committed, p, g.rows[0].sequence) ==> p <= g.rows[0].sequence
  }

  ghost predicate Works(cfg: Config, h: History, rec: KeyRecord, g: Group) {
    || Live(cfg, h.committed, rec.outbox, g.rows)
    || (Lost(cfg, h, rec, g) && Live(cfg, h.committed, rec.outbox, g.rows[1..]))
  }

  ghost predicate GroupsWork(cfg: Config, h: History, rec: KeyRecord, groups: map<string, Group>) {
    && (forall k :: k in groups ==> Works(cfg, h, rec, groups[k]) && Unheld(rec.parked, k))
    && (forall k, l :: k in groups && l in groups && k != l ==>
          Lost(cfg, h, rec, groups[k]) && Lost(cfg, h, rec, groups[l]) ==>
            groups[k].rows[0].eventId != groups[l].rows[0].eventId)
  }

  /** What the session that holds the lease knows. */
  ghost predicate HolderOrd(cfg: Config, h: History, rec: KeyRecord, d: Drain, crews: map<nat, Crew>) {
    && (d.Loading? ==> Live(cfg, h.committed, rec.outbox, d.rows))
    && (d.Draining? ==> d.crew in crews && GroupsWork(cfg, h, rec, crews[d.crew].groups))
  }

  predicate Mans(s: Sys, sid: nat, c: nat) { Has(s, sid) && s.sessions[sid].drain == Draining(c) }

  /** Workers that can still write belong to the drain of their session. */
  ghost predicate Alone(s: Sys) {
    forall c :: Manned(s, c) && s.crews[c].groups != map[] ==> exists sid :: Mans(s, sid, c)
  }

  ghost predicate Inv(cfg: Config, s: Sys, strict: bool) {
    && AckRec(cfg, Hist(s, strict), s.rec) && Alone(s)
    && (forall sid :: sid in s.sessions && Current(s, sid) ==>
          HolderOrd(cfg, Hist(s, strict), s.rec, s.sessions[sid].drain, s.crews))
  }

  /** Nobody new can write, and who still can stays with its session. */
  lemma StaysAlone(s: Sys, s': Sys)
    requires Alone(s)
    requires forall c :: Manned(s', c) && s'.crews[c].groups != map[] ==> Manned(s, c) && s.crews[c].groups != map[]
    requires forall t, c :: Manned(s', c) && Mans(s, t, c) ==> Mans(s', t, c)
    ensures Alone(s')
  {
    forall c | Manned(s', c) && s'.crews[c].groups != map[] ensures exists t :: Mans(s', t, c) {
      var t :| Mans(s, t, c);
      assert Mans(s', t, c);
    }
  }

  /** All that is known of a state. */
  ghost predicate Known(cfg: Config, s: Sys, strict: bool) {
    Conservation.Inv(cfg, s) && Ordering.Inv(cfg, s) && Inv(cfg, s, strict)
  }

  /** The crew at work is that of the session that holds the lease. */
  lemma Sole(cfg: Config, s: Sys, strict: bool, c: nat) returns (sid: nat)
    requires Known(cfg, s, strict) && Manned(s, c) && s.crews[c].groups != map[]
    ensures Mans(s, sid, c) && Current(s, sid) && GroupsWork(cfg, Hist(s, strict), s.rec, s.crews[c].groups)
    ensures forall t :: Current(s, t) ==> t == sid
  {
    sid :| Mans(s, sid, c);
    assert s.crews[c].lease == s.leases[sid];
    forall t | Current(s, t) ensures t == sid { Leases.Exclusive(s.rec, s.leases, s.granted, s.writes, sid, t); }
  }

  // ---- steps that leave the record alone ------------------------------------------------------

  lemma WorksGrow(cfg: Config, h: History, done: set<nat>, rec: KeyRecord, groups: map<string, Group>)
    requires GroupsWork(cfg, h, rec, groups) && h.done <= done
    ensures GroupsWork(cfg, h.(done := done), rec, groups)
  {
    forall k | k in groups
      ensures Works(cfg, h.(done := done), rec, groups[k])
      ensures Lost(cfg, h.(done := done), rec, groups[k]) ==> Lost(cfg, h, rec, groups[k])
    {
      assert Works(cfg, h, rec, groups[k]);
      assert groups[k].rows != [] ==> groups[k].rows[0] in groups[k].rows;
    }
  }

  lemma HolderGrows(cfg: Config, h: History, done: set<nat>, rec: KeyRecord, d: Drain, crews: map<nat, Crew>)
    requires HolderOrd(cfg, h, rec, d, crews) && h.done <= done
    ensures HolderOrd(cfg, h.(done := done), rec, d, crews)
  {
    if d.Draining? { WorksGrow(cfg, h, done, rec, crews[d.crew].groups); }
  }

  lemma LocalStep(cfg: Config, s: Sys, strict: bool, sid: nat, x: Session)
    requires Inv(cfg, s, strict) && Has(s, sid)
    requires forall c :: Manned(s, c) && s.crews[c].groups != map[] && Mans(s, sid, c) ==> x.drain == Draining(c)
    requires Current(s, sid) ==> HolderOrd(cfg, Hist(s, strict), s.rec, x.drain, s.crews)
    ensures Inv(cfg, Put(s, sid, x), strict)
  {
    var s' := Put(s, sid, x);
    forall c | Manned(s', c) && s'.crews[c].groups != map[] ensures exists t :: Mans(s', t, c) {
      assert Manned(s, c);
      var t :| Mans(s, t, c);
      assert Mans(s', t, c);
    }
    forall t | t in s'.sessions && Current(s', t)
      ensures HolderOrd(cfg, Hist(s', strict), s'.rec, s'.sessions[t].drain, s'.crews)
    {
      assert Current(s, t);
    }
  }

  /** The groups of a crew change and nothing is stored. */
  lemma CrewStep(cfg: Config, s: Sys, strict: bool, c: nat, groups: map<string, Group>, delivered: set<nat>)
    requires Inv(cfg, s, strict) && c in s.crews && s.delivered <= delivered
    requires Manned(s, c) && groups != map[] ==> s.crews[c].groups != map[]
    requires (exists sid :: Mans(s, sid, c) && Current(s, sid)) ==>
               GroupsWork(cfg, Hist(s.(delivered := delivered), strict), s.rec, groups)
    ensures Inv(cfg, PutGroups(s, c, groups).(delivered := delivered), strict)
  {
    var s' := PutGroups(s, c, groups).(delivered := delivered);
    StaysAlone(s, s');
    forall t | t in s'.sessions && Current(s', t)
      ensures HolderOrd(cfg, Hist(s', strict), s'.rec, s'.sessions[t].drain, s'.crews)
    {
      assert Current(s, t);
      HolderGrows(cfg, Hist(s, strict), delivered + s.discarded, s.rec, s.sessions[t].drain, s.crews);
      if s.sessions[t].drain == Draining(c) && t in s.leases { assert Mans(s, t, c); }
    }
  }

  /** One group of a drain changes: its rows go, or it stays live. */
  lemma GroupMoves(cfg: Config, h: History, rec: KeyRecord, groups: map<string, Group>, key: string, g: Group)
    requires GroupsWork(cfg, h, rec, groups) && key in groups && groups[key].phase != Finished(false)
    requires g.rows == groups[key].rows
    ensures GroupsWork(cfg, h, rec, groups[key := g])
  {
    assert Works(cfg, h, rec, groups[key]);
    assert Live(cfg, h.committed, rec.outbox, g.rows);
    assert g.rows != [] ==> g.rows[0] in g.rows;
    assert !Lost(cfg, h, rec, g);
  }

  lemma Dropped(cfg: Config, h: History, rec: KeyRecord, groups: map<string, Group>, groups': map<string, Group>)
    requires GroupsWork(cfg, h, rec, groups) && forall k :: k in groups' ==> k in groups && groups'[k] == groups[k]
    ensures GroupsWork(cfg, h, rec, groups')
  {
  }

  lemma GroupStep(cfg: Config, s: Sys, strict: bool, c: nat, key: string, g: Group, delivered: set<nat>)
    requires Inv(cfg, s, strict) && HasGroup(s, c, key) && s.delivered <= delivered
    requires g.rows == [] || (GroupOf(s, c, key).phase != Finished(false) && g.rows == GroupOf(s, c, key).rows)
    ensures Inv(cfg, SetGroup(s, c, key, g).(delivered := delivered), strict)
  {
    var groups, h := s.crews[c].groups, Hist(s.(delivered := delivered), strict);
    if exists sid :: Mans(s, sid, c) && Current(s, sid) {
      var sid :| Mans(s, sid, c) && Current(s, sid);
      assert HolderOrd(cfg, Hist(s, strict), s.rec, s.sessions[sid].drain, s.crews);
      WorksGrow(cfg, Hist(s, strict), delivered + s.discarded, s.rec, groups);
      if g.rows == [] { Dropped(cfg, h, s.rec, groups, groups - {key}); }
      else { GroupMoves(cfg, h, s.rec, groups, key, g); }
    }
    CrewStep(cfg, s, strict, c, WithGroup(groups, key, g), delivered);
  }

  // ---- reading the pending rows, then the held keys -------------------------------------------

  lemma PendingIsLive(cfg: Config, committed: map<nat, Event>, rec: KeyRecord, limit: nat, rows: seq<OutboxRow>)
    requires Conservation.OutboxOk(committed, rec.outbox) && IsPendingPrefix(rec.outbox, limit, rows)
    ensures Live(cfg, committed, rec.outbox, rows)
  {
    forall i, q | 0 <= i < |rows| && Earlier(cfg, committed, rows[i], q) && PendingSeq(committed, rec.outbox, q)
      ensures HasSeq(rows, q)
    {
      PendingHas(committed, rec.outbox, limit, rows, i, q);
    }
  }

  lemma LoadPendingKeepsInv(cfg: Config, s: Sys, strict: bool, step: Step)
    requires Known(cfg, s, strict) && step.LoadPending?
    ensures Inv(cfg, Apply(cfg, s, step), strict)
  {
    if Apply(cfg, s, step) == s { return; }
    PendingIsLive(cfg, s.committed, s.rec, step.limit, step.rows);
    LocalStep(cfg, s, strict, step.sid, s.sessions[step.sid].(drain := Loading(step.rows)));
  }

  lemma LoadedWork(cfg: Config, h: History, rec: KeyRecord, rows: seq<OutboxRow>)
    requires Conservation.RowsOk(h.committed, rows) && Live(cfg, h.committed, rec.outbox, rows)
    ensures GroupsWork(cfg, h, rec, GroupsOf(cfg, rows, HeldKeys(rec)))
  {
    var groups := GroupsOf(cfg, rows, HeldKeys(rec));
    forall k | k in groups ensures Live(cfg, h.committed, rec.outbox, groups[k].rows) && Unheld(rec.parked, k) {
      RowsOfFacts(cfg, h.committed, rows, k);
      NotHeld(rec, k);
    }
  }

  lemma LoadHeldAlone(cfg: Config, s: Sys, sid: nat, c: nat)
    requires Alone(s) && Has(s, sid) && s.sessions[sid].drain.Loading? && c !in s.crews
    ensures Alone(Apply(cfg, s, LoadHeld(sid, c)))
  {
    var s' := Apply(cfg, s, LoadHeld(sid, c));
    assert Mans(s', sid, c);
    forall d | Manned(s', d) && s'.crews[d].groups != map[] && d != c ensures exists t :: Mans(s', t, d) {
      assert Manned(s, d);
      var t :| Mans(s, t, d);
      assert Mans(s', t, d);
    }
  }

  lemma LoadHeldKeepsInv(cfg: Config, s: Sys, strict: bool, sid: nat, c: nat)
    requires Known(cfg, s, strict)
    ensures Inv(cfg, Apply(cfg, s, LoadHeld(sid, c)), strict)
  {
    if !Has(s, sid) || !s.sessions[sid].drain.Loading? || c in s.crews { return; }
    var rows, h, s' := s.sessions[sid].drain.rows, Hist(s, strict), Apply(cfg, s, LoadHeld(sid, c));
    LoadHeldAlone(cfg, s, sid, c);
    forall t | t in s'.sessions && Current(s', t) ensures HolderOrd(cfg, h, s.rec, s'.sessions[t].drain, s'.crews) {
      assert Current(s, t);
      assert HolderOrd(cfg, h, s.rec, s.sessions[t].drain, s.crews);
      if t == sid { LoadedWork(cfg, h, s.rec, rows); }
    }
  }

  lemma RestrictNone(groups: map<string, Group>, left: set<string>)
    requires left == {}
    ensures Restrict(groups, left) == map[]
  {
  }

  lemma ThrowKeepsInv(cfg: Config, s: Sys, strict: bool, sid: nat, left: set<string>)
    requires Known(cfg, s, strict) && left == {}
    ensures Inv(cfg, Throwing(s, sid, left), strict)
  {
    if !Has(s, sid) { return; }
    if Drains(s, sid) {
      var c := s.sessions[sid].drain.crew;
      RestrictNone(s.crews[c].groups, left);
      CrewStep(cfg, s, strict, c, map[], s.delivered);
      var s1 := PutGroups(s, c, map[]);
      LocalStep(cfg, s1, strict, sid, s.sessions[sid].(drain := Quiet));
      assert Throwing(s, sid, left) == Put(s1, sid, s.sessions[sid].(drain := Quiet));
    } else {
      LocalStep(cfg, s, strict, sid, s.sessions[sid].(drain := Quiet));
    }
  }

  lemma SessionStepKeepsInv(cfg: Config, s: Sys, strict: bool, step: Step)
    requires Known(cfg, s, strict) && (step.EndPass? || step.LoadState? || step.CommitFails?)
    ensures Inv(cfg, Apply(cfg, s, step), strict)
  {
    var s' := Apply(cfg, s, step);
    if s' == s { return; }
    if Current(s, step.sid) { assert HolderOrd(cfg, Hist(s, strict), s.rec, s.sessions[step.sid].drain, s.crews); }
    LocalStep(cfg, s, strict, step.sid, s'.sessions[step.sid]);
  }

  lemma WorkerStepKeepsInv(cfg: Config, s: Sys, strict: bool, step: Step)
    requires Inv(cfg, s, strict) && (step.Start? || step.Finish? || step.AckError? || step.Abandon?)
    ensures Inv(cfg, Apply(cfg, s, step), strict)
  {
    if !HasGroup(s, step.crew, step.key) { return; }
    var g := GroupOf(s, step.crew, step.key);
    match step
    case Start(c, key) => if g.phase.Ready? { GroupStep(cfg, s, strict, c, key, g.(phase := InFlight), s.delivered); }
    case Finish(c, key, ok) =>
      if g.phase.InFlight? {
        var delivered := if ok then s.delivered + {g.rows[0].sequence} else s.delivered;
        GroupStep(cfg, s, strict, c, key, g.(phase := Finished(ok)), delivered);
      }
    case AckError(c, key) =>
      if g.phase == Finished(true) { GroupStep(cfg, s, strict, c, key, g.(phase := Finished(false)), s.delivered); }
    case Abandon(c, key) => GroupStep(cfg, s, strict, c, key, Group([], Ready), s.delivered);
  }

  // ---- fenced calls of a worker ---------------------------------------------------------------

  lemma MoveStaysAlone(s: Sys, c: nat, key: string, rec: KeyRecord, g: Group, acked: seq<nat>)
    requires Alone(s) && HasGroup(s, c, key) && rec.lease == s.rec.lease
    ensures Alone(SetGroup(Moved(s, c, rec).(acked := acked), c, key, g))
  {
    StaysAlone(s, SetGroup(Moved(s, c, rec).(acked := acked), c, key, g));
  }

  /** The crew at work moves the record and one of its groups. */
  lemma MoveKeepsInv(cfg: Config, s: Sys, strict: bool, c: nat, key: string, rec: KeyRecord, g: Group, acked: seq<nat>)
    requires Known(cfg, s, strict) && HasGroup(s, c, key) && Manned(s, c) && rec.lease == s.rec.lease
    requires AckRec(cfg, Hist(s.(acked := acked), strict), rec)
    requires GroupsWork(cfg, Hist(s.(acked := acked), strict), rec, WithGroup(s.crews[c].groups, key, g))
    ensures Inv(cfg, SetGroup(Moved(s, c, rec).(acked := acked), c, key, g), strict)
  {
    var sid := Sole(cfg, s, strict, c);
    var s' := SetGroup(Moved(s, c, rec).(acked := acked), c, key, g);
    MoveStaysAlone(s, c, key, rec, g, acked);
    forall t | t in s'.sessions && Current(s', t)
      ensures HolderOrd(cfg, Hist(s', strict), s'.rec, s'.sessions[t].drain, s'.crews)
    {
      assert Current(s, t);
    }
  }

  /** What the holder knows about the row at the head of a group, unless its ack was lost. */
  ghost predicate HeadOk(cfg: Config, committed: map<nat, Event>, rec: KeyRecord, key: string, rows: seq<OutboxRow>) {
    && rows != [] && Ascending(rows) && Conservation.RowsOk(committed, rows) && (forall r :: r in rows ==>
        cfg.key(r.event) == key)
    && Live(cfg, committed, rec.outbox, rows) && Unheld(rec.parked, key)
    && Conservation.OutboxOk(committed, rec.outbox) && Conservation.ParkedOk(cfg, committed, rec.parked)
  }

  lemma GroupFacts(cfg: Config, s: Sys, strict: bool, c: nat, key: string)
    requires Known(cfg, s, strict) && HasGroup(s, c, key) && Manned(s, c)
    ensures GroupsWork(cfg, Hist(s, strict), s.rec, s.crews[c].groups)
    ensures Conservation.GroupsOk(cfg, s.committed, s.delivered, s.crews[c].groups)
    ensures
      var g := GroupOf(s, c, key);
      || Lost(cfg, Hist(s, strict), s.rec, g)
      || HeadOk(cfg, s.committed, s.rec, key, g.rows)
  {
    var sid := Sole(cfg, s, strict, c);
    Ordering.GroupFacts(cfg, s, c, key);
    assert Works(cfg, Hist(s, strict), s.rec, GroupOf(s, c, key));
  }

  /** Every other outstanding event of the head's key comes after it. */
  lemma HeadIsFirst(cfg: Config, committed: map<nat, Event>, rec: KeyRecord, key: string, rows: seq<OutboxRow>, q: nat)
    requires cfg.holdKey && HeadOk(cfg, committed, rec, key, rows)
    requires Outstanding(committed, rec, q) && cfg.key(committed[q]) == key
    ensures rows[0].sequence <= q
  {
    assert rows[0] in rows;
    assert !ParkedSeq(committed, rec.parked, q);
    assert PendingSeq(committed, rec.outbox, q);
    assert forall r :: r in rows ==> rows[0].sequence <= r.sequence;
    assert Earlier(cfg, committed, rows[0], q) ==> HasSeq(rows, q);
  }

  /** One more ack, of an outstanding event, keeps the acks in order. */
  lemma AcksGrow(cfg: Config, h: History, rec: KeyRecord, q: nat)
    requires AcksOrdered(cfg, h) && AcksBelow(cfg, h, rec) && Outstanding(h.committed, rec, q)
    ensures AcksOrdered(cfg, h.(acked := h.acked + [q]))
    ensures forall p :: p in h.acked + [q] && SameKey(cfg, h.committed, p, q) ==> p <= q
  {
    var all := h.acked + [q];
    forall i, j | 0 <= i < j < |all| && SameKey(cfg, h.committed, all[i], all[j]) ensures Precedes(h, all[i], all[j]) {
      if j == |h.acked| { assert h.acked[i] in h.acked; }
    }
  }

  lemma AckKeepsOrder(cfg: Config, h: History, rec: KeyRecord, key: string, rows: seq<OutboxRow>)
    requires cfg.holdKey && HeadOk(cfg, h.committed, rec, key, rows) && AckRec(cfg, h, rec)
    requires rows[0].sequence in h.done
    ensures AckRec(cfg, h.(acked := h.acked + [rows[0].sequence]), AckEvents(rec, [rows[0].eventId]))
    ensures forall p :: p in h.acked + [rows[0].sequence] && SameKey(cfg, h.committed, p, rows[0].sequence) ==>
              p <= rows[0].sequence
  {
    var row := rows[0];
    assert row in rows;
    var rec', h' := AckEvents(rec, [row.eventId]), h.(acked := h.acked + [row.sequence]);
    assert Elems([row.eventId]) == {row.eventId};
    assert PendingSeq(h.committed, rec.outbox, row.sequence);
    forall q | Outstanding(h.committed, rec', q) && cfg.key(h.committed[q]) == key ensures row.sequence < q {
      HeadIsFirst(cfg, h.committed, rec, key, rows, q);
    }
    AcksGrow(cfg, h, rec, row.sequence);
    forall q | Outstanding(h.committed, rec', q) ensures Outstanding(h.committed, rec, q) {}
  }

  lemma LiveTail(cfg: Config, committed: map<nat, Event>, rec: KeyRecord, key: string, rows: seq<OutboxRow>)
    requires HeadOk(cfg, committed, rec, key, rows)
    ensures Live(cfg, committed, rec.outbox - {rows[0].eventId}, rows[1..])
  {
    TailFacts(rows);
    var rest, outbox' := rows[1..], rec.outbox - {rows[0].eventId};
    assert rows[0] in rows;
    forall r | r in rest ensures r.eventId in outbox' && outbox'[r.eventId].sequence == r.sequence {}
    forall r, q | r in rest && Earlier(cfg, committed, r, q) && PendingSeq(committed, outbox', q)
      ensures HasSeq(rest, q) {
      assert r in rows && PendingSeq(committed, rec.outbox, q);
    }
  }

  /** How a worker's call moves the record, seen from a group of another key. */
  ghost predicate Apart(cfg: Config, h: History, h': History, rec: KeyRecord, rec': KeyRecord, key: string,
                        row: OutboxRow) {
    && h'.committed == h.committed && h'.done == h.done && h'.strict == h.strict && cfg.key(row.event) == key
    && (h'.acked == h.acked || (h'.acked == h.acked + [row.sequence] && row.sequence in h.committed &&
        h.committed[row.sequence] == row.event))
    && rec'.outbox == rec.outbox - {row.eventId}
    && (rec'.parked == rec.parked ||
        (rec'.parked.Keys == rec.parked.Keys + {row.eventId} &&
         forall k :: Unheld(rec.parked, k) && k != key ==> Unheld(rec'.parked, k)))
  }

  /** Rows of another key stay live. */
  lemma RowsApart(cfg: Config, committed: map<nat, Event>, rec: KeyRecord, rec': KeyRecord, key: string,
                  row: OutboxRow, k: string, others: seq<OutboxRow>)
    requires rec'.outbox == rec.outbox - {row.eventId} && k != key && cfg.key(row.event) == key
    requires row.eventId in rec.outbox ==>
        && rec.outbox[row.eventId].sequence == row.sequence
        && row.sequence in committed && committed[row.sequence] == row.event
    requires Conservation.RowsOk(committed, others) && (forall r :: r in others ==> cfg.key(r.event) == k)
    requires Live(cfg, committed, rec.outbox, others)
    ensures Live(cfg, committed, rec'.outbox, others)
  {
  }

  /** A group of another key goes on working. */
  lemma WorksApart(cfg: Config, h: History, h': History, rec: KeyRecord, rec': KeyRecord, key: string, row: OutboxRow,
                   k: string, g: Group)
    requires Apart(cfg, h, h', rec, rec', key, row) && k != key && Works(cfg, h, rec, g)
    requires row.eventId in rec.outbox ==>
        && rec.outbox[row.eventId].sequence == row.sequence
        && row.sequence in h.committed && h.committed[row.sequence] == row.event
    requires Conservation.RowsOk(h.committed, g.rows) && (forall r :: r in g.rows ==> cfg.key(r.event) == k)
    requires Lost(cfg, h, rec, g) ==> g.rows[0].eventId != row.eventId
    ensures Works(cfg, h', rec', g)
    ensures Lost(cfg, h', rec', g) ==> Lost(cfg, h, rec, g)
  {
    if Live(cfg, h.committed, rec.outbox, g.rows) {
      RowsApart(cfg, h.committed, rec, rec', key, row, k, g.rows);
      assert g.rows != [] ==> g.rows[0] in g.rows && g.rows[0].eventId in rec'.outbox;
    } else {
      RowsApart(cfg, h.committed, rec, rec', key, row, k, g.rows[1..]);
      assert g.rows[0] in g.rows;
    }
  }

  /** What the move leaves of a group of another key. */
  ghost predicate StaysApart(cfg: Config, h: History, h': History, rec: KeyRecord, rec': KeyRecord, row: OutboxRow,
                             k: string, g: Group) {
    && Works(cfg, h', rec', g) && Unheld(rec'.parked, k)
    && (Lost(cfg, h', rec', g) ==> Lost(cfg, h, rec, g) && g.rows[0].eventId != row.eventId)
  }

  lemma OthersStay(cfg: Config, s: Sys, strict: bool, c: nat, key: string, rec: KeyRecord, acked: seq<nat>, k: string)
    requires Known(cfg, s, strict) && HasGroup(s, c, key) && Manned(s, c) && k in s.crews[c].groups && k != key
    requires Apart(cfg, Hist(s, strict), Hist(s.(acked := acked), strict), s.rec, rec, key, GroupOf(s, c, key).rows[0])
    ensures StaysApart(cfg, Hist(s, strict), Hist(s.(acked := acked), strict), s.rec, rec,
                       GroupOf(s, c, key).rows[0], k, s.crews[c].groups[k])
  {
    GroupFacts(cfg, s, strict, c, key);
    Ordering.GroupFacts(cfg, s, c, key);
    var gs := s.crews[c].groups;
    OthersDiffer(cfg, Hist(s, strict), s.rec, gs, key, k);
    StoredIsRow(cfg, s.committed, s.rec, gs[key].rows[0]);
    WorksApart(cfg, Hist(s, strict), Hist(s.(acked := acked), strict), s.rec, rec, key, gs[key].rows[0], k, gs[k]);
  }

  lemma GroupsReplaced(cfg: Config, h: History, h': History, rec: KeyRecord, rec': KeyRecord, gs: map<string, Group>,
                       key: string, row: OutboxRow, g: Group)
    requires GroupsWork(cfg, h, rec, gs)
    requires forall k :: k in gs && k != key ==> StaysApart(cfg, h, h', rec, rec', row, k, gs[k])
    requires g.rows == [] || (Works(cfg, h', rec', g) && Unheld(rec'.parked, key))
    requires Lost(cfg, h', rec', g) ==> g.rows[0].eventId == row.eventId
    ensures GroupsWork(cfg, h', rec', WithGroup(gs, key, g))
  {
  }

  /** A worker's call on the head of its group keeps what is known of all groups. */
  lemma GroupsMove(cfg: Config, s: Sys, strict: bool, c: nat, key: string, rec: KeyRecord, g: Group, acked: seq<nat>)
    requires Known(cfg, s, strict) && HasGroup(s, c, key) && Manned(s, c)
    requires Apart(cfg, Hist(s, strict), Hist(s.(acked := acked), strict), s.rec, rec, key, GroupOf(s, c, key).rows[0])
    requires g.rows == [] || (Works(cfg, Hist(s.(acked := acked), strict), rec, g) && Unheld(rec.parked, key))
    requires Lost(cfg, Hist(s.(acked := acked), strict), rec, g) ==>
               g.rows[0].eventId == GroupOf(s, c, key).rows[0].eventId
    ensures GroupsWork(cfg, Hist(s.(acked := acked), strict), rec, WithGroup(s.crews[c].groups, key, g))
  {
    var gs, row := s.crews[c].groups, GroupOf(s, c, key).rows[0];
    forall k | k in gs && k != key
      ensures StaysApart(cfg, Hist(s, strict), Hist(s.(acked := acked), strict), s.rec, rec, row, k, gs[k])
    {
      OthersStay(cfg, s, strict, c, key, rec, acked, k);
    }
    GroupFacts(cfg, s, strict, c, key);
    GroupsReplaced(cfg, Hist(s, strict), Hist(s.(acked := acked), strict), s.rec, rec, gs, key, row, g);
  }

  /** The head of a lost group is not the head of another group. */
  lemma OthersDiffer(cfg: Config, h: History, rec: KeyRecord, gs: map<string, Group>, key: string, k: string)
    requires GroupsWork(cfg, h, rec, gs) && key in gs && k in gs && k != key && gs[key].rows != []
    ensures Lost(cfg, h, rec, gs[k]) ==> gs[k].rows[0].eventId != gs[key].rows[0].eventId
  {
    assert Works(cfg, h, rec, gs[key]) && gs[key].rows[0] in gs[key].rows;
  }

  lemma AckedHead(cfg: Config, s: Sys, strict: bool, c: nat, key: string)
    requires cfg.holdKey && Known(cfg, s, strict) && HasGroup(s, c, key) && Manned(s, c)
    requires GroupOf(s, c, key).phase == Finished(true)
    ensures
      var rows := GroupOf(s, c, key).rows;
      var rec, acked := AckEvents(s.rec, [rows[0].eventId]), s.acked + [rows[0].sequence];
      var h := Hist(s.(acked := acked), strict);
      && AckRec(cfg, h, rec) && rec.outbox == s.rec.outbox - {rows[0].eventId}
      && Live(cfg, s.committed, rec.outbox, rows[1..]) && Unheld(rec.parked, key)
      && Apart(cfg, Hist(s, strict), h, s.rec, rec, key, rows[0])
      && (!strict ==> Lost(cfg, h, rec, Group(rows, Finished(false))))
  {
    var rows := GroupOf(s, c, key).rows;
    GroupFacts(cfg, s, strict, c, key);
    Ordering.GroupFacts(cfg, s, c, key);
    assert Elems([rows[0].eventId]) == {rows[0].eventId};
    AckKeepsOrder(cfg, Hist(s, strict), s.rec, key, rows);
    LiveTail(cfg, s.committed, s.rec, key, rows);
  }

  lemma AckKeepsInv(cfg: Config, s: Sys, strict: bool, c: nat, key: string)
    requires cfg.holdKey && Known(cfg, s, strict) && HasGroup(s, c, key) && Manned(s, c)
    requires GroupOf(s, c, key).phase == Finished(true)
    ensures Inv(cfg, Acking(s, c, key), strict)
  {
    var rows := GroupOf(s, c, key).rows;
    var rec, acked, rest := AckEvents(s.rec, [rows[0].eventId]), s.acked + [rows[0].sequence], Group(rows[1..], Ready);
    AckedHead(cfg, s, strict, c, key);
    GroupsMove(cfg, s, strict, c, key, rec, rest, acked);
    MoveKeepsInv(cfg, s, strict, c, key, rec, rest, acked);
    assert Acking(s, c, key) == SetGroup(Moved(s, c, rec).(acked := acked), c, key, rest);
  }

  lemma AckLostKeepsInv(cfg: Config, s: Sys, c: nat, key: string)
    requires cfg.holdKey && Known(cfg, s, false) && HasGroup(s, c, key) && Manned(s, c)
    requires GroupOf(s, c, key).phase == Finished(true)
    ensures Inv(cfg, AckingLost(s, c, key), false)
  {
    var rows := GroupOf(s, c, key).rows;
    var rec, acked := AckEvents(s.rec, [rows[0].eventId]), s.acked + [rows[0].sequence];
    var failed := Group(rows, Finished(false));
    AckedHead(cfg, s, false, c, key);
    GroupsMove(cfg, s, false, c, key, rec, failed, acked);
    MoveKeepsInv(cfg, s, false, c, key, rec, failed, acked);
    assert AckingLost(s, c, key) == SetGroup(Moved(s, c, rec).(acked := acked), c, key, failed);
  }

  lemma ParkKeepsOrder(cfg: Config, h: History, rec: KeyRecord, key: string, rows: seq<OutboxRow>, now: int)
    requires HeadOk(cfg, h.committed, rec, key, rows) && AckRec(cfg, h, rec)
    ensures AckRec(cfg, h, ParkEvent(rec, ParkedOf(cfg, rows[0], now)))
  {
    var row := rows[0];
    assert row in rows;
    var rec' := ParkEvent(rec, ParkedOf(cfg, row, now));
    assert PendingSeq(h.committed, rec.outbox, row.sequence);
    forall q | q in h.committed ensures Outstanding(h.committed, rec', q) <==> Outstanding(h.committed, rec, q) {}
  }

  /** Parking an event whose ack was applied: it is outstanding again, and no later one of its key was acked. */
  lemma ParkLostKeepsOrder(cfg: Config, h: History, rec: KeyRecord, g: Group, now: int)
    requires Lost(cfg, h, rec, g) && AckRec(cfg, h, rec) && Conservation.RowOk(h.committed, g.rows[0])
    ensures AckRec(cfg, h, ParkEvent(rec, ParkedOf(cfg, g.rows[0], now)))
  {
    var row := g.rows[0];
    var rec' := ParkEvent(rec, ParkedOf(cfg, row, now));
    assert rec'.outbox == rec.outbox;
    forall q | q in h.committed && q != row.sequence
      ensures Outstanding(h.committed, rec', q) <==> Outstanding(h.committed, rec, q)
    {
    }
  }

  lemma ParkedHead(cfg: Config, s: Sys, strict: bool, c: nat, key: string, now: int)
    requires cfg.holdKey && Known(cfg, s, strict) && HasGroup(s, c, key) && Manned(s, c)
    ensures
      var row := GroupOf(s, c, key).rows[0];
      var rec := ParkEvent(s.rec, ParkedOf(cfg, row, now));
      AckRec(cfg, Hist(s, strict), rec) && Apart(cfg, Hist(s, strict), Hist(s, strict), s.rec, rec, key, row)
  {
    var g := GroupOf(s, c, key);
    GroupFacts(cfg, s, strict, c, key);
    Ordering.GroupFacts(cfg, s, c, key);
    if Lost(cfg, Hist(s, strict), s.rec, g) { ParkLostKeepsOrder(cfg, Hist(s, strict), s.rec, g, now); }
    else { ParkKeepsOrder(cfg, Hist(s, strict), s.rec, key, g.rows, now); }
  }

  lemma ParkKeepsInv(cfg: Config, s: Sys, strict: bool, c: nat, key: string, now: int)
    requires cfg.holdKey && Known(cfg, s, strict) && HasGroup(s, c, key) && Manned(s, c)
    ensures Inv(cfg, Fence(s, c, key, ParkEvent(s.rec, ParkedOf(cfg, GroupOf(s, c, key).rows[0], now)), []), strict)
  {
    var rec := ParkEvent(s.rec, ParkedOf(cfg, GroupOf(s, c, key).rows[0], now));
    ParkedHead(cfg, s, strict, c, key, now);
    GroupsMove(cfg, s, strict, c, key, rec, Group([], Ready), s.acked);
    MoveKeepsInv(cfg, s, strict, c, key, rec, Group([], Ready), s.acked);
  }

  /** A record whose rows keep their ids and sequences looks the same to everybody. */
  lemma SameSeqs(cfg: Config, h: History, rec: KeyRecord, rec': KeyRecord)
    requires rec'.parked == rec.parked && rec'.outbox.Keys == rec.outbox.Keys && AckRec(cfg, h, rec)
    requires forall id :: id in rec.outbox ==> rec'.outbox[id].sequence == rec.outbox[id].sequence
    ensures AckRec(cfg, h, rec')
    ensures forall rows :: Live(cfg, h.committed, rec.outbox, rows) ==> Live(cfg, h.committed, rec'.outbox, rows)
  {
    assert forall q :: PendingSeq(h.committed, rec'.outbox, q) <==> PendingSeq(h.committed, rec.outbox, q);
    forall rows | Live(cfg, h.committed, rec.outbox, rows) ensures Live(cfg, h.committed, rec'.outbox, rows) {}
  }

  lemma SameGroups(cfg: Config, h: History, rec: KeyRecord, rec': KeyRecord, gs: map<string, Group>)
    requires rec'.parked == rec.parked && rec'.outbox.Keys == rec.outbox.Keys && GroupsWork(cfg, h, rec, gs)
    requires forall rows :: Live(cfg, h.committed, rec.outbox, rows) ==> Live(cfg, h.committed, rec'.outbox, rows)
    ensures GroupsWork(cfg, h, rec', gs)
  {
    forall k | k in gs ensures Works(cfg, h, rec', gs[k]) && (Lost(cfg, h, rec', gs[k]) ==> Lost(cfg, h, rec, gs[k])) {
      assert Works(cfg, h, rec, gs[k]);
    }
  }

  lemma RecordKeepsInv(cfg: Config, s: Sys, strict: bool, c: nat, key: string, error: string, retryAt: int)
    requires Known(cfg, s, strict) && HasGroup(s, c, key) && Manned(s, c)
    ensures
      var rec := RecordAttempt(s.rec, GroupOf(s, c, key).rows[0].eventId, Some(error), Some(retryAt));
      Inv(cfg, Fence(s, c, key, rec, []), strict)
  {
    var rec, groups :=
        RecordAttempt(s.rec, GroupOf(s, c, key).rows[0].eventId, Some(error), Some(retryAt)), s.crews[c].groups;
    GroupFacts(cfg, s, strict, c, key);
    SameSeqs(cfg, Hist(s, strict), s.rec, rec);
    SameGroups(cfg, Hist(s, strict), s.rec, rec, groups);
    Dropped(cfg, Hist(s, strict), rec, groups, groups - {key});
    MoveKeepsInv(cfg, s, strict, c, key, rec, Group([], Ready), s.acked);
  }

  // ---- administration -------------------------------------------------------------------------

  /** Everything that depends on the record, for the session that holds the lease and its crew. */
  ghost predicate HolderRec(cfg: Config, h: History, rec: KeyRecord, d: Drain, crews: map<nat, Crew>) {
    && Conservation.OutboxOk(h.committed, rec.outbox) && Conservation.ParkedOk(cfg, h.committed, rec.parked)
    && AckRec(cfg, h, rec) && HolderOrd(cfg, h, rec, d, crews)
  }

  /** The groups are those of their keys. */
  ghost predicate Keyed(cfg: Config, d: Drain, crews: map<nat, Crew>) {
    d.Draining? && d.crew in crews ==>
      forall k, r :: k in crews[d.crew].groups && r in crews[d.crew].groups[k].rows ==> cfg.key(r.event) == k
  }

  /** A retry of `id` is not in the gap of this drain. */
  ghost predicate Outside(cfg: Config, rec: KeyRecord, d: Drain, id: string) {
    d.Loading? && Retryable(rec, id) ==> !Followed(cfg, rec.parked[id].event.value, d.rows)
  }

  lemma RetryOneOrder(cfg: Config, h: History, rec: KeyRecord, id: string)
    requires Conservation.ParkedOk(cfg, h.committed, rec.parked) && AckRec(cfg, h, rec) && Retryable(rec, id)
    ensures AckRec(cfg, h, RetryOne(rec, id))
  {
    assert Conservation.ParkedRowOk(cfg, h.committed, id, rec.parked[id]);
    var rec' := RetryOne(rec, id);
    forall q | q in h.committed ensures Outstanding(h.committed, rec', q) <==> Outstanding(h.committed, rec, q) {}
  }

  lemma RetryOneLive(cfg: Config, committed: map<nat, Event>, rec: KeyRecord, id: string, k: string,
                     rows: seq<OutboxRow>)
    requires cfg.holdKey && Conservation.ParkedOk(cfg, committed, rec.parked) && rec.outbox.Keys !! rec.parked.Keys
    requires Retryable(rec, id)
    requires Live(cfg, committed, rec.outbox, rows) && Unheld(rec.parked, k)
    requires (forall r :: r in rows ==> cfg.key(r.event) == k)
    ensures Live(cfg, committed, RetryOne(rec, id).outbox, rows) && Unheld(RetryOne(rec, id).parked, k)
  {
    assert Conservation.ParkedRowOk(cfg, committed, id, rec.parked[id]);
    var rec' := RetryOne(rec, id);
    forall r, q | r in rows && Earlier(cfg, committed, r, q) && PendingSeq(committed, rec'.outbox, q)
      ensures HasSeq(rows, q) {
      assert committed[q].id != id;
      assert PendingSeq(committed, rec.outbox, q);
    }
  }

  lemma RetryOneWorks(cfg: Config, h: History, rec: KeyRecord, id: string, k: string, g: Group)
    requires cfg.holdKey && Conservation.ParkedOk(cfg, h.committed, rec.parked) && rec.outbox.Keys !! rec.parked.Keys
    requires Retryable(rec, id)
    requires Works(cfg, h, rec, g) && Unheld(rec.parked, k) && (forall r :: r in g.rows ==> cfg.key(r.event) == k)
    ensures Works(cfg, h, RetryOne(rec, id), g) && Unheld(RetryOne(rec, id).parked, k)
    ensures Lost(cfg, h, RetryOne(rec, id), g) ==> Lost(cfg, h, rec, g)
  {
    assert Conservation.ParkedRowOk(cfg, h.committed, id, rec.parked[id]);
    if Live(cfg, h.committed, rec.outbox, g.rows) {
      RetryOneLive(cfg, h.committed, rec, id, k, g.rows);
      assert g.rows != [] ==> g.rows[0] in g.rows;
    } else {
      RetryOneLive(cfg, h.committed, rec, id, k, g.rows[1..]);
    }
  }

  lemma RetryOneLoading(cfg: Config, committed: map<nat, Event>, rec: KeyRecord, id: string, rows: seq<OutboxRow>)
    requires Conservation.ParkedOk(cfg, committed, rec.parked) && rec.outbox.Keys !! rec.parked.Keys
    requires Retryable(rec, id)
    requires Live(cfg, committed, rec.outbox, rows) && !Followed(cfg, rec.parked[id].event.value, rows)
    ensures Live(cfg, committed, RetryOne(rec, id).outbox, rows)
  {
    assert Conservation.ParkedRowOk(cfg, committed, id, rec.parked[id]);
    var rec' := RetryOne(rec, id);
    forall r, q | r in rows && Earlier(cfg, committed, r, q) && PendingSeq(committed, rec'.outbox, q)
      ensures HasSeq(rows, q) {
      assert committed[q].id != id;
      assert PendingSeq(committed, rec.outbox, q);
    }
  }

  lemma RetryOneKeeps(cfg: Config, h: History, rec: KeyRecord, d: Drain, crews: map<nat, Crew>, id: string)
    requires cfg.holdKey && HolderRec(cfg, h, rec, d, crews) && Keyed(cfg, d, crews) && Outside(cfg, rec, d, id)
    ensures HolderRec(cfg, h, RetryOne(rec, id), d, crews)
  {
    if !Retryable(rec, id) { return; }
    assert Conservation.ParkedRowOk(cfg, h.committed, id, rec.parked[id]);
    RetryOneOrder(cfg, h, rec, id);
    if d.Loading? { RetryOneLoading(cfg, h.committed, rec, id, d.rows); }
    if d.Draining? {
      var groups := crews[d.crew].groups;
      forall k | k in groups
        ensures Works(cfg, h, RetryOne(rec, id), groups[k]) && Unheld(RetryOne(rec, id).parked, k)
        ensures Lost(cfg, h, RetryOne(rec, id), groups[k]) ==> Lost(cfg, h, rec, groups[k])
      {
        RetryOneWorks(cfg, h, rec, id, k, groups[k]);
      }
    }
  }

  lemma {:induction false} RetryKeeps(cfg: Config, h: History, rec: KeyRecord, d: Drain, crews: map<nat, Crew>,
                                      ids: seq<string>)
    requires cfg.holdKey && HolderRec(cfg, h, rec, d, crews) && Keyed(cfg, d, crews)
    requires forall id :: id in ids ==> Outside(cfg, rec, d, id)
    ensures HolderRec(cfg, h, RetryParked(rec, ids), d, crews) && RetryParked(rec, ids).lease == rec.lease
    ensures forall id :: id in RetryParked(rec, ids).parked ==>
              id in rec.parked && RetryParked(rec, ids).parked[id] == rec.parked[id]
  {
    if ids == [] {
    } else {
      var init, id := ids[..|ids| - 1], ids[|ids| - 1];
      assert ids == init + [id];
      RetryKeeps(cfg, h, rec, d, crews, init);
      assert Outside(cfg, rec, d, id);
      RetryOneKeeps(cfg, h, RetryParked(rec, init), d, crews, id);
    }
  }

  lemma HolderIsKeyed(cfg: Config, s: Sys, t: nat)
    requires Conservation.Inv(cfg, s) && t in s.sessions
    ensures Keyed(cfg, s.sessions[t].drain, s.crews)
  {
    var d := s.sessions[t].drain;
    if d.Draining? && d.crew in s.crews {
      var groups := s.crews[d.crew].groups;
      assert Conservation.GroupsOk(cfg, s.committed, s.delivered, groups);
      forall k, r | k in groups && r in groups[k].rows ensures cfg.key(r.event) == k {
        assert Conservation.GroupOk(cfg, s.committed, s.delivered, k, groups[k]);
      }
    }
  }

  lemma RetryKeepsInv(cfg: Config, s: Sys, strict: bool, ids: seq<string>)
    requires cfg.holdKey && Known(cfg, s, strict) && RetryOutsideGap(cfg, s, Retry(ids))
    ensures Inv(cfg, s.(rec := RetryParked(s.rec, ids)), strict)
  {
    var s', h := s.(rec := RetryParked(s.rec, ids)), Hist(s, strict);
    RetryKeeps(cfg, h, s.rec, Quiet, s.crews, ids);
    forall t | t in s'.sessions && Current(s', t) ensures HolderOrd(cfg, h, s'.rec, s.sessions[t].drain, s.crews) {
      assert Current(s, t);
      HolderIsKeyed(cfg, s, t);
      RetryKeeps(cfg, h, s.rec, s.sessions[t].drain, s.crews, ids);
    }
    StaysAlone(s, s');
  }

  lemma DiscardKeepsOrder(cfg: Config, h: History, done': set<nat>, rec: KeyRecord, ids: set<string>)
    requires AckRec(cfg, h, rec) && done' == h.done + ParkedSeqs(rec, ids)
    ensures AckRec(cfg, h.(done := done'), rec.(parked := rec.parked - ids))
  {
    var rec' := rec.(parked := rec.parked - ids);
    assert forall q :: ParkedSeq(h.committed, rec'.parked, q) ==> ParkedSeq(h.committed, rec.parked, q);
    assert forall q :: Outstanding(h.committed, rec', q) ==> Outstanding(h.committed, rec, q);
  }

  /** Fewer parked rows hold fewer keys. */
  lemma HolderDiscards(cfg: Config, h: History, rec: KeyRecord, ids: set<string>, groups: map<string, Group>)
    requires GroupsWork(cfg, h, rec, groups)
    ensures GroupsWork(cfg, h, rec.(parked := rec.parked - ids), groups)
  {
    var rec' := rec.(parked := rec.parked - ids);
    forall k | k in groups
      ensures Works(cfg, h, rec', groups[k]) && Unheld(rec'.parked, k)
      ensures Lost(cfg, h, rec', groups[k]) ==> Lost(cfg, h, rec, groups[k])
    {
      assert Works(cfg, h, rec, groups[k]);
      assert groups[k].rows != [] ==> groups[k].rows[0] in groups[k].rows;
    }
  }

  lemma DiscardKeepsInv(cfg: Config, s: Sys, strict: bool, ids: seq<string>)
    requires Inv(cfg, s, strict)
    ensures Inv(cfg, s.(rec := DiscardParked(s.rec, ids), discarded := s.discarded + ParkedSeqs(s.rec, Elems(ids))),
                strict)
  {
    var s' := s.(rec := DiscardParked(s.rec, ids), discarded := s.discarded + ParkedSeqs(s.rec, Elems(ids)));
    var h := Hist(s, strict);
    DiscardKeepsOrder(cfg, h, Done(s'), s.rec, Elems(ids));
    forall t | t in s'.sessions && Current(s', t)
      ensures HolderOrd(cfg, Hist(s', strict), s'.rec, s.sessions[t].drain, s.crews)
    {
      var d := s.sessions[t].drain;
      assert Current(s, t);
      if d.Draining? { HolderDiscards(cfg, h, s.rec, Elems(ids), s.crews[d.crew].groups); }
      HolderGrows(cfg, h, Done(s'), s'.rec, d, s.crews);
    }
    StaysAlone(s, s');
  }

  // ---- commits and leases ---------------------------------------------------------------------

  lemma CommitKeepsOrder(cfg: Config, h: History, committed': map<nat, Event>, seq0: nat, rec: KeyRecord,
                         rec': KeyRecord)
    requires CommitMoves(h.committed, committed', seq0, rec, rec') && AckRec(cfg, h, rec)
    ensures AckRec(cfg, h.(committed := committed'), rec')
  {
    forall q | q in committed'
      ensures q in h.done || PendingSeq(committed', rec'.outbox, q) || ParkedSeq(committed', rec'.parked, q) {
      if q <= seq0 {
        assert q in h.committed && (PendingSeq(h.committed, rec.outbox, q) ==> PendingSeq(committed', rec'.outbox, q));
      }
    }
    forall p: nat, q: nat | p in h.acked && Outstanding(committed', rec', q) && SameKey(cfg, committed', p, q)
      ensures Precedes(h, p, q) {
      assert p <= seq0;
      if q <= seq0 { assert Outstanding(h.committed, rec, q) && SameKey(cfg, h.committed, p, q); }
    }
    forall i, j | 0 <= i < j < |h.acked| && SameKey(cfg, committed', h.acked[i], h.acked[j])
      ensures Precedes(h, h.acked[i], h.acked[j]) {
      assert h.acked[i] in h.acked && h.acked[j] in h.acked;
      assert SameKey(cfg, h.committed, h.acked[i], h.acked[j]);
    }
  }

  lemma CommitKeepsInv(cfg: Config, s: Sys, strict: bool, sid: nat, rows: seq<OutboxRow>, invalid: seq<ParkedRow>,
                       now: int)
    requires Known(cfg, s, strict) && Has(s, sid) && Current(s, sid) && CanCommit(s, s.sessions[sid], rows, invalid)
    requires FreshIds(s, Commit(sid, rows, invalid, now))
    ensures Inv(cfg, Committing(s, sid, rows, invalid, now), strict)
  {
    var s', seq0 := Committing(s, sid, rows, invalid, now), s.sessions[sid].sequence;
    CommitIsMove(cfg, s, sid, rows, invalid, now);
    CommitKeepsOrder(cfg, Hist(s, strict), s'.committed, seq0, s.rec, s'.rec);
    forall t | t in s'.sessions && Current(s', t) ensures s'.sessions[t].drain.Quiet? {
      Leases.Exclusive(s.rec, s.leases, s.granted, s.writes, sid, t);
    }
    StaysAlone(s, s');
  }

  lemma QuietStep(cfg: Config, s: Sys, strict: bool, s': Sys)
    requires Inv(cfg, s, strict) && Conservation.LeaseInv(s')
    requires s'.rec.outbox == s.rec.outbox && s'.rec.parked == s.rec.parked && s'.acked == s.acked
    requires s'.committed == s.committed && s'.delivered == s.delivered && s'.discarded == s.discarded
    requires forall t :: t in s'.sessions ==>
               (t in s.sessions && s'.sessions[t] == s.sessions[t]) || s'.sessions[t] == Session(false, 0, Quiet)
    requires forall t :: Current(s', t) && t in s.sessions ==> Current(s, t)
    requires forall c :: c in s'.crews ==> c in s.crews && s'.crews[c] == s.crews[c]
    requires forall c :: Manned(s', c) ==> Manned(s, c)
    requires forall t, c :: Manned(s', c) && Mans(s, t, c) ==> Mans(s', t, c)
    ensures Inv(cfg, s', strict)
  {
    assert forall q :: Outstanding(s.committed, s'.rec, q) <==> Outstanding(s.committed, s.rec, q);
    forall t | t in s'.sessions && Current(s', t)
      ensures HolderOrd(cfg, Hist(s', strict), s'.rec, s'.sessions[t].drain, s'.crews)
    {
      if s'.sessions[t] != Session(false, 0, Quiet) {
        SameHolder(cfg, Hist(s, strict), s.rec, s'.rec, s.sessions[t].drain, s.crews, s'.crews);
      }
    }
    forall c | Manned(s', c) && s'.crews[c].groups != map[] ensures exists t :: Mans(s', t, c) {
      var t :| Mans(s, t, c);
      assert Mans(s', t, c);
    }
  }

  lemma SameHolder(cfg: Config, h: History, rec: KeyRecord, rec': KeyRecord, d: Drain, crews: map<nat, Crew>,
                   crews': map<nat, Crew>)
    requires HolderOrd(cfg, h, rec, d, crews) && rec'.outbox == rec.outbox && rec'.parked == rec.parked
    requires d.Draining? ==> d.crew in crews' && (d.crew in crews ==> crews'[d.crew] == crews[d.crew])
    ensures HolderOrd(cfg, h, rec', d, crews')
  {
    if d.Draining? {
      var groups := crews[d.crew].groups;
      forall k | k in groups
        ensures Works(cfg, h, rec', groups[k]) && (Lost(cfg, h, rec', groups[k]) <==> Lost(cfg, h, rec, groups[k]))
      {
        assert Works(cfg, h, rec, groups[k]);
      }
    }
  }

  lemma AcquireKeepsInv(cfg: Config, s: Sys, strict: bool, step: Step)
    requires Known(cfg, s, strict) && step.Acquire?
    ensures Inv(cfg, Apply(cfg, s, step), strict)
  {
    if step.sid in s.leases || step.sid in s.sessions || !CanAcquire(s.rec, step.owner, step.clock) { return; }
    var s' := Apply(cfg, s, step);
    Conservation.StepKeepsInv(cfg, s, step);
    Leases.Acquired(s.rec, s.leases, s.granted, s.writes, step.sid, step.owner, step.ttl, step.clock);
    forall c | c in s.crews ensures !Manned(s', c) { assert s.crews[c].lease.epoch in s.granted; }
    QuietStep(cfg, s, strict, s');
  }

  lemma RenewKeepsInv(cfg: Config, s: Sys, strict: bool, step: Step)
    requires Known(cfg, s, strict) && step.Renew? && Has(s, step.sid)
    ensures Inv(cfg, Apply(cfg, s, step), strict)
  {
    var s' := s.(rec := RenewLease(s.rec, s.leases[step.sid], step.ttl, step.clock));
    Conservation.RenewKeepsInv(cfg, s, step.sid, step.ttl, step.clock);
    QuietStep(cfg, s, strict, s');
  }

  /** The session that leaves takes the lease with it, or could not write. */
  lemma ReleaseKeepsInv(cfg: Config, s: Sys, strict: bool, sid: nat)
    requires Known(cfg, s, strict) && Has(s, sid)
    ensures Inv(cfg, Apply(cfg, s, Release(sid)), strict)
  {
    if !Current(s, sid) {
      RejectedKeepsInv(cfg, s, strict, sid);
    } else {
      var s' := Drop(s.(rec := s.rec.(lease := None)), sid);
      Conservation.LeaveKeepsInv(cfg, s, sid, s.rec.(lease := None));
      QuietStep(cfg, s, strict, s');
    }
  }

  /** A session that dies takes its workers with it. */
  lemma CrashKeepsInv(cfg: Config, s: Sys, strict: bool, sid: nat)
    requires Known(cfg, s, strict) && sid in s.leases
    ensures Inv(cfg, Apply(cfg, s, Crash(sid)), strict)
  {
    var s' := Drop(Vanish(s, s.leases[sid]), sid);
    Conservation.CrashKeepsInv(cfg, s, sid);
    forall t, c | c in s'.crews && Mans(s, t, c) ensures Mans(s', t, c) {
      assert s.crews[c].lease == s.leases[t];
    }
    QuietStep(cfg, s, strict, s');
  }

  lemma LeaseKeepsInv(cfg: Config, s: Sys, strict: bool, step: Step)
    requires Known(cfg, s, strict) && LeaseKind(step)
    ensures Inv(cfg, Apply(cfg, s, step), strict)
  {
    match step
    case Acquire(_, _, _, _) => AcquireKeepsInv(cfg, s, strict, step);
    case Renew(sid, _, _) => if Has(s, sid) { RenewKeepsInv(cfg, s, strict, step); }
    case Release(sid) => if Has(s, sid) { ReleaseKeepsInv(cfg, s, strict, sid); }
    case Crash(sid) => CrashStepKeepsInv(cfg, s, strict, sid);
  }

  lemma CrashStepKeepsInv(cfg: Config, s: Sys, strict: bool, sid: nat)
    requires Known(cfg, s, strict)
    ensures Inv(cfg, Apply(cfg, s, Crash(sid)), strict)
  {
    if sid in s.leases { CrashKeepsInv(cfg, s, strict, sid); } else { assert Drop(s, sid) == s; }
  }

  lemma RejectedKeepsInv(cfg: Config, s: Sys, strict: bool, sid: nat)
    requires Known(cfg, s, strict) && Has(s, sid) && !Current(s, sid)
    ensures Inv(cfg, Drop(s, sid), strict)
  {
    var s' := Drop(s, sid);
    Conservation.LeaveKeepsInv(cfg, s, sid, s.rec);
    assert s.(rec := s.rec) == s;
    forall t, c | Manned(s', c) && Mans(s, t, c) ensures Mans(s', t, c) {
      assert Manned(s, c) && s.crews[c].lease == s.leases[t];
    }
    QuietStep(cfg, s, strict, s');
  }

  // ---- all orderly runs -----------------------------------------------------------------------

  lemma AckStepKeepsInv(cfg: Config, s: Sys, strict: bool, step: Step)
    requires cfg.holdKey && Known(cfg, s, strict) && (step.Ack? || (step.AckLost? && !strict))
    ensures Inv(cfg, Apply(cfg, s, step), strict)
  {
    var c, key := step.crew, step.key;
    if !HasGroup(s, c, key) || GroupOf(s, c, key).phase != Finished(true) { return; }
    if !Manned(s, c) {
      GroupStep(cfg, s, strict, c, key, Group([], Ready), s.delivered);
      GroupStep(cfg, s, strict, c, key, GroupOf(s, c, key).(phase := Finished(false)), s.delivered);
    } else if step.Ack? {
      AckKeepsInv(cfg, s, strict, c, key);
    } else {
      AckLostKeepsInv(cfg, s, c, key);
    }
  }

  lemma FailStepKeepsInv(cfg: Config, s: Sys, strict: bool, step: Step)
    requires cfg.holdKey && Known(cfg, s, strict) && (step.Record? || step.Park?)
    ensures Inv(cfg, Apply(cfg, s, step), strict)
  {
    if !HasGroup(s, step.crew, step.key) { return; }
    if !Manned(s, step.crew) {
      GroupStep(cfg, s, strict, step.crew, step.key, Group([], Ready), s.delivered);
    } else if step.Record? {
      RecordKeepsInv(cfg, s, strict, step.crew, step.key, step.error, step.retryAt);
    } else {
      ParkKeepsInv(cfg, s, strict, step.crew, step.key, step.now);
    }
  }

  lemma CommitStepKeepsInv(cfg: Config, s: Sys, strict: bool, step: Step)
    requires Known(cfg, s, strict) && step.Commit? && FreshIds(s, step)
    ensures Inv(cfg, Apply(cfg, s, step), strict)
  {
    var sid := step.sid;
    if !Has(s, sid) || !CanCommit(s, s.sessions[sid], step.rows, step.invalid) { return; }
    if Current(s, sid) {
      CommitKeepsInv(cfg, s, strict, sid, step.rows, step.invalid, step.now);
    } else {
      RejectedKeepsInv(cfg, s, strict, sid);
    }
  }

  /** No worker is left behind by a drain that threw. */
  predicate LeavesNone(step: Step) { step.DrainThrows? ==> step.left == {} }

  lemma FencedKeepsInv(cfg: Config, s: Sys, strict: bool, step: Step)
    requires cfg.holdKey && Known(cfg, s, strict) && FencedKind(step) && (strict ==> !step.AckLost?)
    ensures Inv(cfg, Apply(cfg, s, step), strict)
  {
    if step.Ack? || step.AckLost? {
      AckStepKeepsInv(cfg, s, strict, step);
    } else {
      FailStepKeepsInv(cfg, s, strict, step);
    }
  }

  lemma SessionKeepsInv(cfg: Config, s: Sys, strict: bool, step: Step)
    requires cfg.holdKey && Known(cfg, s, strict) && SessionKind(step) && LeavesNone(step)
    ensures Inv(cfg, Apply(cfg, s, step), strict)
  {
    match step
    case LoadPending(_, _, _) => LoadPendingKeepsInv(cfg, s, strict, step);
    case LoadHeld(sid, c) => LoadHeldKeepsInv(cfg, s, strict, sid, c);
    case DrainThrows(sid, left) => ThrowKeepsInv(cfg, s, strict, sid, left);
    case _ => SessionStepKeepsInv(cfg, s, strict, step);
  }

  lemma AdminKeepsInv(cfg: Config, s: Sys, strict: bool, step: Step)
    requires cfg.holdKey && Known(cfg, s, strict) && AdminKind(step) && RetryOutsideGap(cfg, s, step)
    ensures Inv(cfg, Apply(cfg, s, step), strict)
  {
    match step
    case Retry(ids) => RetryKeepsInv(cfg, s, strict, ids);
    case Discard(ids) => DiscardKeepsInv(cfg, s, strict, ids);
  }

  lemma StepKeepsInv(cfg: Config, s: Sys, strict: bool, step: Step)
    requires cfg.holdKey && Known(cfg, s, strict) && FreshIds(s, step) && RetryOutsideGap(cfg, s, step)
    requires LeavesNone(step) && (strict ==> !step.AckLost?)
    ensures Inv(cfg, Apply(cfg, s, step), strict)
  {
    if LeaseKind(step) { LeaseKeepsInv(cfg, s, strict, step); }
    else if SessionKind(step) { SessionKeepsInv(cfg, s, strict, step); }
    else if WorkerKind(step) { WorkerStepKeepsInv(cfg, s, strict, step); }
    else if FencedKind(step) { FencedKeepsInv(cfg, s, strict, step); }
    else if AdminKind(step) { AdminKeepsInv(cfg, s, strict, step); }
    else { CommitStepKeepsInv(cfg, s, strict, step); }
  }

  /** No worker outlives its drain. */
  ghost predicate NoneOutlives(steps: seq<Step>) { forall i :: 0 <= i < |steps| ==> LeavesNone(steps[i]) }

  /** No reply to an applied ack is lost. */
  ghost predicate RepliesArrive(steps: seq<Step>) { forall i :: 0 <= i < |steps| ==> !steps[i].AckLost? }

  lemma {:induction false} RunKeepsInv(cfg: Config, s: Sys, strict: bool, steps: seq<Step>)
    requires Init(s) && cfg.holdKey && Orderly(cfg, s, steps) && NoneOutlives(steps)
    requires (strict ==> RepliesArrive(steps))
    ensures Inv(cfg, Run(cfg, s, steps), strict)
  {
    if steps == [] {
    } else {
      var init := steps[..|steps| - 1];
      assert forall i :: 0 <= i < |init| ==> init[i] == steps[i];
      RunKeepsInv(cfg, s, strict, init);
      Ordering.RunKeepsInv(cfg, s, init);
      Conservation.RunKeepsInv(cfg, s, init);
      StepKeepsInv(cfg, Run(cfg, s, init), strict, steps[|steps| - 1]);
    }
  }

  /** Accepted acks of one ordering key never go back in sequence, provided no worker outlives its drain;
      and they strictly increase if also no reply to an applied ack is lost. */
  lemma AcksFollowKeyOrder(cfg: Config, s: Sys, steps: seq<Step>, i: nat, j: nat)
    requires Init(s) && cfg.holdKey && Orderly(cfg, s, steps) && NoneOutlives(steps)
    requires
      var s' := Run(cfg, s, steps);
      i < j < |s'.acked| && SameKey(cfg, s'.committed, s'.acked[i], s'.acked[j])
    ensures
      var s' := Run(cfg, s, steps);
      s'.acked[i] <= s'.acked[j] && (RepliesArrive(steps) ==> s'.acked[i] < s'.acked[j])
  {
    RunKeepsInv(cfg, s, false, steps);
    if RepliesArrive(steps) { RunKeepsInv(cfg, s, true, steps); }
  }
}
