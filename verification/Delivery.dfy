/** The delivery protocol: sessions commit events to the outbox and drain it, each with workers that
    interleave freely. A session may stop between any two steps or go on after losing its lease; workers
    may outlive a drain that threw, and the session may commit and drain again beside them;
    administrators retry and discard parked events at any time. */
module Delivery {
  import opened Store
  import opened Pages
  import Diff

  /** `key` is the ordering key of an event, `maxAttempts` the attempts before an event is poison;
      with `holdKey` a poison event holds its key back until it is retried or discarded. */
  datatype Config = Config(key: Event -> string, maxAttempts: nat, holdKey: bool)

  datatype GroupPhase = Ready | InFlight | Finished(ok: bool)

  /** The rows of one ordering key still to be delivered in this pass; the first one is being worked on. */
  datatype Group = Group(rows: seq<OutboxRow>, phase: GroupPhase)

  /** `Loading` lies between reading the pending rows and reading the held keys. */
  datatype Drain = Quiet | Loading(rows: seq<OutboxRow>) | Draining(crew: nat)

  datatype Session = Session(loaded: bool, sequence: nat, drain: Drain)

  /** The workers of one drain, with the lease they were started under. */
  datatype Crew = Crew(lease: Lease, groups: map<string, Group>)

  /** Histories: `committed` events by sequence, sequences `delivered` (the consumer finished) and
      `discarded`, and the sequences acked, in order. */
  datatype Sys = Sys(
    rec: KeyRecord, leases: map<nat, Lease>, sessions: map<nat, Session>, crews: map<nat, Crew>,
    committed: map<nat, Event>, delivered: set<nat>, discarded: set<nat>, acked: seq<nat>,
    granted: seq<nat>, writes: seq<nat>)

  datatype Step =
    | Acquire(sid: nat, owner: string, ttl: int, clock: int)
    | Renew(sid: nat, ttl: int, clock: int)
    | Release(sid: nat)
    | Crash(sid: nat)
    | LoadState(sid: nat)
    | Commit(sid: nat, rows: seq<OutboxRow>, invalid: seq<ParkedRow>, now: int)
    | CommitFails(sid: nat, events: nat)
    | LoadPending(sid: nat, limit: nat, rows: seq<OutboxRow>)
    | LoadHeld(sid: nat, crew: nat)
    | Start(crew: nat, key: string)
    | Finish(crew: nat, key: string, ok: bool)
    | Ack(crew: nat, key: string)
    | AckError(crew: nat, key: string)
    | AckLost(crew: nat, key: string)
    | Record(crew: nat, key: string, error: string, retryAt: int)
    | Park(crew: nat, key: string, now: int)
    | Abandon(crew: nat, key: string)
    | EndPass(sid: nat)
    | DrainThrows(sid: nat, left: set<string>)
    | Retry(ids: seq<string>)
    | Discard(ids: seq<string>)

  predicate LeaseKind(step: Step) { step.Acquire? || step.Renew? || step.Release? || step.Crash? }

  predicate SessionKind(step: Step) {
    step.LoadState? || step.CommitFails? || step.LoadPending? || step.LoadHeld? || step.EndPass? || step.DrainThrows?
  }

  predicate WorkerKind(step: Step) { step.Start? || step.Finish? || step.AckError? || step.Abandon? }

  predicate FencedKind(step: Step) { step.Ack? || step.AckLost? || step.Record? || step.Park? }

  predicate AdminKind(step: Step) { step.Retry? || step.Discard? }

  // ---- steps ----------------------------------------------------------------------------------

  predicate Has(s: Sys, sid: nat) { sid in s.leases && sid in s.sessions }

  predicate Current(s: Sys, sid: nat) { sid in s.leases && Fenced(s.rec, s.leases[sid]) }

  function Put(s: Sys, sid: nat, x: Session): Sys { s.(sessions := s.sessions[sid := x]) }

  /** A process that dies takes its workers with it. */
  function Vanish(s: Sys, lease: Lease): Sys {
    s.(crews := map c | c in s.crews && s.crews[c].lease != lease :: s.crews[c])
  }

  function Drop(s: Sys, sid: nat): Sys { s.(leases := s.leases - {sid}, sessions := s.sessions - {sid}) }

  /** The workers still pass the fence. */
  predicate Manned(s: Sys, c: nat) { c in s.crews && Fenced(s.rec, s.crews[c].lease) }

  function PutGroups(s: Sys, c: nat, groups: map<string, Group>): Sys
    requires c in s.crews
  {
    s.(crews := s.crews[c := s.crews[c].(groups := groups)])
  }

  predicate HasGroup(s: Sys, c: nat, key: string) {
    c in s.crews && key in s.crews[c].groups && s.crews[c].groups[key].rows != []
  }

  function GroupOf(s: Sys, c: nat, key: string): Group
    requires HasGroup(s, c, key)
  {
    s.crews[c].groups[key]
  }

  /** The groups with that of `key` replaced, or dropped when nothing is left of it. */
  function WithGroup(groups: map<string, Group>, key: string, g: Group): map<string, Group> {
    if g.rows == [] then groups - {key} else groups[key := g]
  }

  function SetGroup(s: Sys, c: nat, key: string, g: Group): Sys
    requires HasGroup(s, c, key)
  {
    PutGroups(s, c, WithGroup(s.crews[c].groups, key, g))
  }

  /** The record moves by a fenced call of a worker. */
  function Moved(s: Sys, c: nat, rec: KeyRecord): Sys
    requires c in s.crews
  {
    s.(rec := rec, writes := s.writes + [s.crews[c].lease.epoch])
  }

  /** A fenced store call of a worker: the record moves, or only this worker's group is given up. */
  function Fence(s: Sys, c: nat, key: string, rec: KeyRecord, rest: seq<OutboxRow>): Sys
    requires HasGroup(s, c, key)
  {
    if !Manned(s, c) then SetGroup(s, c, key, Group([], Ready))
    else SetGroup(Moved(s, c, rec), c, key, Group(rest, Ready))
  }

  function ParkedOf(cfg: Config, row: OutboxRow, now: int): ParkedRow {
    ParkedRow(row.eventId, Poison, Some(row.event), row.attempts + 1, now, Hold(cfg, row.event))
  }

  function Hold(cfg: Config, e: Event): Option<string> { if cfg.holdKey then Some(cfg.key(e)) else None }

  function RowsOf(cfg: Config, rows: seq<OutboxRow>, key: string): seq<OutboxRow> {
    if rows == [] then []
    else RowsOf(cfg, rows[..|rows| - 1], key) + if cfg.key(rows[|rows| - 1].event) == key then [rows[|rows| - 1]]
      else []
  }

  /** One group per ordering key that no parked event holds. */
  function GroupsOf(cfg: Config, rows: seq<OutboxRow>, held: set<string>): map<string, Group> {
    map k | k in (set r | r in rows :: cfg.key(r.event)) && k !in held :: Group(RowsOf(cfg, rows, k), Ready)
  }

  /** The rows a poll commits: new pending rows numbered after the session's sequence. */
  ghost predicate NewRows(rows: seq<OutboxRow>, seq0: nat) {
    && Numbered(rows, seq0)
    && (forall r :: r in rows ==> r.eventId == r.event.id && r.status == Pending)
  }

  /** Quarantined items: no event, no hold, and ids no event has. */
  ghost predicate QuarantineOnly(s: Sys, rows: seq<OutboxRow>, invalid: seq<ParkedRow>) {
    && (forall p :: p in invalid ==>
          && p.kind == Invalid && p.event.None? && p.holdKey.None?
          && (forall r :: r in rows ==> r.eventId != p.id) && (forall q :: q in s.committed ==>
              s.committed[q].id != p.id))
    && (forall id :: id in s.rec.parked && s.rec.parked[id].event.None? ==> forall r :: r in rows ==> r.eventId != id)
  }

  /** A session commits between two drains, after it has loaded the state. */
  ghost predicate CanCommit(s: Sys, x: Session, rows: seq<OutboxRow>, invalid: seq<ParkedRow>) {
    x.loaded && x.drain.Quiet? && NewRows(rows, x.sequence) && QuarantineOnly(s, rows, invalid)
  }

  function BatchOf(rows: seq<OutboxRow>, invalid: seq<ParkedRow>, sequence: nat, now: int): CommitBatch {
    CommitBatch(StatePatch(None, None, None, Some(sequence), Some(now)), [], [], rows, invalid)
  }

  function AddCommitted(m: map<nat, Event>, rows: seq<OutboxRow>): map<nat, Event> {
    if rows == [] then m
    else AddCommitted(m, rows[..|rows| - 1])[rows[|rows| - 1].sequence := rows[|rows| - 1].event]
  }

  /** Sequences of the parked events with an id in `ids`. */
  function ParkedSeqs(rec: KeyRecord, ids: set<string>): set<nat> {
    set id | id in rec.parked && id in ids && rec.parked[id].event.Some? :: rec.parked[id].event.value.sequence
  }

  function Committing(s: Sys, sid: nat, rows: seq<OutboxRow>, invalid: seq<ParkedRow>, now: int): Sys
    requires Has(s, sid)
  {
    var x := s.sessions[sid];
    var top := x.sequence + |rows|;
    s.(rec := CommitPoll(s.rec, BatchOf(rows, invalid, top, now)), committed := AddCommitted(s.committed, rows),
       writes := s.writes + [s.leases[sid].epoch], sessions := s.sessions[sid := x.(sequence := top)])
  }

  function Acking(s: Sys, c: nat, key: string): Sys
    requires HasGroup(s, c, key)
  {
    var rows := GroupOf(s, c, key).rows;
    var s' := Fence(s, c, key, AckEvents(s.rec, [rows[0].eventId]), rows[1..]);
    if Manned(s, c) then s'.(acked := s.acked + [rows[0].sequence]) else s'
  }

  /** The ack is applied, if the lease still holds, but its reply is lost: the worker takes it for a failure. */
  function AckingLost(s: Sys, c: nat, key: string): Sys
    requires HasGroup(s, c, key)
  {
    var g := GroupOf(s, c, key);
    var s' := SetGroup(if Manned(s, c) then Moved(s, c, AckEvents(s.rec, [g.rows[0].eventId])) else s, c, key,
                       g.(phase := Finished(false)));
    if Manned(s, c) then s'.(acked := s.acked + [g.rows[0].sequence]) else s'
  }

  /** A held key ends its group; otherwise the worker goes on with the next row. */
  function AfterPark(cfg: Config, rows: seq<OutboxRow>): seq<OutboxRow>
    requires rows != []
  {
    if cfg.holdKey then [] else rows[1..]
  }

  predicate Drains(s: Sys, sid: nat) {
    Has(s, sid) && s.sessions[sid].drain.Draining? && s.sessions[sid].drain.crew in s.crews
  }

  function Rest(s: Sys, sid: nat): Sys
    requires Has(s, sid)
  {
    Put(s, sid, s.sessions[sid].(drain := Quiet))
  }

  function Restrict(groups: map<string, Group>, left: set<string>): map<string, Group> {
    map k | k in groups && k in left :: groups[k]
  }

  /** A read or a worker fails for another reason than the lease: the drain is over for the session, while
      the workers of the keys in `left` go on. */
  function Throwing(s: Sys, sid: nat, left: set<string>): Sys {
    if !Has(s, sid) then s
    else if !Drains(s, sid) then Rest(s, sid)
    else
      var groups := s.crews[s.sessions[sid].drain.crew].groups;
      PutGroups(Rest(s, sid), s.sessions[sid].drain.crew, Restrict(groups, left))
  }

  ghost function Apply(cfg: Config, s: Sys, step: Step): Sys {
    match step
    case Acquire(sid, owner, ttl, clock) =>
      if sid in s.leases || sid in s.sessions || !CanAcquire(s.rec, owner, clock) then s
      else
        var rec := AcquireLease(s.rec, owner, ttl, clock);
        s.(rec := rec, leases := s.leases[sid := rec.lease.value],
           sessions := s.sessions[sid := Session(false, 0, Quiet)], granted := s.granted + [rec.epochCounter])
    case Renew(sid, ttl, clock) => if !Has(s, sid) then s else s.(rec := RenewLease(s.rec, s.leases[sid], ttl, clock))
    case Release(sid) => if !Has(s, sid) then s else Drop(s.(rec := ReleaseLease(s.rec, s.leases[sid])), sid)
    case Crash(sid) => if sid !in s.leases then Drop(s, sid) else Drop(Vanish(s, s.leases[sid]), sid)
    case LoadState(sid) =>
      if !Has(s, sid) || s.sessions[sid].loaded then s
        else Put(s, sid, s.sessions[sid].(loaded := true, sequence := Sequence(s.rec)))
    case Commit(sid, rows, invalid, now) =>
      if !Has(s, sid) || !CanCommit(s, s.sessions[sid], rows, invalid) then s
      else if !Current(s, sid) then Drop(s, sid)
      else Committing(s, sid, rows, invalid, now)
    case CommitFails(sid, events) =>
      if !Has(s, sid) then s else Put(s, sid, s.sessions[sid].(sequence := s.sessions[sid].sequence + events))
    case LoadPending(sid, limit, rows) =>
      if !Has(s, sid) || !s.sessions[sid].drain.Quiet? || !IsPendingPrefix(s.rec.outbox, limit, rows) then s
      else Put(s, sid, s.sessions[sid].(drain := Loading(rows)))
    case LoadHeld(sid, c) =>
      if !Has(s, sid) || !s.sessions[sid].drain.Loading? || c in s.crews then s
      else
        var groups := GroupsOf(cfg, s.sessions[sid].drain.rows, HeldKeys(s.rec));
        Put(s, sid, s.sessions[sid].(drain := Draining(c))).(crews := s.crews[c := Crew(s.leases[sid], groups)])
    case Start(c, key) =>
      if !HasGroup(s, c, key) || !GroupOf(s, c, key).phase.Ready? then s
      else SetGroup(s, c, key, GroupOf(s, c, key).(phase := InFlight))
    case Finish(c, key, ok) =>
      if !HasGroup(s, c, key) || !GroupOf(s, c, key).phase.InFlight? then s
      else
        var g := GroupOf(s, c, key);
        var delivered := if ok then s.delivered + {g.rows[0].sequence} else s.delivered;
        SetGroup(s, c, key, g.(phase := Finished(ok))).(delivered := delivered)
    case Ack(c, key) =>
      if !HasGroup(s, c, key) || GroupOf(s, c, key).phase != Finished(true) then s else Acking(s, c, key)
    case AckError(c, key) =>
      if !HasGroup(s, c, key) || GroupOf(s, c, key).phase != Finished(true) then s
      else SetGroup(s, c, key, GroupOf(s, c, key).(phase := Finished(false)))
    case AckLost(c, key) =>
      if !HasGroup(s, c, key) || GroupOf(s, c, key).phase != Finished(true) then s else AckingLost(s, c, key)
    case Record(c, key, error, retryAt) =>
      if !HasGroup(s, c, key) || GroupOf(s, c, key).phase != Finished(false) then s
      else
        var row := GroupOf(s, c, key).rows[0];
        if row.attempts + 1 >= cfg.maxAttempts then s
        else Fence(s, c, key, RecordAttempt(s.rec, row.eventId, Some(error), Some(retryAt)), [])
    case Park(c, key, now) =>
      if !HasGroup(s, c, key) || GroupOf(s, c, key).phase != Finished(false) then s
      else
        var row := GroupOf(s, c, key).rows[0];
        if row.attempts + 1 < cfg.maxAttempts then s
        else Fence(s, c, key, ParkEvent(s.rec, ParkedOf(cfg, row, now)), AfterPark(cfg, GroupOf(s, c, key).rows))
    case Abandon(c, key) =>
      if !HasGroup(s, c, key) then s else SetGroup(s, c, key, Group([], Ready))
    case EndPass(sid) =>
      if !Drains(s, sid) || s.crews[s.sessions[sid].drain.crew].groups != map[] then s else Rest(s, sid)
    case DrainThrows(sid, left) => Throwing(s, sid, left)
    case Retry(ids) => s.(rec := RetryParked(s.rec, ids))
    case Discard(ids) => s.(rec := DiscardParked(s.rec, ids), discarded := s.discarded + ParkedSeqs(s.rec, Elems(ids)))
  }

  ghost function Run(cfg: Config, s: Sys, steps: seq<Step>): Sys {
    if steps == [] then s else Apply(cfg, Run(cfg, s, steps[..|steps| - 1]), steps[|steps| - 1])
  }

  ghost predicate Init(s: Sys) {
    && s.rec == EMPTY_RECORD && s.leases == map[] && s.sessions == map[] && s.crews == map[] && s.committed == map[]
    && s.delivered == {} && s.discarded == {} && s.acked == [] && s.granted == [] && s.writes == []
  }

  // ---- assumptions on runs --------------------------------------------------------------------

  /** A worker of crew `c` has a row of event `id` in hand. */
  ghost predicate InHand(s: Sys, c: nat, id: string) {
    c in s.crews && exists k, r :: k in s.crews[c].groups && r in s.crews[c].groups[k].rows && r.eventId == id
  }

  /** A committed id is new: not pending, not parked, and not in the hands of a worker that could still write. */
  ghost predicate FreshIds(s: Sys, step: Step) {
    step.Commit? ==>
      && (forall r :: r in step.rows ==> r.eventId !in s.rec.outbox && r.eventId !in s.rec.parked)
      && (forall i, j :: 0 <= i < j < |step.rows| ==> step.rows[i].eventId != step.rows[j].eventId)
      && (forall r, c :: r in step.rows && Manned(s, c) ==> !InHand(s, c, r.eventId))
  }

  /** The event `e` is followed by a loaded row of its key. */
  ghost predicate Followed(cfg: Config, e: Event, rows: seq<OutboxRow>) {
    exists r :: r in rows && e.sequence < r.sequence && cfg.key(r.event) == cfg.key(e)
  }

  /** No administrator retries a parked event while some drain has read a later row of its key and has
      yet to read the held keys. */
  ghost predicate RetryOutsideGap(cfg: Config, s: Sys, step: Step) {
    step.Retry? ==>
      forall sid, id :: sid in s.sessions && id in step.ids && s.sessions[sid].drain.Loading? && Retryable(s.rec,
          id) ==>
        !Followed(cfg, s.rec.parked[id].event.value, s.sessions[sid].drain.rows)
  }

  ghost predicate Orderly(cfg: Config, s: Sys, steps: seq<Step>) {
    steps == [] ||
    var s' := Run(cfg, s, steps[..|steps| - 1]);
    var step := steps[|steps| - 1];
    Orderly(cfg, s, steps[..|steps| - 1]) && FreshIds(s', step) && RetryOutsideGap(cfg, s', step)
  }

  // ---- what polling commits is what the protocol takes --------------------------------------------

  /** The rows of a page, and of the deletes of a full scan, are new rows after the session's sequence, and what a
      page quarantines carries no event and holds no key. */
  lemma PagesCommitNewRows(p: Diff.Poller, a: PageIn)
    requires Spec(p, a).Some?
    ensures NewRows(Spec(p, a).value.events, a.seq0)
    ensures forall r :: r in Spec(p, a).value.parked ==> r.kind == Invalid && r.event.None? && r.holdKey.None?
  {
    var events := Spec(p, a).value.events;
    forall i | 0 <= i < |events|
      ensures FreshlyMade(events[i], a.lane, a.seq0 + 1 + i, a.now) && events[i].eventId == events[i].event.id
    {
      PageRowsTell(p, a, i);
    }
    InvalidItemsFollowPolicy(p, a);
  }

  lemma DeletesCommitNewRows(p: Diff.Poller, lane: Lane, missing: seq<string>, rows: map<string, ItemRow>, seq0: nat,
                             now: int)
    ensures NewRows(DeleteRows(p, lane, missing, |missing|, rows, seq0, now), seq0)
  {
    var out := DeleteRows(p, lane, missing, |missing|, rows, seq0, now);
    forall i | 0 <= i < |out|
      ensures FreshlyMade(out[i], lane, seq0 + 1 + i, now) && out[i].eventId == out[i].event.id
    {
      DeleteRowsTell(p, lane, missing, |missing|, rows, seq0, now, i);
    }
  }
}
