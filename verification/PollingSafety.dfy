/** Safety of the polling protocol over every run: fencing, serializable read-diff-commit, sequences,
    and exact full-scan deletes. Nothing is assumed of the poller. */
module PollingSafety {
  import opened Store
  import opened Diff
  import opened Pages
  import opened Polling
  import Leases

  /** Epochs: see `Leases.Inv`. */
  ghost predicate LeaseInv(s: Sys) {
    s.leases.Keys == s.work.Keys && Leases.Inv(s.rec, s.leases, s.granted, s.writes)
  }

  /** What the lease holder read is what is stored. */
  ghost predicate ReadsHold(cfg: Config, rec: KeyRecord, w: Work) {
    && (w.scan.Some? ==> w.scan.value.seen <= rec.items.Keys)
    && (w.phase.Loaded? ==> ReadsFrom(w.phase.existing, rec.items, Ids(cfg.p, ValidItems(cfg.p, w.phase.raw))))
    && (w.phase.Streamed? ==> w.scan.Some? && Enumerates(w.phase.missing, rec.items.Keys - w.scan.value.seen))
    && (w.phase.ScanLoaded? ==>
          && w.scan.Some? && Enumerates(w.phase.missing, rec.items.Keys - w.scan.value.seen)
          && w.phase.rows == LoadVersions(rec, Elems(w.phase.missing)))
    && (w.loaded ==> Sequence(rec) <= w.sequence)
    && (!w.phase.Idle? ==> w.loaded)
  }

  ghost predicate ReadInv(cfg: Config, s: Sys) {
    forall sid :: Current(s, sid) && sid in s.work ==> ReadsHold(cfg, s.rec, s.work[sid])
  }

  ghost predicate Ascending(stream: seq<Event>, top: nat) {
    && (forall i, j :: 0 <= i < j < |stream| ==> stream[i].sequence < stream[j].sequence)
    && (forall i :: 0 <= i < |stream| ==> stream[i].sequence <= top)
  }

  /** The stored rows are those of valid items, and the stream is in sequence order. */
  ghost predicate StreamInv(cfg: Config, s: Sys) {
    ItemsOk(cfg, s.rec.items) && Ascending(s.stream, Sequence(s.rec))
  }

  ghost predicate ItemsOk(cfg: Config, items: map<string, ItemRow>) {
    SchemaOk(cfg.p, items) && FromItems(cfg.p, items)
  }

  ghost predicate Inv(cfg: Config, s: Sys) {
    LeaseInv(s) && ReadInv(cfg, s) && StreamInv(cfg, s)
  }

  /** A write that leaves its writer's reads, the rows and the stream in order. */
  ghost predicate WriteOk(cfg: Config, s: Sys, rec: KeyRecord, events: seq<Event>, w: Work) {
    ReadsHold(cfg, rec, w) && ItemsOk(cfg, rec.items) && Ascending(s.stream + events, Sequence(rec))
  }

  // ---- fencing --------------------------------------------------------------------------------

  lemma DropKeepsLeases(s: Sys, sid: nat)
    requires LeaseInv(s)
    ensures LeaseInv(Drop(s, sid))
  {
    Leases.Kept(s.rec, s.rec, s.leases, s.leases - {sid}, s.granted, s.writes);
  }

  /** A rejected write changes nothing stored; an accepted one leaves its writer the only session
      that passes the fence. */
  lemma WriteKeepsLeases(s: Sys, sid: nat, rec: KeyRecord, events: seq<Event>, w: Work)
    requires LeaseInv(s) && sid in s.leases && rec.lease == s.rec.lease && rec.epochCounter == s.rec.epochCounter
    ensures LeaseInv(Write(s, sid, rec, events, w))
    ensures Current(s, sid) ==> forall t :: Current(Write(s, sid, rec, events, w), t) ==> t == sid
  {
    if Current(s, sid) {
      Leases.Kept(s.rec, rec, s.leases, s.leases, s.granted, s.writes);
      Leases.Wrote(rec, s.leases, s.granted, s.writes, sid);
      forall t | Current(Write(s, sid, rec, events, w), t) ensures t == sid {
        Leases.Exclusive(s.rec, s.leases, s.granted, s.writes, sid, t);
      }
    } else {
      DropKeepsLeases(s, sid);
    }
  }

  // ---- the stored items move only under the lease ---------------------------------------------

  /** Steps that leave items, sequence, stream and everybody's work alone. */
  lemma QuietStep(cfg: Config, s: Sys, s': Sys)
    requires Inv(cfg, s) && LeaseInv(s')
    requires s'.rec.items == s.rec.items && Sequence(s'.rec) == Sequence(s.rec) && s'.stream == s.stream
    requires forall t :: t in s'.work ==> (t in s.work && s'.work[t] == s.work[t]) || s'.work[t] == IDLE
    requires forall t :: Current(s', t) ==> Current(s, t) || (t in s'.work && s'.work[t] == IDLE)
    ensures Inv(cfg, s')
  {
    forall t | Current(s', t) && t in s'.work ensures ReadsHold(cfg, s'.rec, s'.work[t]) {}
  }

  /** Steps in which one session changes what it holds and nothing is stored. */
  lemma LocalStep(cfg: Config, s: Sys, sid: nat, w: Work)
    requires Inv(cfg, s) && Has(s, sid)
    requires Current(s, sid) ==> ReadsHold(cfg, s.rec, w)
    ensures Inv(cfg, Put(s, sid, w))
  {
    var s' := Put(s, sid, w);
    assert s'.work.Keys == s.work.Keys;
    forall t | Current(s', t) && t in s'.work ensures ReadsHold(cfg, s'.rec, s'.work[t]) { assert Current(s, t); }
  }

  /** An accepted write by the lease holder. */
  lemma WriteStep(cfg: Config, s: Sys, sid: nat, rec: KeyRecord, events: seq<Event>, w: Work)
    requires Inv(cfg, s) && Has(s, sid) && rec.lease == s.rec.lease && rec.epochCounter == s.rec.epochCounter
    requires Current(s, sid) ==> WriteOk(cfg, s, rec, events, w)
    ensures Inv(cfg, Write(s, sid, rec, events, w))
  {
    WriteKeepsLeases(s, sid, rec, events, w);
    var s' := Write(s, sid, rec, events, w);
    if !Current(s, sid) { QuietStep(cfg, s, s'); }
  }

  lemma AscendingAppend(stream: seq<Event>, top: nat, rows: seq<OutboxRow>, seq0: nat)
    requires Ascending(stream, top) && top <= seq0 && Numbered(rows, seq0)
    ensures Ascending(stream + EventsOf(rows), seq0 + |rows|)
  {
    var more := EventsOf(rows);
    var all := stream + more;
    assert forall i :: 0 <= i < |more| ==> more[i].sequence == seq0 + 1 + i;
    forall i | 0 <= i < |all|
      ensures all[i].sequence <= seq0 + |rows| && (i >= |stream| ==> all[i].sequence == seq0 + 1 + i - |stream|) {
      assert all[i] == if i < |stream| then stream[i] else more[i - |stream|];
    }
  }

  // ---- page commits ---------------------------------------------------------------------------

  /** The record after a page commit: the page's effect on the items, and the page's sequence. */
  lemma CommitPollItems(rec: KeyRecord, batch: CommitBatch)
    requires batch.deletes == []
    ensures CommitPoll(rec, batch).items == PutItems(rec.items, batch.upserts)
    ensures batch.statePatch.sequence.Some? ==> Sequence(CommitPoll(rec, batch)) == batch.statePatch.sequence.value
  {
    assert PutItems(rec.items, batch.upserts) - Elems([]) == PutItems(rec.items, batch.upserts);
  }

  lemma PageIds(p: Poller, raw: seq<Item>)
    ensures Ids(p, Latest(p, ValidItems(p, raw))) == Ids(p, ValidItems(p, raw))
  {
    LatestIsDistinct(p, ValidItems(p, raw));
  }

  /** The items at issue when a forced page is committed. */
  function LatestOf(cfg: Config, w: Work): seq<Item>
    requires w.phase.Loaded?
  {
    Latest(cfg.p, ValidItems(cfg.p, w.phase.raw))
  }

  lemma LatestAreValid(cfg: Config, w: Work)
    requires w.phase.Loaded?
    ensures forall x :: x in LatestOf(cfg, w) ==> cfg.p.valid(x)
  {
    ValidItemsFacts(cfg.p, w.phase.raw);
    LatestIsDistinct(cfg.p, ValidItems(cfg.p, w.phase.raw));
  }

  /** Exactly what an accepted page commit does to the stored items, given that reads hold. */
  lemma PageCommitEffect(cfg: Config, rec: KeyRecord, w: Work, now: int)
    requires w.phase.Loaded? && PageOf(cfg, w, now).Some? && ReadsHold(cfg, rec, w)
    ensures
      var c := PageOf(cfg, w, now).value;
      var rec' := AfterPage(cfg, rec, w, c, now);
      && PageEffect(cfg.p, LatestOf(cfg, w), rec.items, rec'.items)
      && (ItemsOk(cfg, rec.items) ==> ItemsOk(cfg, rec'.items))
      && (SchemaOk(cfg.p, rec.items) ==>
            (Fold(cfg.p, Hashes(rec.items), EventsOf(c.events)) == Hashes(rec'.items) <==>
             (w.phase.force ==> VersionsTell(cfg.p, LatestOf(cfg, w), rec.items))))
  {
    var q, c := w.phase, PageOf(cfg, w, now).value;
    PageIsFaithful(cfg.p, rec.items, cfg.onInvalid, q.lane, q.force, q.fullScan, q.raw, q.existing, w.sequence, now);
    CommitPollItems(rec, PageBatch(cfg, w, c, now));
    LatestAreValid(cfg, w);
    EffectKeepsRows(cfg.p, LatestOf(cfg, w), rec.items, PutItems(rec.items, c.upserts));
  }

  lemma PageCommitNumbers(cfg: Config, rec: KeyRecord, w: Work, now: int)
    requires w.phase.Loaded? && PageOf(cfg, w, now).Some?
    ensures
      var c := PageOf(cfg, w, now).value;
      Sequence(AfterPage(cfg, rec, w, c, now)) == c.sequence == w.sequence + |c.events| && Numbered(c.events,
          w.sequence)
  {
    var q, c := w.phase, PageOf(cfg, w, now).value;
    PageSequences(cfg.p, cfg.onInvalid, q.lane, q.force, q.fullScan, q.raw, q.existing, w.sequence, now);
    CommitPollItems(rec, PageBatch(cfg, w, c, now));
  }

  lemma CommitKeepsInv(cfg: Config, s: Sys, sid: nat, applied: bool, replied: bool)
    requires Inv(cfg, s)
    ensures Inv(cfg, ApplyCommit(cfg, s, sid, applied, replied))
  {
    if !Has(s, sid) || !s.work[sid].phase.Loaded? { return; }
    var w := s.work[sid];
    if PageOf(cfg, w, s.now).None? {
      LocalStep(cfg, s, sid, w.(phase := Idle, scan := None));
      return;
    }
    var q, c := w.phase, PageOf(cfg, w, s.now).value;
    PageSequences(cfg.p, cfg.onInvalid, q.lane, q.force, q.fullScan, q.raw, q.existing, w.sequence, s.now);
    if !applied {
      LocalStep(cfg, s, sid, CycleOver(w, c.sequence));
    } else {
      if Current(s, sid) { PageCommitHolds(cfg, s, w, replied); }
      WriteStep(cfg, s, sid, AfterPage(cfg, s.rec, w, c, s.now), EventsOf(c.events),
                if replied then Committed(cfg, w, c) else CycleOver(w, c.sequence));
    }
  }

  lemma PageCommitHolds(cfg: Config, s: Sys, w: Work, replied: bool)
    requires StreamInv(cfg, s) && ReadsHold(cfg, s.rec, w) && w.phase.Loaded? && PageOf(cfg, w, s.now).Some?
    ensures
      var c := PageOf(cfg, w, s.now).value;
      WriteOk(cfg, s, AfterPage(cfg, s.rec, w, c, s.now), EventsOf(c.events),
              if replied then Committed(cfg, w, c) else CycleOver(w, c.sequence))
  {
    var c := PageOf(cfg, w, s.now).value;
    PageCommitEffect(cfg, s.rec, w, s.now);
    PageCommitNumbers(cfg, s.rec, w, s.now);
    AscendingAppend(s.stream, Sequence(s.rec), c.events, w.sequence);
    PageIds(cfg.p, w.phase.raw);
  }

  // ---- full-scan deletes ----------------------------------------------------------------------

  /** One `deleted` event for each stored identity the scan did not see, in the order listed. */
  lemma ScanDeleteEvents(cfg: Config, rec: KeyRecord, w: Work, now: int)
    requires w.phase.ScanLoaded? && ReadsHold(cfg, rec, w)
    ensures
      var events := DeletesOf(cfg, w, now);
      && |events| == |w.phase.missing| == |rec.items.Keys - w.scan.value.seen|
      && (forall i :: 0 <= i < |events| ==>
          events[i].event.kind == Deleted && events[i].event.subject == w.phase.missing[i])
      && Numbered(events, w.sequence)
  {
    assert forall id :: id in w.phase.missing ==> id in Elems(w.phase.missing);
    OneDeleteEach(cfg.p, Reconcile, w.phase.missing, |w.phase.missing|, w.phase.rows, w.sequence, now);
    DistinctCount(w.phase.missing);
  }

  /** An accepted delete commit leaves exactly the identities the scan saw, untouched. */
  lemma ScanDeletesAreExact(cfg: Config, rec: KeyRecord, w: Work, now: int)
    requires w.phase.ScanLoaded? && ReadsHold(cfg, rec, w)
    ensures
      var events := DeletesOf(cfg, w, now);
      var rec' := AfterDeletes(cfg, rec, w, events, now);
      && rec'.items.Keys == w.scan.value.seen
      && (forall id :: id in rec'.items ==> rec'.items[id] == rec.items[id])
      && Fold(cfg.p, Hashes(rec.items), EventsOf(events)) == Hashes(rec'.items)
      && Sequence(rec') == w.sequence + |events|
  {
    var events := DeletesOf(cfg, w, now);
    ScanDeleteEvents(cfg, rec, w, now);
    DeletesFold(cfg, rec, events, w.phase.missing);
    assert AfterDeletes(cfg, rec, w, events, now).items == rec.items - Elems(w.phase.missing);
  }

  lemma DeletesFold(cfg: Config, rec: KeyRecord, events: seq<OutboxRow>, missing: seq<string>)
    requires |events| == |missing|
    requires forall i :: 0 <= i < |events| ==> events[i].event.kind == Deleted && events[i].event.subject == missing[i]
    ensures Fold(cfg.p, Hashes(rec.items), EventsOf(events)) == Hashes(rec.items - Elems(missing))
  {
    ReplayDeletes(cfg.p, Hashes(rec.items), EventsOf(events), missing);
    assert Hashes(rec.items - Elems(missing)) == Hashes(rec.items) - Elems(missing);
  }

  lemma {:induction false} DistinctCount(xs: seq<string>)
    requires forall i, j :: 0 <= i < j < |xs| ==> xs[i] != xs[j]
    ensures |Elems(xs)| == |xs|
  {
    if xs == [] {
    } else {
      var init, last := xs[..|xs| - 1], xs[|xs| - 1];
      assert xs == init + [last];
      DistinctCount(init);
      assert Elems(xs) == Elems(init) + {last} && last !in Elems(init);
    }
  }

  lemma DeletesKeepInv(cfg: Config, s: Sys, sid: nat, applied: bool)
    requires Inv(cfg, s)
    ensures Inv(cfg, ApplyDeletes(cfg, s, sid, applied))
  {
    if !Has(s, sid) || !s.work[sid].phase.ScanLoaded? { assert ApplyDeletes(cfg, s, sid, applied) == s; }
    else if applied { DeletesApplied(cfg, s, sid); }
    else { DeletesFailed(cfg, s, sid); }
  }

  lemma DeletesFailed(cfg: Config, s: Sys, sid: nat)
    requires Inv(cfg, s) && Has(s, sid) && s.work[sid].phase.ScanLoaded?
    ensures Inv(cfg, ApplyDeletes(cfg, s, sid, false))
  {
    var w := s.work[sid];
    LocalStep(cfg, s, sid, CycleOver(w, w.sequence + |DeletesOf(cfg, w, s.now)|));
  }

  lemma DeletesApplied(cfg: Config, s: Sys, sid: nat)
    requires Inv(cfg, s) && Has(s, sid) && s.work[sid].phase.ScanLoaded?
    ensures Inv(cfg, ApplyDeletes(cfg, s, sid, true))
  {
    var w := s.work[sid];
    var events := DeletesOf(cfg, w, s.now);
    CurrentDeletesHold(cfg, s, sid);
    WriteStep(cfg, s, sid, AfterDeletes(cfg, s.rec, w, events, s.now), EventsOf(events),
              CycleOver(w, w.sequence + |events|));
  }

  lemma CurrentDeletesHold(cfg: Config, s: Sys, sid: nat)
    requires Inv(cfg, s) && Has(s, sid) && s.work[sid].phase.ScanLoaded?
    ensures
      var w := s.work[sid];
      var events := DeletesOf(cfg, w, s.now);
      Current(s, sid) ==>
          WriteOk(cfg, s, AfterDeletes(cfg, s.rec, w, events, s.now), EventsOf(events),
                  CycleOver(w, w.sequence + |events|))
  {
    if Current(s, sid) { DeletesHold(cfg, s, s.work[sid]); }
  }

  lemma DeletesHold(cfg: Config, s: Sys, w: Work)
    requires StreamInv(cfg, s) && ReadsHold(cfg, s.rec, w) && w.phase.ScanLoaded?
    ensures
      var events := DeletesOf(cfg, w, s.now);
      WriteOk(cfg, s, AfterDeletes(cfg, s.rec, w, events, s.now), EventsOf(events), CycleOver(w, w.sequence + |events|))
  {
    ScanDeleteEvents(cfg, s.rec, w, s.now);
    ScanDeletesAreExact(cfg, s.rec, w, s.now);
    AscendingAppend(s.stream, Sequence(s.rec), DeletesOf(cfg, w, s.now), w.sequence);
  }

  // ---- every step, every run ------------------------------------------------------------------

  predicate FetchStep(step: Step) { step.LoadState? || step.Fetch? || step.Advance? || step.SideFetch? }
  predicate ScanStep(step: Step) { step.BeginScan? || step.ReadRows? || step.StreamIds? || step.LoadMissing? }

  lemma FetchStepKeepsInv(cfg: Config, s: Sys, step: Step)
    requires Inv(cfg, s) && FetchStep(step)
    ensures Inv(cfg, Apply(cfg, s, step))
  {
    var s' := Apply(cfg, s, step);
    if s' != s { LocalStep(cfg, s, step.sid, s'.work[step.sid]); }
  }

  lemma BeginScanKeepsInv(cfg: Config, s: Sys, step: Step)
    requires Inv(cfg, s) && step.BeginScan?
    ensures Inv(cfg, Apply(cfg, s, step))
  {
    if Has(s, step.sid) && s.work[step.sid].phase.Idle? {
      LocalStep(cfg, s, step.sid, s.work[step.sid].(scan := Some(Scan({}, s.now))));
    }
  }

  lemma ReadRowsKeepsInv(cfg: Config, s: Sys, step: Step)
    requires Inv(cfg, s) && step.ReadRows?
    ensures Inv(cfg, Apply(cfg, s, step))
  {
    if Has(s, step.sid) && s.work[step.sid].phase.Ready? {
      LocalStep(cfg, s, step.sid, Apply(cfg, s, step).work[step.sid]);
    }
  }

  lemma StreamIdsKeepsInv(cfg: Config, s: Sys, step: Step)
    requires Inv(cfg, s) && step.StreamIds?
    ensures Inv(cfg, Apply(cfg, s, step))
  {
    if Apply(cfg, s, step) != s { LocalStep(cfg, s, step.sid, s.work[step.sid].(phase := Streamed(step.missing))); }
  }

  lemma LoadMissingKeepsInv(cfg: Config, s: Sys, step: Step)
    requires Inv(cfg, s) && step.LoadMissing?
    ensures Inv(cfg, Apply(cfg, s, step))
  {
    if Has(s, step.sid) && s.work[step.sid].phase.Streamed? {
      LocalStep(cfg, s, step.sid, Apply(cfg, s, step).work[step.sid]);
    }
  }

  lemma ScanStepKeepsInv(cfg: Config, s: Sys, step: Step)
    requires Inv(cfg, s) && ScanStep(step)
    ensures Inv(cfg, Apply(cfg, s, step))
  {
    if step.BeginScan? { BeginScanKeepsInv(cfg, s, step); }
    else if step.ReadRows? { ReadRowsKeepsInv(cfg, s, step); }
    else if step.StreamIds? { StreamIdsKeepsInv(cfg, s, step); }
    else { LoadMissingKeepsInv(cfg, s, step); }
  }

  lemma SaveKeepsInv(cfg: Config, s: Sys, step: Step)
    requires Inv(cfg, s) && step.SaveState?
    ensures Inv(cfg, Apply(cfg, s, step))
  {
    if Has(s, step.sid) && s.work[step.sid].loaded && s.work[step.sid].phase.Idle? {
      var w := s.work[step.sid];
      assert s.stream + [] == s.stream;
      WriteStep(cfg, s, step.sid, ApplyPatch(s.rec, Patch(cfg, w.lanes, w.sequence, s.now)), [], w);
    }
  }

  predicate ApiStep(step: Step) { step.Tick? || step.ApiWrite? || step.ApiDelete? }
  lemma ApiStepKeepsInv(cfg: Config, s: Sys, step: Step)
    requires Inv(cfg, s) && ApiStep(step)
    ensures Inv(cfg, Apply(cfg, s, step))
  {
    QuietStep(cfg, s, Apply(cfg, s, step));
  }

  lemma RenewKeepsInv(cfg: Config, s: Sys, sid: nat, ttl: int, clock: int)
    requires Inv(cfg, s) && Has(s, sid)
    ensures Inv(cfg, s.(rec := RenewLease(s.rec, s.leases[sid], ttl, clock)))
  {
    var rec := RenewLease(s.rec, s.leases[sid], ttl, clock);
    Leases.Kept(s.rec, rec, s.leases, s.leases, s.granted, s.writes);
    QuietStep(cfg, s, s.(rec := rec));
  }

  lemma LeaveKeepsInv(cfg: Config, s: Sys, sid: nat, rec: KeyRecord)
    requires Inv(cfg, s) && (rec == s.rec || rec == s.rec.(lease := None))
    ensures Inv(cfg, Drop(s.(rec := rec), sid))
  {
    Leases.Kept(s.rec, rec, s.leases, s.leases - {sid}, s.granted, s.writes);
    QuietStep(cfg, s, Drop(s.(rec := rec), sid));
  }

  lemma RewindKeepsInv(cfg: Config, s: Sys, patch: StatePatch)
    requires Inv(cfg, s) && patch.sequence.None?
    ensures Inv(cfg, s.(rec := ApplyPatch(s.rec, patch)))
  {
    Leases.Kept(s.rec, ApplyPatch(s.rec, patch), s.leases, s.leases, s.granted, s.writes);
    QuietStep(cfg, s, s.(rec := ApplyPatch(s.rec, patch)));
  }

  predicate LeaseStep(step: Step) { step.Renew? || step.Release? || step.Crash? || step.Rewind? }

  lemma LeaseStepKeepsInv(cfg: Config, s: Sys, step: Step)
    requires Inv(cfg, s) && LeaseStep(step)
    ensures Inv(cfg, Apply(cfg, s, step))
  {
    match step
    case Renew(sid, ttl, clock) => if Has(s, sid) { RenewKeepsInv(cfg, s, sid, ttl, clock); }
    case Release(sid) => if Has(s, sid) { LeaveKeepsInv(cfg, s, sid, ReleaseLease(s.rec, s.leases[sid])); }
    case Crash(sid) => LeaveKeepsInv(cfg, s, sid, s.rec);
    case Rewind(cursor) => RewindKeepsInv(cfg, s,
                                          StatePatch(Some(RecLanes(s.rec)[Live := cursor]), None, None, None, None));
  }

  predicate LocalStepKind(step: Step) { FetchStep(step) || ScanStep(step) }

  lemma LocalStepKeepsInv(cfg: Config, s: Sys, step: Step)
    requires Inv(cfg, s) && LocalStepKind(step)
    ensures Inv(cfg, Apply(cfg, s, step))
  {
    if FetchStep(step) { FetchStepKeepsInv(cfg, s, step); } else { ScanStepKeepsInv(cfg, s, step); }
  }

  predicate CommitKind(step: Step) { step.Commit? || step.CommitDeletes? || step.SaveState? }

  lemma CommitStepKeepsInv(cfg: Config, s: Sys, step: Step)
    requires Inv(cfg, s) && CommitKind(step)
    ensures Inv(cfg, Apply(cfg, s, step))
  {
    match step
    case Commit(sid, applied, replied) => CommitKeepsInv(cfg, s, sid, applied, replied);
    case CommitDeletes(sid, applied) => DeletesKeepInv(cfg, s, sid, applied);
    case SaveState(_) => SaveKeepsInv(cfg, s, step);
  }

  lemma StepKeepsInv(cfg: Config, s: Sys, step: Step)
    requires Inv(cfg, s)
    ensures Inv(cfg, Apply(cfg, s, step))
  {
    if CommitKind(step) { CommitStepKeepsInv(cfg, s, step); }
    else if LocalStepKind(step) { LocalStepKeepsInv(cfg, s, step); }
    else if ApiStep(step) { ApiStepKeepsInv(cfg, s, step); }
    else if step.Acquire? { AcquireKeepsInv(cfg, s, step); }
    else { LeaseStepKeepsInv(cfg, s, step); }
  }

  lemma AcquireKeepsInv(cfg: Config, s: Sys, step: Step)
    requires Inv(cfg, s) && step.Acquire?
    ensures Inv(cfg, Apply(cfg, s, step))
  {
    if step.sid in s.leases || step.sid in s.work || !CanAcquire(s.rec, step.owner, step.clock) { return; }
    var rec := AcquireLease(s.rec, step.owner, step.ttl, step.clock);
    var s' := s.(rec := rec, leases := s.leases[step.sid := rec.lease.value], work := s.work[step.sid := IDLE],
                 granted := s.granted + [rec.epochCounter]);
    assert Apply(cfg, s, step) == s';
    Leases.Acquired(s.rec, s.leases, s.granted, s.writes, step.sid, step.owner, step.ttl, step.clock);
    QuietStep(cfg, s, s');
  }

  /** Every reachable state satisfies the invariant, whatever the interleaving. */
  lemma {:induction false} RunKeepsInv(cfg: Config, s: Sys, steps: seq<Step>)
    requires Init(cfg, s)
    ensures Inv(cfg, Run(cfg, s, steps))
  {
    if steps == [] {
    } else {
      RunKeepsInv(cfg, s, steps[..|steps| - 1]);
      StepKeepsInv(cfg, Run(cfg, s, steps[..|steps| - 1]), steps[|steps| - 1]);
    }
  }

  // ---- main results ---------------------------------------------------------------------------

  /** No two acquisitions ever get the same epoch, accepted fenced writes occur in nondecreasing
      epoch order, and at most one session passes the fence at any time. */
  lemma EpochsAreOrdered(cfg: Config, s: Sys, steps: seq<Step>)
    requires Init(cfg, s)
    ensures
      var r := Run(cfg, s, steps);
      && Leases.StrictlyIncreasing(r.granted) && Leases.NonDecreasing(r.writes)
      && (forall e :: e in r.writes ==> e in r.granted)
      && (forall a, b :: Current(r, a) && Current(r, b) ==> a == b)
  {
    RunKeepsInv(cfg, s, steps);
    var r := Run(cfg, s, steps);
    forall a, b | Current(r, a) && Current(r, b) ensures a == b {
      Leases.Exclusive(r.rec, r.leases, r.granted, r.writes, a, b);
    }
  }

  /** If a page commit would be accepted, the rows stored now under the page's identities are those
      its diff was computed from. */
  lemma ReadDiffCommitIsSerializable(cfg: Config, s: Sys, steps: seq<Step>, sid: nat)
    requires Init(cfg, s)
    ensures
      var r := Run(cfg, s, steps);
      sid in r.work && r.work[sid].phase.Loaded? && Current(r, sid) ==>
        forall id :: id in Ids(cfg.p, ValidItems(cfg.p, r.work[sid].phase.raw)) ==>
          && (id in r.work[sid].phase.existing <==> id in r.rec.items)
          && (id in r.rec.items ==> r.work[sid].phase.existing[id] == r.rec.items[id])
  {
    RunKeepsInv(cfg, s, steps);
  }

  /** Committed events strictly increase in sequence. */
  lemma SequencesIncrease(cfg: Config, s: Sys, steps: seq<Step>)
    requires Init(cfg, s)
    ensures
      var r := Run(cfg, s, steps);
      forall i, j :: 0 <= i < j < |r.stream| ==> r.stream[i].sequence < r.stream[j].sequence
  {
    RunKeepsInv(cfg, s, steps);
  }

  /** `gone` is one `deleted` event for each identity in `before` that is not in `seen`. */
  ghost predicate DeletesExactly(before: set<string>, seen: set<string>, gone: seq<Event>) {
    && |gone| == |before - seen|
    && (forall i :: 0 <= i < |gone| ==> gone[i].kind == Deleted && gone[i].subject in before - seen)
    && (forall i, j :: 0 <= i < j < |gone| ==> gone[i].subject != gone[j].subject)
  }

  lemma DeletesListed(before: set<string>, seen: set<string>, missing: seq<string>, gone: seq<Event>)
    requires Enumerates(missing, before - seen) && |gone| == |missing|
    requires forall i :: 0 <= i < |gone| ==> gone[i].kind == Deleted && gone[i].subject == missing[i]
    ensures DeletesExactly(before, seen, gone)
  {
    DistinctCount(missing);
    assert forall i :: 0 <= i < |missing| ==> missing[i] in Elems(missing);
  }

  /** When a full scan's delete commit is accepted, exactly the identities listed by the scan remain,
      and each identity that was stored and not listed got one `deleted` event. */
  lemma CompletedScanIsExact(cfg: Config, s0: Sys, steps: seq<Step>, s: Sys, sid: nat, seen: set<string>)
    requires Init(cfg, s0) && s == Run(cfg, s0, steps)
    requires Has(s, sid) && Current(s, sid) && s.work[sid].phase.ScanLoaded? && s.work[sid].scan.Some?
    requires s.work[sid].scan.value.seen == seen
    ensures
      var gone := EventsOf(DeletesOf(cfg, s.work[sid], s.now));
      && ApplyDeletes(cfg, s, sid, true).rec.items.Keys == seen
      && ApplyDeletes(cfg, s, sid, true).stream == s.stream + gone
      && DeletesExactly(s.rec.items.Keys, seen, gone)
  {
    RunKeepsInv(cfg, s0, steps);
    ScanIsExact(cfg, s.rec, s.work[sid], s.now, seen);
  }

  lemma ScanIsExact(cfg: Config, rec: KeyRecord, w: Work, now: int, seen: set<string>)
    requires w.phase.ScanLoaded? && ReadsHold(cfg, rec, w) && w.scan.Some? && w.scan.value.seen == seen
    ensures AfterDeletes(cfg, rec, w, DeletesOf(cfg, w, now), now).items.Keys == seen
    ensures DeletesExactly(rec.items.Keys, seen, EventsOf(DeletesOf(cfg, w, now)))
  {
    ScanDeletesAreExact(cfg, rec, w, now);
    ScanListsDeletes(cfg, rec, w, now, seen);
  }

  lemma ScanListsDeletes(cfg: Config, rec: KeyRecord, w: Work, now: int, seen: set<string>)
    requires w.phase.ScanLoaded? && ReadsHold(cfg, rec, w) && w.scan.Some? && w.scan.value.seen == seen
    ensures DeletesExactly(rec.items.Keys, seen, EventsOf(DeletesOf(cfg, w, now)))
  {
    ScanDeleteEvents(cfg, rec, w, now);
    DeletesListed(rec.items.Keys, seen, w.phase.missing, EventsOf(DeletesOf(cfg, w, now)));
  }
}
