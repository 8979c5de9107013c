/** The snapshot as the fold of the stream: exactly which runs of the polling protocol keep it. */
module StreamFold {
  import opened Store
  import opened Diff
  import opened Pages
  import opened Polling
  import opened PollingSafety

  /** Applying all committed events in order yields exactly the stored identities, each with the
      stored fingerprint. */
  ghost predicate FoldOk(cfg: Config, s: Sys) { Fold(cfg.p, map[], s.stream) == Hashes(s.rec.items) }

  /** The step is a page commit that will be accepted. */
  predicate Accepted(cfg: Config, s: Sys, step: Step) {
    && step.Commit? && step.applied && Has(s, step.sid) && Current(s, step.sid)
    && s.work[step.sid].phase.Loaded? && PageOf(cfg, s.work[step.sid], s.now).Some?
  }

  /** A forced page has the stored fingerprint for every item whose version is the stored one. */
  ghost predicate Tells(cfg: Config, s: Sys, step: Step) {
    Accepted(cfg, s, step) && s.work[step.sid].phase.force ==>
        VersionsTell(cfg.p, LatestOf(cfg, s.work[step.sid]), s.rec.items)
  }

  // ---- one step -------------------------------------------------------------------------------

  lemma StreamGrows(cfg: Config, s: Sys, sid: nat, rec: KeyRecord, events: seq<Event>, w: Work)
    requires FoldOk(cfg, s) && Current(s, sid)
    ensures FoldOk(cfg, Write(s, sid, rec, events, w)) <==>
              Fold(cfg.p, Hashes(s.rec.items), events) == Hashes(rec.items)
  {
    ReplayConcat(cfg.p, map[], s.stream, events);
  }

  lemma CommitFolds(cfg: Config, s: Sys, step: Step)
    requires Inv(cfg, s) && FoldOk(cfg, s) && Accepted(cfg, s, step)
    ensures FoldOk(cfg, Apply(cfg, s, step)) <==> Tells(cfg, s, step)
  {
    var w := s.work[step.sid];
    var c := PageOf(cfg, w, s.now).value;
    PageCommitEffect(cfg, s.rec, w, s.now);
    StreamGrows(cfg, s, step.sid, AfterPage(cfg, s.rec, w, c, s.now), EventsOf(c.events),
                if step.replied then Committed(cfg, w, c) else CycleOver(w, c.sequence));
  }

  lemma DeletesFolds(cfg: Config, s: Sys, sid: nat, applied: bool)
    requires Inv(cfg, s) && FoldOk(cfg, s)
    ensures FoldOk(cfg, ApplyDeletes(cfg, s, sid, applied))
  {
    if !Has(s, sid) || !s.work[sid].phase.ScanLoaded? || !applied || !Current(s, sid) { return; }
    var w := s.work[sid];
    var events := DeletesOf(cfg, w, s.now);
    ScanDeletesAreExact(cfg, s.rec, w, s.now);
    StreamGrows(cfg, s, sid, AfterDeletes(cfg, s.rec, w, events, s.now), EventsOf(events),
                CycleOver(w, w.sequence + |events|));
  }

  /** The step leaves items and stream alone. */
  ghost predicate Quiet(cfg: Config, s: Sys, step: Step) {
    Apply(cfg, s, step).rec.items == s.rec.items && Apply(cfg, s, step).stream == s.stream
  }

  lemma FetchIsQuiet(cfg: Config, s: Sys, step: Step)
    requires FetchStep(step)
    ensures Quiet(cfg, s, step)
  {
  }

  lemma ScanIsQuiet(cfg: Config, s: Sys, step: Step)
    requires ScanStep(step)
    ensures Quiet(cfg, s, step)
  {
  }

  lemma ApiIsQuiet(cfg: Config, s: Sys, step: Step)
    requires ApiStep(step)
    ensures Quiet(cfg, s, step)
  {
  }

  lemma LeaseIsQuiet(cfg: Config, s: Sys, step: Step)
    requires LeaseStep(step) || step.Acquire?
    ensures Quiet(cfg, s, step)
  {
  }

  lemma SaveIsQuiet(cfg: Config, s: Sys, step: Step)
    requires step.SaveState?
    ensures Quiet(cfg, s, step)
  {
    assert s.stream + [] == s.stream;
  }

  /** So do all but the accepted commits. */
  lemma OthersAreQuiet(cfg: Config, s: Sys, step: Step)
    requires !step.CommitDeletes? && !Accepted(cfg, s, step)
    ensures Quiet(cfg, s, step)
  {
    if step.Commit? { RefusedIsQuiet(cfg, s, step); }
    else if step.SaveState? { SaveIsQuiet(cfg, s, step); }
    else if FetchStep(step) { FetchIsQuiet(cfg, s, step); }
    else if ScanStep(step) { ScanIsQuiet(cfg, s, step); }
    else if ApiStep(step) { ApiIsQuiet(cfg, s, step); }
    else { LeaseIsQuiet(cfg, s, step); }
  }

  lemma RefusedIsQuiet(cfg: Config, s: Sys, step: Step)
    requires step.Commit? && !Accepted(cfg, s, step)
    ensures Quiet(cfg, s, step)
  {
  }

  /** A step keeps the fold exactly when it is no forced commit of unfaithful versions. */
  lemma StepFolds(cfg: Config, s: Sys, step: Step)
    requires Inv(cfg, s) && FoldOk(cfg, s)
    ensures FoldOk(cfg, Apply(cfg, s, step)) <==> Tells(cfg, s, step)
  {
    if Accepted(cfg, s, step) { CommitFolds(cfg, s, step); }
    else if step.CommitDeletes? { DeletesFolds(cfg, s, step.sid, step.applied); }
    else { OthersAreQuiet(cfg, s, step); }
  }

  // ---- every run ------------------------------------------------------------------------------

  /** The fold is right in every state of the run. */
  ghost predicate FoldsThroughout(cfg: Config, s: Sys, steps: seq<Step>) {
    FoldOk(cfg, Run(cfg, s, steps)) && (steps == [] || FoldsThroughout(cfg, s, steps[..|steps| - 1]))
  }

  ghost predicate AllTell(cfg: Config, s: Sys, steps: seq<Step>) {
    steps == [] || (AllTell(cfg, s, steps[..|steps| - 1]) &&
        Tells(cfg, Run(cfg, s, steps[..|steps| - 1]), steps[|steps| - 1]))
  }

  /** After any run of live, backfill and full-scan commits the snapshot is the fold of the stream, and
      was all along, exactly when every forced page had the stored fingerprint for every item whose
      version was the stored one. */
  lemma {:induction false} SnapshotIsFoldOfStream(cfg: Config, s: Sys, steps: seq<Step>)
    requires Init(cfg, s)
    ensures FoldsThroughout(cfg, s, steps) <==> AllTell(cfg, s, steps)
  {
    if steps == [] {
    } else {
      var init := steps[..|steps| - 1];
      SnapshotIsFoldOfStream(cfg, s, init);
      RunKeepsInv(cfg, s, init);
      if FoldOk(cfg, Run(cfg, s, init)) { StepFolds(cfg, Run(cfg, s, init), steps[|steps| - 1]); }
    }
  }

  /** The page in hand, if there is one, is not forced. */
  predicate Plain(w: Work) { w.phase.Ready? || w.phase.Loaded? ==> !w.phase.force }

  ghost predicate Unforced(s: Sys) { forall sid :: sid in s.work ==> Plain(s.work[sid]) }

  lemma PutStaysUnforced(s: Sys, sid: nat, w: Work)
    requires Unforced(s) && Plain(w)
    ensures Unforced(Put(s, sid, w))
  {
  }

  lemma WriteStaysUnforced(s: Sys, sid: nat, rec: KeyRecord, events: seq<Event>, w: Work)
    requires Unforced(s) && Plain(w) && sid in s.leases
    ensures Unforced(Write(s, sid, rec, events, w))
  {
  }

  lemma CommitStaysUnforced(cfg: Config, s: Sys, sid: nat, applied: bool, replied: bool)
    requires Unforced(s)
    ensures Unforced(ApplyCommit(cfg, s, sid, applied, replied))
  {
    if !Has(s, sid) || !s.work[sid].phase.Loaded? { return; }
    var w := s.work[sid];
    var page := PageOf(cfg, w, s.now);
    if page.None? { PutStaysUnforced(s, sid, w.(phase := Idle, scan := None)); return; }
    var c := page.value;
    PutStaysUnforced(s, sid, CycleOver(w, c.sequence));
    WriteStaysUnforced(s, sid, AfterPage(cfg, s.rec, w, c, s.now), EventsOf(c.events),
                       if replied then Committed(cfg, w, c) else CycleOver(w, c.sequence));
  }

  lemma DeletesStayUnforced(cfg: Config, s: Sys, sid: nat, applied: bool)
    requires Unforced(s)
    ensures Unforced(ApplyDeletes(cfg, s, sid, applied))
  {
    if !Has(s, sid) || !s.work[sid].phase.ScanLoaded? { return; }
    var w := s.work[sid];
    var events := DeletesOf(cfg, w, s.now);
    PutStaysUnforced(s, sid, CycleOver(w, w.sequence + |events|));
    WriteStaysUnforced(s, sid, AfterDeletes(cfg, s.rec, w, events, s.now), EventsOf(events),
                       CycleOver(w, w.sequence + |events|));
  }

  lemma FetchStaysUnforced(cfg: Config, s: Sys, step: Step)
    requires Unforced(s) && FetchStep(step) && !(step.SideFetch? && step.force)
    ensures Unforced(Apply(cfg, s, step))
  {
    var s' := Apply(cfg, s, step);
    if s' != s { PutStaysUnforced(s, step.sid, s'.work[step.sid]); }
  }

  lemma ScanStaysUnforced(cfg: Config, s: Sys, step: Step)
    requires Unforced(s) && ScanStep(step)
    ensures Unforced(Apply(cfg, s, step))
  {
    var s' := Apply(cfg, s, step);
    if s' != s { PutStaysUnforced(s, step.sid, s'.work[step.sid]); }
  }

  lemma ApiStaysUnforced(cfg: Config, s: Sys, step: Step)
    requires Unforced(s) && ApiStep(step)
    ensures Unforced(Apply(cfg, s, step))
  {
  }

  lemma LeaseStaysUnforced(cfg: Config, s: Sys, step: Step)
    requires Unforced(s) && (LeaseStep(step) || step.Acquire?)
    ensures Unforced(Apply(cfg, s, step))
  {
  }

  lemma WritesStayUnforced(cfg: Config, s: Sys, step: Step)
    requires Unforced(s) && CommitKind(step)
    ensures Unforced(Apply(cfg, s, step))
  {
    match step
    case Commit(sid, applied, replied) => CommitStaysUnforced(cfg, s, sid, applied, replied);
    case CommitDeletes(sid, applied) => DeletesStayUnforced(cfg, s, sid, applied);
    case SaveState(_) =>
  }

  lemma StepStaysUnforced(cfg: Config, s: Sys, step: Step)
    requires Unforced(s) && !(step.SideFetch? && step.force)
    ensures Unforced(Apply(cfg, s, step))
  {
    if CommitKind(step) { WritesStayUnforced(cfg, s, step); }
    else if FetchStep(step) { FetchStaysUnforced(cfg, s, step); }
    else if ScanStep(step) { ScanStaysUnforced(cfg, s, step); }
    else if ApiStep(step) { ApiStaysUnforced(cfg, s, step); }
    else { LeaseStaysUnforced(cfg, s, step); }
  }

  lemma {:induction false} UnforcedRun(cfg: Config, s: Sys, steps: seq<Step>)
    requires Init(cfg, s) && forall i :: 0 <= i < |steps| ==> !(steps[i].SideFetch? && steps[i].force)
    ensures Unforced(Run(cfg, s, steps)) && AllTell(cfg, s, steps)
  {
    if steps == [] {
    } else {
      UnforcedRun(cfg, s, steps[..|steps| - 1]);
      StepStaysUnforced(cfg, Run(cfg, s, steps[..|steps| - 1]), steps[|steps| - 1]);
    }
  }

  /** Without a forced page the snapshot is the fold of the stream, whatever the versions. */
  lemma UnforcedRunsFold(cfg: Config, s: Sys, steps: seq<Step>)
    requires Init(cfg, s) && forall i :: 0 <= i < |steps| ==> !(steps[i].SideFetch? && steps[i].force)
    ensures Fold(cfg.p, map[], Run(cfg, s, steps).stream) == Hashes(Run(cfg, s, steps).rec.items)
  {
    UnforcedRun(cfg, s, steps);
    SnapshotIsFoldOfStream(cfg, s, steps);
  }

  lemma {:induction false} FaithfulRun(cfg: Config, s: Sys, steps: seq<Step>)
    requires Init(cfg, s) && VersionsFaithful(cfg.p)
    ensures AllTell(cfg, s, steps)
  {
    if steps == [] {
    } else {
      var init, step := steps[..|steps| - 1], steps[|steps| - 1];
      FaithfulRun(cfg, s, init);
      RunKeepsInv(cfg, s, init);
      var r := Run(cfg, s, init);
      if Accepted(cfg, r, step) {
        LatestAreValid(cfg, r.work[step.sid]);
        FaithfulVersionsTell(cfg.p, LatestOf(cfg, r.work[step.sid]), r.rec.items);
      }
    }
  }

  /** With faithful versions it is the fold after every run. */
  lemma FaithfulRunsFold(cfg: Config, s: Sys, steps: seq<Step>)
    requires Init(cfg, s) && VersionsFaithful(cfg.p)
    ensures Fold(cfg.p, map[], Run(cfg, s, steps).stream) == Hashes(Run(cfg, s, steps).rec.items)
  {
    FaithfulRun(cfg, s, steps);
    SnapshotIsFoldOfStream(cfg, s, steps);
  }

  // ---- unfaithful versions --------------------------------------------------------------------

  lemma {:induction false} RunConcat(cfg: Config, s: Sys, a: seq<Step>, b: seq<Step>)
    ensures Run(cfg, s, a + b) == Run(cfg, Run(cfg, s, a), b)
    decreases |b|
  {
    if b == [] {
      assert a + b == a;
    } else {
      var init, last := b[..|b| - 1], b[|b| - 1];
      RunConcat(cfg, s, a, init);
      assert (a + b)[..|a + b| - 1] == a + init;
    }
  }

  const NOWHERE := Cursor(None, None)

  /** Backfill the page of one item, forced. */
  function ForcedPage(x: Item): seq<Step> {
    [SideFetch(0, [x], Backfill, NOWHERE, true, false), ReadRows(0), Commit(0, true, true)]
  }

  /** Session 0 holds the lease and is between two pages. */
  ghost predicate Holding(cfg: Config, s: Sys) {
    Inv(cfg, s) && Has(s, 0) && Current(s, 0) && s.work[0].loaded && s.work[0].phase.Idle?
  }

  lemma OneItem(p: Poller, x: Item)
    requires p.valid(x)
    ensures ValidItems(p, [x]) == [x] && InvalidItems(p, [x]) == [] && Latest(p, [x]) == [x]
    ensures Ids(p, [x]) == {p.identity(x)}
  {
    assert [x][..0] == [] && ValidItems(p, []) == [] && InvalidItems(p, []) == [] && Latest(p, []) == [];
    forall id ensures id in Ids(p, [x]) <==> id == p.identity(x) { assert x in [x]; }
  }

  lemma ThreeSteps(cfg: Config, s: Sys, x: Item)
    ensures
      var s1 := Apply(cfg, s, ForcedPage(x)[0]);
      var s2 := Apply(cfg, s1, ForcedPage(x)[1]);
      Run(cfg, s, ForcedPage(x)) == Apply(cfg, s2, ForcedPage(x)[2])
  {
    var steps := ForcedPage(x);
    assert steps[..2][..1][..0] == [] && steps[..2][..1] == [steps[0]] && steps[..2] == [steps[0], steps[1]];
    assert Run(cfg, s, []) == s && Run(cfg, s, steps[..2][..1]) == Apply(cfg, s, steps[0]);
    assert Run(cfg, s, steps[..2]) == Apply(cfg, Apply(cfg, s, steps[0]), steps[1]);
  }

  lemma Fetches(cfg: Config, s: Sys, x: Item)
    requires Holding(cfg, s)
    ensures
      var s' := Apply(cfg, s, ForcedPage(x)[0]);
      && Inv(cfg, s') && s'.rec == s.rec && s'.stream == s.stream && Has(s', 0) && Current(s', 0)
      && s'.work[0].phase == Ready([x], Backfill, NOWHERE, s.now, true, false)
  {
    StepKeepsInv(cfg, s, ForcedPage(x)[0]);
  }

  lemma ReadsPage(cfg: Config, s: Sys, x: Item)
    requires Inv(cfg, s) && Has(s, 0) && Current(s, 0) && cfg.p.valid(x)
    requires s.work[0].phase == Ready([x], Backfill, NOWHERE, s.now, true, false)
    ensures
      var s' := Apply(cfg, s, ForcedPage(x)[1]);
      && Inv(cfg, s') && s'.rec == s.rec && s'.stream == s.stream && Accepted(cfg, s', Commit(0, true, true))
      && s'.work[0].phase.force && LatestOf(cfg, s'.work[0]) == [x]
  {
    OneItem(cfg.p, x);
    StepKeepsInv(cfg, s, ForcedPage(x)[1]);
  }

  lemma PageCommits(cfg: Config, s: Sys)
    requires Inv(cfg, s) && Accepted(cfg, s, Commit(0, true, true))
    ensures Holding(cfg, Apply(cfg, s, Commit(0, true, true)))
    ensures PageEffect(cfg.p, LatestOf(cfg, s.work[0]), s.rec.items, Apply(cfg, s, Commit(0, true, true)).rec.items)
  {
    StepKeepsInv(cfg, s, Commit(0, true, true));
    PageCommitEffect(cfg, s.rec, s.work[0], s.now);
  }

  /** One forced page: it stores the item unless the version is known, and keeps the fold exactly when
      a known version has the stored fingerprint. */
  lemma ForcedPageEffect(cfg: Config, s: Sys, x: Item)
    requires Holding(cfg, s) && cfg.p.valid(x)
    ensures
      var s' := Run(cfg, s, ForcedPage(x));
      && Holding(cfg, s') && PageEffect(cfg.p, [x], s.rec.items, s'.rec.items)
      && (FoldOk(cfg, s) ==> (FoldOk(cfg, s') <==> VersionsTell(cfg.p, [x], s.rec.items)))
  {
    ThreeSteps(cfg, s, x);
    var s1 := Apply(cfg, s, ForcedPage(x)[0]);
    Fetches(cfg, s, x);
    assert s1.now == s.now;
    var s2 := Apply(cfg, s1, ForcedPage(x)[1]);
    ReadsPage(cfg, s1, x);
    PageCommits(cfg, s2);
    if FoldOk(cfg, s) { CommitFolds(cfg, s2, Commit(0, true, true)); }
  }

  const START := [Acquire(0, "w", 10, 0), LoadState(0)]

  lemma Starts(cfg: Config, s: Sys) returns (s': Sys)
    requires Init(cfg, s)
    ensures s' == Run(cfg, s, START) && Holding(cfg, s') && s'.rec.items == map[] && s'.stream == []
  {
    assert START[..1][..0] == [] && START[..1] == [START[0]] && Run(cfg, s, []) == s;
    RunKeepsInv(cfg, s, START);
    s' := Run(cfg, s, START);
    assert Run(cfg, s, START[..1]) == Apply(cfg, s, START[0]);
  }

  lemma KnownVersion(p: Poller, x: Item, y: Item, items: map<string, ItemRow>, items': map<string, ItemRow>)
    requires PageEffect(p, [x], items, items') && items == map[] && SameVersion(p, x, y)
    requires p.fingerprint(x) != p.fingerprint(y)
    ensures VersionsTell(p, [x], items) && !VersionsTell(p, [y], items')
  {
    assert x in [x] && y in [y] && RowAfter(p, x, items, items'[p.identity(x)]);
  }

  lemma SecondPageBreaks(cfg: Config, s: Sys, x: Item, y: Item)
    requires Holding(cfg, s) && s.rec.items == map[] && FoldOk(cfg, s)
    requires cfg.p.valid(x) && cfg.p.valid(y) && SameVersion(cfg.p, x, y)
    requires cfg.p.fingerprint(x) != cfg.p.fingerprint(y)
    ensures !FoldOk(cfg, Run(cfg, Run(cfg, s, ForcedPage(x)), ForcedPage(y)))
  {
    var s' := Run(cfg, s, ForcedPage(x));
    ForcedPageEffect(cfg, s, x);
    KnownVersion(cfg.p, x, y, s.rec.items, s'.rec.items);
    ForcedPageEffect(cfg, s', y);
  }

  /** Unfaithful versions break the fold: for every poller, if two valid items share identity and
      version but not the fingerprint, backfilling one and then the other, forced, leaves a snapshot
      that is not the fold of the stream. */
  lemma ForcedBackfillBreaksFold(cfg: Config, s: Sys, x: Item, y: Item)
    requires Init(cfg, s) && cfg.p.valid(x) && cfg.p.valid(y) && SameVersion(cfg.p, x, y)
    requires cfg.p.fingerprint(x) != cfg.p.fingerprint(y)
    ensures
      var r := Run(cfg, s, START + ForcedPage(x) + ForcedPage(y));
      Fold(cfg.p, map[], r.stream) != Hashes(r.rec.items)
  {
    var s1 := Starts(cfg, s);
    assert FoldOk(cfg, s1);
    SecondPageBreaks(cfg, s1, x, y);
    RunConcat(cfg, s, START, ForcedPage(x));
    RunConcat(cfg, s, START + ForcedPage(x), ForcedPage(y));
  }
}
