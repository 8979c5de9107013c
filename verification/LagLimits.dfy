/** Why the lag must exceed lateness plus latency: for every shorter lag, a run of the same protocol that
    skips a row for good. Together with `NoSkip.NoRowIsSkipped` the bound is exact. */
module LagLimits {
  import opened Store
  import opened Diff
  import opened Pages
  import opened Polling
  import EventId
  import NoSkip
  import T = Timestamp
  import Words

  /** Items are their ids; all carry the stamp `-late`. */
  const P := Poller((x: Item) => x.text, (x: Item) => None, (x: Item) => x.text, (x: Item) => true, 1, false, false,
                    "", "",
                    (q: EventId.Parts) => q.identity, (x: Item) => "")

  /** Writing and reading instants. */
  datatype Clock = Clock(text: int -> string, value: string -> int)

  ghost predicate ClockOk(k: Clock) { forall n :: k.value(k.text(n)) == n }

  function Stamp(late: nat): int { 0 - late }

  function Cfg(k: Clock, lag: nat, late: nat, latency: nat): Config {
    Config(P,
           T.Config((x: Item) => Some(k.text(Stamp(late))), true, (x: Item) => Some(x.text),
                    (s: string) => Some(k.value(s)), (ms: int, s: string) => k.text(ms), lag, 0, None),
           (a: string, b: string) => Words.StringLe(a, b), late, latency, Skip)
  }

  const FIRST := Item("b")
  const SKIPPED := Item("a")
  const LEASE := Lease("w", 1, 10)
  const REC := KeyRecord(None, Some(LEASE), 1, map[], map[], map[])
  const START := Cursor(None, None)

  function Mark(k: Clock, late: nat): Cursor { Cursor(Some(k.text(Stamp(late))), Some("b")) }

  /** One session, holding the lease, at phase `q`. */
  function At(now: int, api: map<string, Item>, q: Phase): Sys {
    Sys(now, api, REC, map[0 := LEASE], map[0 := Work(true, map[], 0, None, q)], [], [1], [])
  }

  lemma Then(cfg: Config, s: Sys, steps: seq<Step>, step: Step)
    ensures Run(cfg, s, steps + [step]) == Apply(cfg, Run(cfg, s, steps), step)
  {
    assert (steps + [step])[..|steps|] == steps;
  }

  lemma Facts(k: Clock, lag: nat, late: nat, latency: nat, x: Item)
    requires ClockOk(k)
    ensures
      var cfg := Cfg(k, lag, late, latency);
      && T.Millis(cfg.ts, x) == Some(Stamp(late)) && Ts(cfg, x) == Stamp(late) && Stamped(cfg, x)
      && T.MarkOf(cfg.ts, Mark(k, late)) == T.Mark(Some(Stamp(late)), Some("b")) &&
          T.MarkOf(cfg.ts, START) == T.Mark(None, None)
  {
  }

  lemma Order()
    ensures Words.StringLe("a", "b")
  {
    assert Words.Units("a") == ['a' as int] && Words.Units("b") == ['b' as int];
  }

  lemma Starts(k: Clock, lag: nat, late: nat, latency: nat, s: Sys)
    requires s == Sys(0, map[], EMPTY_RECORD, map[], map[], [], [], [])
    ensures Run(Cfg(k, lag, late, latency), s, [Acquire(0, "w", 10, 0)] + [LoadState(0)]) == At(0, map[], Idle)
  {
    var cfg := Cfg(k, lag, late, latency);
    assert [] + [Acquire(0, "w", 10, 0)] == [Acquire(0, "w", 10, 0)];
    Then(cfg, s, [], Acquire(0, "w", 10, 0));
    Then(cfg, s, [Acquire(0, "w", 10, 0)], LoadState(0));
  }

  lemma Writes(k: Clock, lag: nat, late: nat, latency: nat, api: map<string, Item>, q: Phase, x: Item)
    requires ClockOk(k)
    ensures Apply(Cfg(k, lag, late, latency), At(0, api, q), ApiWrite(x)) == At(0, api[x.text := x], q)
  {
    Facts(k, lag, late, latency, x);
  }

  lemma Fetches(k: Clock, lag: nat, late: nat, latency: nat)
    ensures Apply(Cfg(k, lag, late, latency), At(0, map["b" := FIRST], Idle), Fetch(0, true, [FIRST])) ==
              At(0, map["b" := FIRST], Fetched([FIRST], START, 0))
  {
    var cfg := Cfg(k, lag, late, latency);
    var s := At(0, map["b" := FIRST], Idle);
    assert StartOf(cfg, s.work[0], true) == Some(START);
    assert IsPage(cfg, s.api, START, [FIRST]);
    assert Apply(cfg, s, Fetch(0, true, [FIRST])) == Put(s, 0, s.work[0].(phase := Fetched([FIRST], START, 0)));
  }

  const BOTH := map["b" := FIRST, "a" := SKIPPED]

  /** A single kept row moves an empty cursor to its own mark. */
  lemma AdvanceOne(ts: T.Config, x: Item, now: int)
    requires T.Millis(ts, x).Some? && T.Millis(ts, x).value <= now - ts.lagMs && ts.hasTie
    ensures T.AdvanceSpec(ts, START, [x], None, true, now) == T.Advanced(Cursor(ts.stamp(x), ts.tieOf(x)), false, [x])
  {
    var best := T.Best(T.Millis(ts, x).value, ts.stamp(x).value, ts.tieOf(x));
    assert T.Keeps(ts, now - ts.lagMs, x);
    KeptOne(ts, x, now - ts.lagMs);
    BestOne(ts, x);
    MoveFirst(ts, best);
    assert ts.stamp(x) == Some(best.raw);
  }

  lemma MoveFirst(ts: T.Config, best: T.Best)
    requires best.Best?
    ensures T.Move(ts, START, best) == Some(Cursor(Some(best.raw), best.tie))
  {
  }

  lemma KeptOne(ts: T.Config, x: Item, cutoff: int)
    requires T.Keeps(ts, cutoff, x)
    ensures T.Kept(ts, cutoff, [x]) == [x]
  {
    assert [x][..0] == [] && T.Kept(ts, cutoff, []) == [];
  }

  lemma BestOne(ts: T.Config, x: Item)
    requires T.Millis(ts, x).Some? && ts.hasTie
    ensures T.BestOf(ts, [x]) == T.Best(T.Millis(ts, x).value, ts.stamp(x).value, ts.tieOf(x))
  {
    assert [x][..0] == [] && T.BestOf(ts, []) == T.NoBest;
  }

  lemma AdvanceStep(cfg: Config, s: Sys, from: Cursor, page: seq<Item>, next: Cursor)
    requires Has(s, 0) && s.work[0] == Work(true, map[], 0, None, Fetched(page, from, 0)) && s.now <= cfg.latency
    requires T.AdvanceSpec(cfg.ts, LiveCursor(cfg, map[]), page, None, true, s.now) == T.Advanced(next, false, page)
    ensures Apply(cfg, s, Polling.Advance(0)) ==
              Put(s, 0, s.work[0].(phase := Ready(page, Live, next, 0, false, false)))
  {
  }

  lemma SpecOne(k: Clock, lag: nat, late: nat, latency: nat)
    requires ClockOk(k) && lag <= late + latency
    ensures
      var cfg := Cfg(k, lag, late, latency);
      && LiveCursor(cfg, map[]) == START
      && T.AdvanceSpec(cfg.ts, LiveCursor(cfg, map[]), [FIRST], None, true, latency) == T.Advanced(Mark(k, late),
          false, [FIRST])
  {
    Facts(k, lag, late, latency, FIRST);
    AdvanceOne(Cfg(k, lag, late, latency).ts, FIRST, latency);
  }

  lemma Advances(k: Clock, lag: nat, late: nat, latency: nat)
    requires ClockOk(k) && lag <= late + latency
    ensures Apply(Cfg(k, lag, late, latency), At(latency, BOTH, Fetched([FIRST], START, 0)), Polling.Advance(0))
            == At(latency, BOTH, Ready([FIRST], Live, Mark(k, late), 0, false, false))
  {
    var cfg := Cfg(k, lag, late, latency);
    SpecOne(k, lag, late, latency);
    AdvanceStep(cfg, At(latency, BOTH, Fetched([FIRST], START, 0)), START, [FIRST], Mark(k, late));
  }

  lemma ReadsRows(k: Clock, lag: nat, late: nat, latency: nat)
    ensures Apply(Cfg(k, lag, late, latency), At(latency, BOTH, Ready([FIRST], Live, Mark(k, late), 0, false, false)),
                  ReadRows(0))
            == At(latency, BOTH, Loaded([FIRST], Live, Mark(k, late), 0, false, false, map[]))
  {
    var cfg := Cfg(k, lag, late, latency);
    var s := At(latency, BOTH, Ready([FIRST], Live, Mark(k, late), 0, false, false));
    assert LoadVersions(REC, Ids(P, ValidItems(P, [FIRST]))) == map[];
    assert Apply(cfg, s, ReadRows(0)) ==
        Put(s, 0, s.work[0].(phase := Loaded([FIRST], Live, Mark(k, late), 0, false, false, map[])));
  }

  lemma OneValid()
    ensures ValidItems(P, [FIRST]) == [FIRST] && InvalidItems(P, [FIRST]) == [] && Ids(P, [FIRST]) == {"b"}
  {
    assert [FIRST][..0] == [];
    assert ValidItems(P, []) == [] && InvalidItems(P, []) == [];
    assert FIRST in [FIRST] && P.identity(FIRST) == "b";
    forall k ensures k in Ids(P, [FIRST]) <==> k == "b" {}
  }

  function ThePage(latency: nat): Option<PageCommit> {
    PageSpec(P, Skip, Live, false, false, [FIRST], map[], 0, latency)
  }

  lemma PageStores(latency: nat)
    ensures ThePage(latency).Some? && PutItems(map[], ThePage(latency).value.upserts).Keys == {"b"}
  {
    OneValid();
    LatestIsDistinct(P, [FIRST]);
    PageIsFaithful(P, map[], Skip, Live, false, false, [FIRST], map[], 0, latency);
  }

  lemma PageIs(k: Clock, lag: nat, late: nat, latency: nat, w: Work) returns (c: PageCommit)
    requires w.phase == Loaded([FIRST], Live, Mark(k, late), 0, false, false, map[]) && w.sequence == 0
    ensures PageOf(Cfg(k, lag, late, latency), w, latency) == Some(c) && PutItems(map[], c.upserts).Keys == {"b"}
  {
    PageStores(latency);
    c := ThePage(latency).value;
  }

  /** The commit stores the first row only and moves the cursor to it. */
  lemma Commits(k: Clock, lag: nat, late: nat, latency: nat)
    ensures
      var r := ApplyCommit(Cfg(k, lag, late, latency),
                           At(latency, BOTH, Loaded([FIRST], Live, Mark(k, late), 0, false, false, map[])), 0, true,
                           true);
      r.api == BOTH && r.rec.items.Keys == {"b"} && RecLanes(r.rec) == map[Live := Mark(k, late)]
  {
    var cfg := Cfg(k, lag, late, latency);
    var s := At(latency, BOTH, Loaded([FIRST], Live, Mark(k, late), 0, false, false, map[]));
    var w := s.work[0];
    var c := PageIs(k, lag, late, latency, w);
    Stores(k, cfg, s, w, c, latency, late);
  }

  lemma CommitStep(k: Clock, lag: nat, late: nat, latency: nat)
    ensures
      var r := Apply(Cfg(k, lag, late, latency),
                     At(latency, BOTH, Loaded([FIRST], Live, Mark(k, late), 0, false, false, map[])),
                     Commit(0, true, true));
      r.api == BOTH && r.rec.items.Keys == {"b"} && RecLanes(r.rec) == map[Live := Mark(k, late)]
  {
    var s := At(latency, BOTH, Loaded([FIRST], Live, Mark(k, late), 0, false, false, map[]));
    CommitIs(Cfg(k, lag, late, latency), s);
    Commits(k, lag, late, latency);
  }

  lemma CommitIs(cfg: Config, s: Sys)
    ensures Apply(cfg, s, Commit(0, true, true)) == ApplyCommit(cfg, s, 0, true, true)
  {
  }

  lemma Stores(k: Clock, cfg: Config, s: Sys, w: Work, c: PageCommit, latency: nat, late: nat)
    requires s == At(latency, BOTH, w.phase) && w == s.work[0]
    requires w.phase == Loaded([FIRST], Live, Mark(k, late), 0, false, false, map[])
    requires PageOf(cfg, w, latency) == Some(c) && PutItems(map[], c.upserts).Keys == {"b"}
    ensures
      var r := ApplyCommit(cfg, s, 0, true, true);
      r.api == BOTH && r.rec.items.Keys == {"b"} && RecLanes(r.rec) == map[Live := Mark(k, late)]
  {
    var items := PutItems(map[], c.upserts);
    assert items - Elems([]) == items;
    assert map[][Live := Mark(k, late)] == map[Live := Mark(k, late)];
  }

  const WRITE :=
      [Acquire(0, "w", 10, 0)] + [LoadState(0)] + [ApiWrite(FIRST)] + [Fetch(0, true, [FIRST])] + [ApiWrite(SKIPPED)]

  function Steps(latency: nat): seq<Step> {
    WRITE + [Tick(latency)] + [Polling.Advance(0)] + [ReadRows(0)] + [Commit(0, true, true)]
  }

  lemma Fetched1(k: Clock, lag: nat, late: nat, latency: nat, s: Sys)
    requires ClockOk(k)
    requires s == Sys(0, map[], EMPTY_RECORD, map[], map[], [], [], [])
    ensures Run(Cfg(k, lag, late, latency), s, WRITE) == At(0, BOTH, Fetched([FIRST], START, 0))
  {
    var cfg, load := Cfg(k, lag, late, latency), [Acquire(0, "w", 10, 0)] + [LoadState(0)];
    Starts(k, lag, late, latency, s);
    Then(cfg, s, load, ApiWrite(FIRST));
    Writes(k, lag, late, latency, map[], Idle, FIRST);
    assert map[]["b" := FIRST] == map["b" := FIRST];
    Then(cfg, s, load + [ApiWrite(FIRST)], Fetch(0, true, [FIRST]));
    Fetches(k, lag, late, latency);
    Then(cfg, s, load + [ApiWrite(FIRST)] + [Fetch(0, true, [FIRST])], ApiWrite(SKIPPED));
    Writes(k, lag, late, latency, map["b" := FIRST], Fetched([FIRST], START, 0), SKIPPED);
    assert map["b" := FIRST]["a" := SKIPPED] == BOTH;
  }

  lemma {:induction false} HonestSteps(cfg: Config, s: Sys, steps: seq<Step>)
    requires forall i :: 0 <= i < |steps| ==> !steps[i].StreamIds? && !steps[i].SideFetch?
    ensures NoSkip.HonestRun(cfg, s, steps)
  {
    if steps == [] {
    } else {
      HonestSteps(cfg, s, steps[..|steps| - 1]);
    }
  }

  /** With a lag of at most lateness plus latency, a valid row at or below the persisted cursor is not stored. */
  lemma ShortLagSkips(k: Clock, lag: nat, late: nat, latency: nat, s: Sys)
    requires ClockOk(k) && lag <= late + latency && s == Sys(0, map[], EMPTY_RECORD, map[], map[], [], [], [])
    ensures
      var cfg := Cfg(k, lag, late, latency);
      var r := Run(cfg, s, Steps(latency));
      && Init(cfg, s) && NoSkip.HonestRun(cfg, s, Steps(latency))
      && "a" in r.api && cfg.p.valid(r.api["a"]) && NoSkip.InScope(cfg, Ts(cfg, r.api["a"]))
      && !After(cfg, LiveCursor(cfg, RecLanes(r.rec)), Ts(cfg, r.api["a"]), "a") && "a" !in r.rec.items
  {
    var cfg := Cfg(k, lag, late, latency);
    HonestSteps(cfg, s, Steps(latency));
    Fetched1(k, lag, late, latency, s);
    Then(cfg, s, WRITE, Tick(latency));
    Then(cfg, s, WRITE + [Tick(latency)], Polling.Advance(0));
    Advances(k, lag, late, latency);
    Then(cfg, s, WRITE + [Tick(latency)] + [Polling.Advance(0)], ReadRows(0));
    ReadsRows(k, lag, late, latency);
    Then(cfg, s, WRITE + [Tick(latency)] + [Polling.Advance(0)] + [ReadRows(0)], Commit(0, true, true));
    CommitStep(k, lag, late, latency);
    Facts(k, lag, late, latency, SKIPPED);
    Order();
  }

  /** The rest of what the no-skip theorem asks of a configuration holds here, and such clocks exist. */
  lemma OtherwiseFair(k: Clock, lag: nat, late: nat, latency: nat)
    requires ClockOk(k)
    ensures late + latency < lag ==> NoSkip.LagOk(Cfg(k, lag, late, latency))
    ensures VersionsFaithful(P)
    ensures ClockOk(Clock(EventId.IntText, EventId.IntValue))
  {
    forall n ensures EventId.IntValue(EventId.IntText(n)) == n { EventId.IntTextValue(n); }
  }
}
