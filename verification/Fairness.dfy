/** Who is granted next: lane priority, then fairness between requesters, then arrival. */
module Fairness {
  import opened Store

  datatype Waiter = Waiter(seqNo: nat, requester: string, weight: real, lane: Lane, cost: nat, deadlineAt: Option<int>)

  /** Grants of a requester; `lastSeq` is the number of its last grant, `-1` before the first. */
  datatype Stats = Stats(count: int, weight: real, lastSeq: int)

  function LaneRank(lane: Lane): nat {
    match lane case Live => 0 case Reconcile => 1 case Backfill => 2 case Replay => 3
  }

  /** The strict order in which waiters are granted, once both requesters have statistics. */
  predicate Before(served: map<string, Stats>, weighted: bool, a: Waiter, b: Waiter)
    requires a.weight > 0.0 && b.weight > 0.0
    requires LaneRank(a.lane) == LaneRank(b.lane) ==> a.requester in served && b.requester in served
  {
    if LaneRank(a.lane) != LaneRank(b.lane) then LaneRank(a.lane) < LaneRank(b.lane)
    else
      var sa, sb := served[a.requester], served[b.requester];
      var ra, rb := sa.count as real / a.weight, sb.count as real / b.weight;
      if weighted && ra != rb then ra < rb
      else if sa.lastSeq != sb.lastSeq then sa.lastSeq < sb.lastSeq
      else a.seqNo < b.seqNo
  }

  /** Counts and last grants of known requesters stay; new ones start unserved. */
  ghost predicate Grows(served: map<string, Stats>, served': map<string, Stats>) {
    && (forall r :: r in served ==>
        r in served' && served'[r].count == served[r].count && served'[r].lastSeq == served[r].lastSeq)
    && (forall r :: r in served' && r !in served ==> served'[r].lastSeq == -1)
  }

  /** A waiter of the same lane is behind the pick. */
  ghost predicate Behind(served: map<string, Stats>, weighted: bool, best: Waiter, b: Waiter) {
    && best.weight > 0.0 && b.weight > 0.0
    && (LaneRank(best.lane) == LaneRank(b.lane) ==> best.requester in served && b.requester in served)
    && Before(served, weighted, best, b)
  }

  ghost predicate QueueOk(queue: seq<Waiter>) {
    && (forall i :: 0 <= i < |queue| ==> queue[i].weight > 0.0)
    && (forall i, j :: 0 <= i < j < |queue| ==> queue[i].seqNo != queue[j].seqNo)
  }

  /** Every other waiter is behind the picked one. */
  ghost predicate Picks(served: map<string, Stats>, queue: seq<Waiter>, weighted: bool, best: nat) {
    best < |queue| && forall j :: 0 <= j < |queue| && j != best ==> Behind(served, weighted, queue[best], queue[j])
  }

  // ---- the order is total and stays when statistics grow --------------------------------------

  lemma BehindGrows(served: map<string, Stats>, served': map<string, Stats>, weighted: bool, a: Waiter, b: Waiter)
    requires Grows(served, served') && Behind(served, weighted, a, b)
    ensures Behind(served', weighted, a, b)
  {
  }

  lemma BehindTransitive(served: map<string, Stats>, weighted: bool, a: Waiter, b: Waiter, c: Waiter)
    requires Behind(served, weighted, a, b) && Behind(served, weighted, b, c)
    ensures Behind(served, weighted, a, c)
  {
  }

  lemma BehindTotal(served: map<string, Stats>, weighted: bool, a: Waiter, b: Waiter)
    requires a.weight > 0.0 && b.weight > 0.0 && a.seqNo != b.seqNo
    requires LaneRank(a.lane) == LaneRank(b.lane) ==> a.requester in served && b.requester in served
    ensures Before(served, weighted, a, b) ==> Behind(served, weighted, a, b)
    ensures !Before(served, weighted, a, b) ==> Behind(served, weighted, b, a)
  {
  }

  // ---- statistics and the pick ----------------------------------------------------------------

  /** Look a requester up; a new one starts at the lowest ratio there is, rounded down to whole grants, so
      that it cannot catch up on grants made before it came. */
  method StatsFor(served: map<string, Stats>, requester: string, weight: real) returns (r: map<string, Stats>)
    requires weight > 0.0 && forall k :: k in served ==> served[k].weight > 0.0
    ensures Enrols(served, r, requester, weight)
    ensures Grows(served, r) && forall k :: k in r ==> r[k].weight > 0.0
  {
    if requester in served {
      return served[requester := served[requester].(weight := weight)];
    }
    var count := StartCount(served, weight);
    r := served[requester := Stats(count, weight, -1)];
  }

  /** `r` is `served` with `requester` looked up at `weight`. */
  ghost predicate Enrols(served: map<string, Stats>, r: map<string, Stats>, requester: string, weight: real) {
    && weight > 0.0 && (forall k :: k in served ==> served[k].weight > 0.0)
    && r.Keys == served.Keys + {requester} && (forall k :: k in served && k != requester ==> r[k] == served[k])
    && r[requester].weight == weight
    && (requester in served ==>
          r[requester].count == served[requester].count && r[requester].lastSeq == served[requester].lastSeq)
    && (requester !in served ==> r[requester].lastSeq == -1 && StartsLow(served, r[requester].count, weight))
  }

  /** Only waiters of the same lane are looked up to compare them. */
  ghost predicate EnrolsBoth(served: map<string, Stats>, mid: map<string, Stats>, r: map<string, Stats>, a: Waiter,
                             b: Waiter) {
    if LaneRank(a.lane) != LaneRank(b.lane) then r == served
    else Enrols(served, mid, a.requester, a.weight) && Enrols(mid, r, b.requester, b.weight)
  }

  /** Lookups one after the other, each of a waiter in statistics as they were. */
  datatype Lookups = NoLookup | Lookup(before: Lookups, was: map<string, Stats>, w: Waiter)

  /** `looks` lead from `served` to `r`, and look up waiters of the queue only. */
  ghost predicate EnrolsSome(looks: Lookups, served: map<string, Stats>, r: map<string, Stats>, queue: seq<Waiter>) {
    match looks
    case NoLookup => r == served
    case Lookup(before, was, w) =>
      EnrolsSome(before, served, was, queue) && w in queue && Enrols(was, r, w.requester, w.weight)
  }

  method StartCount(served: map<string, Stats>, weight: real) returns (count: int)
    requires weight > 0.0 && forall k :: k in served ==> served[k].weight > 0.0
    ensures StartsLow(served, count, weight)
  {
    var least := LeastRatio(served);
    if least.None? { return 0; }
    count := FloorOf(least.value, weight);
    FloorStartsLow(served, least.value, weight, count);
  }

  method FloorOf(least: real, weight: real) returns (count: int)
    requires weight > 0.0
    ensures Ratio(Stats(count, weight, -1)) <= least < Ratio(Stats(count + 1, weight, -1))
  {
    count := (least * weight).Floor;
    FloorFits(least, weight);
  }

  /** The lowest ratio of grants to weight, if there is any. */
  method LeastRatio(served: map<string, Stats>) returns (least: Option<real>)
    requires forall k :: k in served ==> served[k].weight > 0.0
    ensures least.None? <==> served == map[]
    ensures least.Some? ==> forall k :: k in served ==> least.value <= Ratio(served[k])
    ensures least.Some? ==> exists k :: k in served && Ratio(served[k]) == least.value
  {
    var todo := served.Keys;
    least := None;
    while todo != {}
      invariant todo <= served.Keys && (least.None? <==> todo == served.Keys)
      invariant least.Some? ==> forall k :: k in served && k !in todo ==> least.value <= Ratio(served[k])
      invariant least.Some? ==> exists k :: k in served && Ratio(served[k]) == least.value
      decreases |todo|
    {
      var k :| k in todo;
      var ratio := Ratio(served[k]);
      least := if least.None? || ratio < least.value then Some(ratio) else least;
      todo := todo - {k};
    }
  }

  /** `count` grants are at the lowest ratio of the others, rounded down; none if there are no others. */
  ghost predicate StartsLow(served: map<string, Stats>, count: int, weight: real)
    requires weight > 0.0 && forall k :: k in served ==> served[k].weight > 0.0
  {
    if served == map[] then count == 0
    else
      && (forall k :: k in served ==> Ratio(Stats(count, weight, -1)) <= Ratio(served[k]))
      && exists k :: k in served && Ratio(served[k]) < Ratio(Stats(count + 1, weight, -1))
  }

  lemma FloorStartsLow(served: map<string, Stats>, least: real, weight: real, count: int)
    requires weight > 0.0 && forall k :: k in served ==> served[k].weight > 0.0 && least <= Ratio(served[k])
    requires exists k :: k in served && Ratio(served[k]) == least
    requires Ratio(Stats(count, weight, -1)) <= least < Ratio(Stats(count + 1, weight, -1))
    ensures StartsLow(served, count, weight)
  {
  }

  lemma FloorFits(least: real, weight: real)
    requires weight > 0.0
    ensures
      var count := (least * weight).Floor;
      count as real / weight <= least && least < (count + 1) as real / weight
  {
    var count := (least * weight).Floor;
    Quotient(count as real, weight, least);
    QuotientAbove((count + 1) as real, weight, least);
  }

  function Ratio(s: Stats): real
    requires s.weight > 0.0
  {
    s.count as real / s.weight
  }

  lemma QuotientAbove(x: real, w: real, q: real)
    requires w > 0.0 && q * w < x
    ensures q < x / w
  {
    assert x / w - q == (x - q * w) / w;
  }

  lemma Quotient(x: real, w: real, q: real)
    requires w > 0.0 && x <= q * w
    ensures x / w <= q
  {
    assert q - x / w == (q * w - x) / w;
  }

  method Compare(served: map<string, Stats>, weighted: bool, a: Waiter, b: Waiter)
    returns (less: bool, r: map<string, Stats>, ghost mid: map<string, Stats>)
    requires a.weight > 0.0 && b.weight > 0.0 && a.seqNo != b.seqNo
    requires forall k :: k in served ==> served[k].weight > 0.0
    ensures Grows(served, r) && (forall k :: k in r ==> r[k].weight > 0.0)
    ensures if less then Behind(r, weighted, a, b) else Behind(r, weighted, b, a)
    ensures EnrolsBoth(served, mid, r, a, b)
  {
    r, mid := served, served;
    if LaneRank(a.lane) != LaneRank(b.lane) { return LaneRank(a.lane) < LaneRank(b.lane), r, mid; }
    r := StatsFor(r, a.requester, a.weight);
    mid := r;
    r := StatsFor(r, b.requester, b.weight);
    less := Before(r, weighted, a, b);
    BehindTotal(r, weighted, a, b);
  }

  /** The lookups after the waiters `a` and `b` were compared. */
  function More(looks: Lookups, was: map<string, Stats>, mid: map<string, Stats>, a: Waiter, b: Waiter): Lookups {
    if LaneRank(a.lane) != LaneRank(b.lane) then looks else Lookup(Lookup(looks, was, a), mid, b)
  }

  lemma EnrolsMore(looks: Lookups, served: map<string, Stats>, was: map<string, Stats>, mid: map<string, Stats>,
                   r: map<string, Stats>, queue: seq<Waiter>, a: nat, b: nat)
    requires EnrolsSome(looks, served, was, queue) && a < |queue| && b < |queue|
    requires EnrolsBoth(was, mid, r, queue[a], queue[b])
    ensures EnrolsSome(More(looks, was, mid, queue[a], queue[b]), served, r, queue)
  {
  }

  /** Live before reconcile before backfill before replay, whatever was granted before. */
  lemma LanesInOrder(served: map<string, Stats>, queue: seq<Waiter>, weighted: bool, best: nat, j: nat)
    requires Picks(served, queue, weighted, best) && j < |queue|
    ensures queue[j].lane.Live? ==> queue[best].lane.Live?
    ensures queue[j].lane.Reconcile? ==> queue[best].lane.Live? || queue[best].lane.Reconcile?
    ensures queue[best].lane.Replay? ==> queue[j].lane.Replay?
  {
    if j != best { assert Behind(served, weighted, queue[best], queue[j]); }
  }

  /** Within a lane: under weighted fairness the lowest share of grants for its weight, then, as under round robin,
      the requester served longest ago, and among equals the waiter that came first. */
  lemma PickedIsLeast(served: map<string, Stats>, queue: seq<Waiter>, weighted: bool, best: nat, j: nat)
    requires Picks(served, queue, weighted, best) && j < |queue| && j != best
    requires LaneRank(queue[best].lane) == LaneRank(queue[j].lane)
    ensures
      var a, b := queue[best], queue[j];
      && a.requester in served && b.requester in served && a.weight > 0.0 && b.weight > 0.0
      && var sa, sb := served[a.requester], served[b.requester];
      var ra, rb := sa.count as real / a.weight, sb.count as real / b.weight;
      && (weighted ==> ra <= rb)
      && (!weighted || ra == rb ==> sa.lastSeq < sb.lastSeq || (sa.lastSeq == sb.lastSeq && a.seqNo < b.seqNo))
  {
    assert Behind(served, weighted, queue[best], queue[j]);
  }

  /** Scan the queue for the waiter every other one is behind. */
  method Pick(served: map<string, Stats>, queue: seq<Waiter>, weighted: bool)
    returns (best: nat, r: map<string, Stats>, ghost looks: Lookups)
    requires QueueOk(queue) && queue != [] && forall k :: k in served ==> served[k].weight > 0.0
    ensures Picks(r, queue, weighted, best) && Grows(served, r) && forall k :: k in r ==> r[k].weight > 0.0
    ensures EnrolsSome(looks, served, r, queue)
  {
    best, r := 0, served;
    looks := NoLookup;
    for n := 1 to |queue|
      invariant EnrolsSome(looks, served, r, queue)
      invariant best < n && Grows(served, r) && (forall k :: k in r ==> r[k].weight > 0.0)
      invariant forall j :: 0 <= j < n && j != best ==> Behind(r, weighted, queue[best], queue[j])
    {
      ghost var was := r;
      var less;
      ghost var mid;
      less, r, mid := Compare(r, weighted, queue[n], queue[best]);
      EnrolsMore(looks, served, was, mid, r, queue, n, best);
      looks := More(looks, was, mid, queue[n], queue[best]);
      forall j | 0 <= j < n && j != best
        ensures Behind(r, weighted, queue[best], queue[j]) && (less ==> Behind(r, weighted, queue[n], queue[j]))
      {
        BehindGrows(was, r, weighted, queue[best], queue[j]);
        if less { BehindTransitive(r, weighted, queue[n], queue[best], queue[j]); }
      }
      if less { best := n; }
    }
  }

  // ---- rounds: a pick, then a grant unless the waiter left or the store refused ---------------

  datatype Fair = Fair(served: map<string, Stats>, grantSeq: nat)

  datatype Round = Round(queue: seq<Waiter>, best: nat, granted: bool)

  /** A grant as the manager books it. */
  function Book(served: map<string, Stats>, w: Waiter, number: nat): map<string, Stats>
    requires w.requester in served
  {
    served[w.requester := Stats(served[w.requester].count + 1, w.weight, number)]
  }

  ghost predicate IsRound(weighted: bool, f: Fair, round: Round, f': Fair, served: map<string, Stats>) {
    && Grows(f.served, served) && Picks(served, round.queue, weighted, round.best)
    && if !round.granted then f' == Fair(served, f.grantSeq)
       else
         && round.queue[round.best].requester in served
         && f' == Fair(Book(served, round.queue[round.best], f.grantSeq + 1), f.grantSeq + 1)
  }

  /** A run of one budget: any queues, any outcomes; `served` are the statistics each pick looked at. */
  ghost predicate IsRun(weighted: bool, states: seq<Fair>, rounds: seq<Round>, served: seq<map<string, Stats>>) {
    && |states| == |rounds| + 1 && |served| == |rounds| && LastSeqs(states[0])
    && (forall i :: 0 <= i < |rounds| ==> rounds[i].best < |rounds[i].queue|)
    && (forall i :: 0 <= i < |rounds| ==> IsRound(weighted, states[i], rounds[i], states[i + 1], served[i]))
  }

  ghost predicate LastSeqs(f: Fair) { forall r :: r in f.served ==> -1 <= f.served[r].lastSeq <= f.grantSeq }

  function Last(f: Fair, r: string): int { if r in f.served then f.served[r].lastSeq else -1 }

  function Winner(round: Round): Waiter
    requires round.best < |round.queue|
  {
    round.queue[round.best]
  }

  lemma RoundKeepsLast(weighted: bool, f: Fair, round: Round, f': Fair, served: map<string, Stats>, r: string)
    requires IsRound(weighted, f, round, f', served) && LastSeqs(f)
    ensures LastSeqs(f') && f.grantSeq <= f'.grantSeq
    ensures Last(f', r) == if round.granted && Winner(round).requester == r then f'.grantSeq else Last(f, r)
    ensures round.granted ==> f'.grantSeq > f.grantSeq
  {
  }

  lemma {:induction false} RunKeepsLast(weighted: bool, states: seq<Fair>, rounds: seq<Round>,
                                        served: seq<map<string, Stats>>, n: nat)
    requires IsRun(weighted, states, rounds, served) && n <= |rounds|
    ensures LastSeqs(states[n])
  {
    if n == 0 {
    } else {
      RunKeepsLast(weighted, states, rounds, served, n - 1);
      RoundKeepsLast(weighted, states[n - 1], rounds[n - 1], states[n], served[n - 1], "");
    }
  }

  /** After a grant to `a`, and until a grant to `b`, `a` stays the one served more recently. */
  lemma {:induction false} ServedLater(weighted: bool, states: seq<Fair>, rounds: seq<Round>,
                                       served: seq<map<string, Stats>>, i: nat, j: nat, a: string, b: string)
    requires IsRun(weighted, states, rounds, served) && i < j <= |rounds| && a != b
    requires rounds[i].granted && Winner(rounds[i]).requester == a
    requires forall k :: i < k < j && rounds[k].granted ==> Winner(rounds[k]).requester != b
    ensures Last(states[j], b) < Last(states[j], a)
    decreases j
  {
    RunKeepsLast(weighted, states, rounds, served, j - 1);
    RoundKeepsLast(weighted, states[j - 1], rounds[j - 1], states[j], served[j - 1], a);
    RoundKeepsLast(weighted, states[j - 1], rounds[j - 1], states[j], served[j - 1], b);
    if i < j - 1 { ServedLater(weighted, states, rounds, served, i, j - 1, a, b); }
  }

  /** Whoever is picked was not served more recently than a waiter of the same lane. */
  lemma NotAhead(f: Fair, round: Round, f': Fair, served: map<string, Stats>, b: nat)
    requires IsRound(false, f, round, f', served) && b < |round.queue|
    requires LaneRank(Winner(round).lane) == LaneRank(round.queue[b].lane)
    requires LastSeqs(f)
    ensures Last(f, Winner(round).requester) <= Last(f, round.queue[b].requester)
  {
    if b != round.best { assert Behind(served, false, Winner(round), round.queue[b]); }
  }

  /** Round robin: once `a` was granted, it is not picked again in the lane of a waiting `b` until `b`
      has been granted too. So a waiting requester is bypassed at most once by each other one. */
  lemma RoundRobinBypass(states: seq<Fair>, rounds: seq<Round>, served: seq<map<string, Stats>>, i: nat, j: nat,
                         a: string, b: nat)
    requires IsRun(false, states, rounds, served) && i < j < |rounds|
    requires rounds[i].granted && Winner(rounds[i]).requester == a
    requires b < |rounds[j].queue| && rounds[j].queue[b].requester != a
    requires forall k :: i < k < j && rounds[k].granted ==> Winner(rounds[k]).requester != rounds[j].queue[b].requester
    requires LaneRank(Winner(rounds[j]).lane) == LaneRank(rounds[j].queue[b].lane)
    ensures Winner(rounds[j]).requester != a
  {
    ServedLater(false, states, rounds, served, i, j, a, rounds[j].queue[b].requester);
    RunKeepsLast(false, states, rounds, served, j);
    NotAhead(states[j], rounds[j], states[j + 1], served[j], b);
  }

  // ---- a grant in another lane counts -----------------------------------------------------------

  const A1 := Waiter(1, "a", 1.0, Backfill, 1, None)
  const B1 := Waiter(2, "b", 1.0, Backfill, 1, None)
  const B2 := Waiter(3, "b", 1.0, Live, 1, None)
  const A2 := Waiter(4, "a", 1.0, Backfill, 1, None)

  const ROUNDS := [Round([A1, B1], 0, true), Round([B1, B2, A2], 1, true), Round([B1, A2], 1, true)]

  function Served(a: int, lastA: int, b: int, lastB: int): map<string, Stats> {
    map["a" := Stats(a, 1.0, lastA), "b" := Stats(b, 1.0, lastB)]
  }

  const LOOKS := [Served(0, -1, 0, -1), Served(1, 1, 0, -1), Served(1, 1, 1, 2)]
  const STATES :=
      [Fair(map[], 0), Fair(Served(1, 1, 0, -1), 1), Fair(Served(1, 1, 1, 2), 2), Fair(Served(2, 3, 1, 2), 3)]

  /** A run in which `a` is granted twice in the lane where the same waiter of `b` waits all along, because
      `b` was granted in another lane in between. */
  lemma GrantElsewhereAllowsSecondBypass()
    ensures IsRun(false, STATES, ROUNDS, LOOKS)
    ensures ROUNDS[0].granted && Winner(ROUNDS[0]) == A1 && ROUNDS[2].granted && Winner(ROUNDS[2]) == A2
    ensures A1.requester == A2.requester != B1.requester && A1.lane == A2.lane == B1.lane
    ensures B1 in ROUNDS[0].queue && B1 in ROUNDS[1].queue && B1 in ROUNDS[2].queue
  {
    assert STATES[1].served == Book(LOOKS[0], A1, 1) && STATES[2].served == Book(LOOKS[1], B2, 2) &&
        STATES[3].served == Book(LOOKS[2], A2, 3);
    assert Picks(LOOKS[0], ROUNDS[0].queue, false, 0);
    assert Picks(LOOKS[1], ROUNDS[1].queue, false, 1);
    assert Picks(LOOKS[2], ROUNDS[2].queue, false, 1);
    forall i | 0 <= i < |ROUNDS| ensures IsRound(false, STATES[i], ROUNDS[i], STATES[i + 1], LOOKS[i]) {
      assert i == 0 || i == 1 || i == 2;
    }
  }

  /** Weighted: granting `a` while `b` waited in its lane leaves the share of `a` at most one grant ahead. */
  lemma WeightedBypass(f: Fair, round: Round, f': Fair, served: map<string, Stats>, b: nat)
    requires IsRound(true, f, round, f', served) && round.granted && b < |round.queue|
    requires round.queue[b].requester != Winner(round).requester
    requires LaneRank(round.queue[b].lane) == LaneRank(Winner(round).lane)
    ensures
      var x, y := Winner(round), round.queue[b];
      && x.weight > 0.0 && y.weight > 0.0 && x.requester in f'.served && y.requester in f'.served
      && f'.served[x.requester].count as real / x.weight
         <= f'.served[y.requester].count as real / y.weight + 1.0 / x.weight
  {
    var x, y := Winner(round), round.queue[b];
    assert Behind(served, true, x, y);
    assert (served[x.requester].count + 1) as real / x.weight ==
        served[x.requester].count as real / x.weight + 1.0 / x.weight;
  }
}
