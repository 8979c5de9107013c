/** The grant loop of one rate budget. The loop is suspended only while the store works on a take;
    everything else runs to completion, but hooks and timers may call back synchronously. Every
    sequence of calls of the public methods is one interleaving. */
module BudgetManager {
  import opened Store
  import opened Fairness

  datatype Settlement = Resolved | Aborted | TimedOut | StoreFailed

  /** A timer fires at `at`. */
  datatype Callback = Wake(token: nat, at: int) | Expire(waiter: nat, at: int)

  datatype Reply = BadConfig | Immediate | Rejected | Queued(waiter: nat)

  /** A refusal says when to try again; the wait may be no finite number. */
  datatype TakeResult = Taken | Refused(retryInMs: Option<real>) | Throws

  /** The delay of the next try: the wait rounded up, at least one millisecond, one second if it is unknown. */
  function Delay(retryInMs: Option<real>): (ms: int)
    ensures ms >= 1 && (retryInMs.None? ==> ms == 1000)
    ensures retryInMs.Some? ==> ms as real >= retryInMs.value && (ms == 1 || (ms - 1) as real < retryInMs.value)
  {
    if retryInMs.None? then 1000
    else
      var floor := retryInMs.value.Floor;
      var ceiling := if floor as real == retryInMs.value then floor else floor + 1;
      if ceiling < 1 then 1 else ceiling
  }

  ghost predicate Waits(queue: seq<Waiter>, s: nat) { exists i :: 0 <= i < |queue| && queue[i].seqNo == s }

  /** Waiters `1..top` either wait or were settled, never both, and none waits twice. */
  ghost predicate WaitersOk(queue: seq<Waiter>, settled: map<nat, Settlement>, top: nat) {
    && Fairness.QueueOk(queue)
    && (forall i :: 0 <= i < |queue| ==> 1 <= queue[i].seqNo <= top && queue[i].seqNo !in settled)
    && (forall s {:trigger Waits(queue, s)} :: 1 <= s <= top && s !in settled ==> Waits(queue, s))
    && (forall s :: s in settled ==> 1 <= s <= top)
  }

  /** The clock holds the armed wake-up, one timer per armed deadline of a waiting waiter, and nothing else. */
  ghost predicate TimersOk(timers: map<nat, Callback>, next: nat, settled: map<nat, Settlement>,
                           deadlines: map<nat, nat>,
                           wakeToken: Option<nat>, wakeHandle: Option<nat>) {
    && (forall h :: h in timers ==> h < next)
    && (forall h :: h in timers && timers[h].Wake? ==> wakeHandle == Some(h) && wakeToken == Some(timers[h].token))
    && (forall h :: h in timers && timers[h].Expire? ==>
          timers[h].waiter in deadlines && deadlines[timers[h].waiter] == h && timers[h].waiter !in settled)
    && (forall s :: s in deadlines ==>
        deadlines[s] in timers && timers[deadlines[s]].Expire? && timers[deadlines[s]].waiter == s)
    && (wakeHandle.Some? <==> wakeToken.Some?)
    && (wakeHandle.Some? ==>
          && wakeHandle.value in timers && timers[wakeHandle.value].Wake?
          && timers[wakeHandle.value].token == wakeToken.value)
  }

  /** Every armed deadline timer of a waiting waiter fires at its deadline. */
  ghost predicate OnTime(queue: seq<Waiter>, timers: map<nat, Callback>, deadlines: map<nat, nat>) {
    forall i :: 0 <= i < |queue| && queue[i].seqNo in deadlines ==>
      && queue[i].deadlineAt.Some? && deadlines[queue[i].seqNo] in timers
      && timers[deadlines[queue[i].seqNo]] == Expire(queue[i].seqNo, queue[i].deadlineAt.value)
  }

  lemma SettledOnTime(queue: seq<Waiter>, timers: map<nat, Callback>, deadlines: map<nat, nat>, i: nat)
    requires OnTime(queue, timers, deadlines) && i < |queue| && Fairness.QueueOk(queue)
    requires forall s :: s in deadlines ==>
               deadlines[s] in timers && timers[deadlines[s]].Expire? && timers[deadlines[s]].waiter == s
    ensures OnTime(Without(queue, i), Cleared(timers, deadlines, queue[i].seqNo), deadlines - {queue[i].seqNo})
  {
  }

  lemma ArmedOnTime(queue: seq<Waiter>, timers: map<nat, Callback>, deadlines: map<nat, nat>, next: nat, w: Waiter)
    requires OnTime(queue, timers, deadlines) && w in queue && Fairness.QueueOk(queue) && w.deadlineAt.Some?
    requires w.seqNo !in deadlines && forall h :: h in timers ==> h < next
    ensures OnTime(queue, timers[next := Expire(w.seqNo, w.deadlineAt.value)], deadlines[w.seqNo := next])
  {
    forall i | 0 <= i < |queue| && queue[i].seqNo == w.seqNo ensures queue[i] == w {
      var j :| 0 <= j < |queue| && queue[j] == w;
    }
  }

  function Without(queue: seq<Waiter>, i: nat): (r: seq<Waiter>)
    requires i < |queue|
    ensures |r| == |queue| - 1 && forall j :: 0 <= j < |r| ==> r[j] == queue[if j < i then j else j + 1]
  {
    queue[..i] + queue[i + 1..]
  }

  lemma WaitsWithout(queue: seq<Waiter>, i: nat, s: nat)
    requires i < |queue| && s != queue[i].seqNo
    ensures Waits(queue, s) <==> Waits(Without(queue, i), s)
  {
    var r := Without(queue, i);
    if Waits(queue, s) {
      var j :| 0 <= j < |queue| && queue[j].seqNo == s;
      assert r[if j < i then j else j - 1].seqNo == s;
    }
  }

  lemma SettledOk(queue: seq<Waiter>, settled: map<nat, Settlement>, top: nat, i: nat, how: Settlement)
    requires WaitersOk(queue, settled, top) && i < |queue|
    ensures WaitersOk(Without(queue, i), settled[queue[i].seqNo := how], top)
  {
    var s := queue[i].seqNo;
    forall t | 1 <= t <= top && t !in settled[s := how] ensures Waits(Without(queue, i), t) {
      WaitsWithout(queue, i, t);
    }
  }

  /** Nobody came, and nobody changed. */
  ghost predicate Fewer(queue: seq<Waiter>, queue': seq<Waiter>) {
    forall i :: 0 <= i < |queue'| ==> queue'[i] in queue
  }

  /** The first `n` of `all` who still wait with a deadline are armed, and those armed after `first` in time. */
  ghost predicate ArmedUpTo(all: seq<Waiter>, n: nat, queue: seq<Waiter>, deadlines: map<nat, nat>,
                            first: map<nat, nat>, now: int) {
    forall i :: 0 <= i < n <= |all| && all[i].deadlineAt.Some? && all[i] in queue ==>
      all[i].seqNo in deadlines && (all[i].seqNo !in first ==> now < all[i].deadlineAt.value)
  }

  lemma ArmedMore(all: seq<Waiter>, n: nat, queue: seq<Waiter>, deadlines: map<nat, nat>, queue': seq<Waiter>,
                  deadlines': map<nat, nat>, first: map<nat, nat>, now: int)
    requires ArmedUpTo(all, n, queue, deadlines, first, now) && n < |all|
    requires Fewer(queue, queue') && deadlines.Keys <= deadlines'.Keys
    requires all[n].deadlineAt.Some? && all[n] in queue' ==>
               all[n].seqNo in deadlines' && (all[n].seqNo !in first ==> now < all[n].deadlineAt.value)
    ensures ArmedUpTo(all, n + 1, queue', deadlines', first, now)
  {
  }

  lemma StillWaits(all: seq<Waiter>, queue: seq<Waiter>, settled: map<nat, Settlement>, top: nat, n: nat)
    requires WaitersOk(queue, settled, top) && Fewer(all, queue) && Fairness.QueueOk(all) && n < |all|
    requires 1 <= all[n].seqNo <= top
    ensures all[n] in queue <==> all[n].seqNo !in settled
  {
    if all[n].seqNo !in settled {
      assert Waits(queue, all[n].seqNo);
      var i :| 0 <= i < |queue| && queue[i].seqNo == all[n].seqNo;
      var j :| 0 <= j < |all| && all[j] == queue[i];
    }
  }

  /** The clock after clearing the deadline timer of `s`, if there is one. */
  function Cleared(timers: map<nat, Callback>, deadlines: map<nat, nat>, s: nat): map<nat, Callback> {
    if s in deadlines then timers - {deadlines[s]} else timers
  }

  lemma SettledTimers(timers: map<nat, Callback>, next: nat, settled: map<nat, Settlement>, deadlines: map<nat, nat>,
                      wakeToken: Option<nat>, wakeHandle: Option<nat>, s: nat, how: Settlement)
    requires TimersOk(timers, next, settled, deadlines, wakeToken, wakeHandle)
    ensures TimersOk(Cleared(timers, deadlines, s), next, settled[s := how], deadlines - {s}, wakeToken, wakeHandle)
  {
  }

  lemma ArmedTimers(timers: map<nat, Callback>, next: nat, settled: map<nat, Settlement>, deadlines: map<nat, nat>,
                    wakeToken: Option<nat>, wakeHandle: Option<nat>, s: nat, at: int)
    requires TimersOk(timers, next, settled, deadlines, wakeToken, wakeHandle) && s !in settled && s !in deadlines
    ensures TimersOk(timers[next := Expire(s, at)], next + 1, settled, deadlines[s := next], wakeToken, wakeHandle)
  {
  }

  lemma WakeTimers(timers: map<nat, Callback>, next: nat, settled: map<nat, Settlement>, deadlines: map<nat, nat>,
                   token: nat, at: int)
    requires TimersOk(timers, next, settled, deadlines, None, None)
    ensures TimersOk(timers[next := Wake(token, at)], next + 1, settled, deadlines, Some(token), Some(next))
    ensures TimersOk(timers, next + 1, settled, deadlines, None, None)
  {
  }

  lemma PushedOk(queue: seq<Waiter>, settled: map<nat, Settlement>, top: nat, w: Waiter)
    requires WaitersOk(queue, settled, top) && w.seqNo == top + 1 && w.weight > 0.0
    ensures WaitersOk(queue + [w], settled, top + 1)
  {
    var q := queue + [w];
    forall s | 1 <= s <= top + 1 && s !in settled ensures Waits(q, s) {
      if s == top + 1 {
        assert q[|queue|].seqNo == s;
      } else {
        assert Waits(queue, s);
        var i :| 0 <= i < |queue| && queue[i].seqNo == s;
        assert q[i].seqNo == s;
      }
    }
  }

  // ---- the history of picks and grants --------------------------------------------------------

  datatype Log = Empty | Then(before: Log, was: Fair, round: Round, look: map<string, Stats>, now: Fair)

  /** The history, grown round by round, ends in `now`. */
  ghost predicate Leads(weighted: bool, log: Log, now: Fair) {
    match log
    case Empty => now == Fair(map[], 0)
    case Then(before, was, round, look, end) => end == now && Leads(weighted, before, was) && IsRound(weighted, was,
        round, now, look)
  }

  /** The history with the pick under way counted as a round without a grant. */
  function Pending(log: Log, now: Fair, pick: Option<Round>): Log {
    if pick.None? then log else Then(log, End(log), pick.value, now.served, now)
  }

  /** The rounds so far are a run of the fairness rules, up to the pick that is under way. */
  ghost predicate LogOk(weighted: bool, log: Log, now: Fair, pick: Option<Round>) {
    Leads(weighted, Pending(log, now, pick), now)
  }

  function End(log: Log): Fair { if log.Empty? then Fair(map[], 0) else log.now }

  /** The same history as sequences: `n` rounds between `n + 1` states. */
  function States(log: Log): (r: seq<Fair>)
    ensures |r| == Length(log) + 1
  {
    if log.Empty? then [End(log)] else States(log.before) + [log.now]
  }

  function Length(log: Log): nat { if log.Empty? then 0 else Length(log.before) + 1 }

  /** The tokens of all grants. */
  function Spent(log: Log): nat {
    if log.Empty? then 0 else Spent(log.before) + if log.round.granted &&
        log.round.best < |log.round.queue| then Winner(log.round).cost else 0
  }

  function Rounds(log: Log): (r: seq<Round>)
    ensures |r| == Length(log)
  {
    if log.Empty? then [] else Rounds(log.before) + [log.round]
  }

  function Looks(log: Log): (r: seq<map<string, Stats>>)
    ensures |r| == Length(log)
  {
    if log.Empty? then [] else Looks(log.before) + [log.look]
  }

  lemma {:induction false} LogIsRun(weighted: bool, log: Log, now: Fair)
    requires Leads(weighted, log, now)
    ensures IsRun(weighted, States(log), Rounds(log), Looks(log)) && States(log)[Length(log)] == now
  {
    if log.Then? {
      LogIsRun(weighted, log.before, log.was);
      var states, rounds, looks := States(log), Rounds(log), Looks(log);
      forall i | 0 <= i < |rounds| ensures IsRound(weighted, states[i], rounds[i], states[i + 1], looks[i]) {
        if i < Length(log.before) {
          assert IsRound(weighted, States(log.before)[i], Rounds(log.before)[i], States(log.before)[i + 1],
                         Looks(log.before)[i]);
        }
      }
    }
  }

  /** The picked waiter is granted: its statistics are looked up again, then booked. */
  lemma GrantLogged(weighted: bool, log: Log, was: Fair, pick: Round, look: map<string, Stats>)
    requires LogOk(weighted, log, was, Some(pick)) && !pick.granted && pick.best < |pick.queue|
    requires Grows(was.served, look) && Winner(pick).requester in look
    ensures
      var now := Fair(Book(look, Winner(pick), was.grantSeq + 1), was.grantSeq + 1);
      Leads(weighted, Then(log, End(log), pick.(granted := true), look, now), now)
  {
    forall j | 0 <= j < |pick.queue| && j != pick.best
      ensures Behind(look, weighted, pick.queue[pick.best], pick.queue[j]) {
      BehindGrows(was.served, look, weighted, pick.queue[pick.best], pick.queue[j]);
    }
  }

  lemma PickLogged(weighted: bool, log: Log, was: Fair, queue: seq<Waiter>, best: nat, look: map<string, Stats>)
    requires LogOk(weighted, log, was, None) && Grows(was.served, look) && Picks(look, queue, weighted, best)
    ensures LogOk(weighted, log, was.(served := look), Some(Round(queue, best, false)))
  {
  }

  lemma BookedOk(served: map<string, Stats>, stats: map<string, Stats>, w: Waiter, grantSeq: nat, granted: nat,
                 taken: nat, log: Log, log': Log)
    requires BooksOk(served, grantSeq, granted, taken, log) && Grows(served, stats) && w.requester in stats
    requires w.weight > 0.0
    requires (forall r :: r in stats ==> stats[r].weight > 0.0) && granted + w.cost <= taken
    requires Spent(log') == Spent(log) + w.cost
    ensures BooksOk(Book(stats, w, grantSeq + 1), grantSeq + 1, granted + w.cost, taken, log')
  {
  }

  /** Deadlines are armed once, of waiters that were queued, and stay armed until the waiter is settled. */
  ghost predicate ArmedOk(armed: set<nat>, deadlines: map<nat, nat>, settled: map<nat, Settlement>, top: nat) {
    && deadlines.Keys <= armed && (forall s :: s in armed ==> 1 <= s <= top)
    && (forall s :: s in armed && s !in settled ==> s in deadlines)
  }

  lemma DeadlineSet(queue: seq<Waiter>, timers: map<nat, Callback>, next: nat, settled: map<nat, Settlement>,
                    deadlines: map<nat, nat>, wakeToken: Option<nat>, wakeHandle: Option<nat>, armed: set<nat>,
                    top: nat, w: Waiter)
    requires WaitersOk(queue, settled, top) && TimersOk(timers, next, settled, deadlines, wakeToken, wakeHandle)
    requires ArmedOk(armed, deadlines, settled, top) && OnTime(queue, timers, deadlines)
    requires w in queue && w.seqNo !in armed && w.deadlineAt.Some?
    ensures
      var timers', deadlines' := timers[next := Expire(w.seqNo, w.deadlineAt.value)], deadlines[w.seqNo := next];
      && TimersOk(timers', next + 1, settled, deadlines', wakeToken, wakeHandle)
      && ArmedOk(armed + {w.seqNo}, deadlines', settled, top) && OnTime(queue, timers', deadlines')
  {
    var i :| 0 <= i < |queue| && queue[i] == w;
    ArmedTimers(timers, next, settled, deadlines, wakeToken, wakeHandle, w.seqNo, w.deadlineAt.value);
    ArmedOnTime(queue, timers, deadlines, next, w);
  }

  ghost predicate BooksOk(served: map<string, Stats>, grantSeq: nat, granted: nat, taken: nat, log: Log) {
    && (forall r :: r in served ==> served[r].weight > 0.0) && Fairness.LastSeqs(Fair(served, grantSeq))
    && granted == Spent(log) && granted <= taken
  }

  predicate PickedIs(pick: Round, w: Waiter) { !pick.granted && pick.best < |pick.queue| && Winner(pick) == w }

  class Budget {
    const weighted: bool
    var queue: seq<Waiter>
    var settled: map<nat, Settlement>
    var waiterSeq: nat
    var served: map<string, Stats>
    var grantSeq: nat
    var pumping: bool
    var repump: bool
    /** The waiter whose take the store is working on. */
    var taking: Option<Waiter>
    var wakeToken: Option<nat>
    var wakeHandle: Option<nat>
    var nextToken: nat
    /** Timers the clock holds, by handle, and the handle of each armed deadline. */
    var timers: map<nat, Callback>
    var nextHandle: nat
    var armed: set<nat>
    var deadlines: map<nat, nat>
    /** Tokens the store handed out, and tokens of resolved waiters. */
    var takenTokens: nat
    var grantedTokens: nat
    ghost var log: Log
    ghost var pick: Option<Round>

    constructor (weighted: bool)
      ensures Valid() && queue == [] && settled == map[] && waiterSeq == 0 && taking.None? && takenTokens == 0
      ensures grantedTokens == 0
    {
      this.weighted := weighted;
      queue, settled, waiterSeq, served, grantSeq := [], map[], 0, map[], 0;
      pumping, repump, taking, wakeToken, wakeHandle, nextToken := false, false, None, None, None, 0;
      timers, nextHandle, armed, deadlines, takenTokens, grantedTokens := map[], 0, {}, map[], 0, 0;
      log, pick := Empty, None;
    }

    /** What holds between any two statements of the loop. */
    ghost predicate Core()
      reads this
    {
      && WaitersOk(queue, settled, waiterSeq)
      && TimersOk(timers, nextHandle, settled, deadlines, wakeToken, wakeHandle)
      && StatsOk() && ArmedOk(armed, deadlines, settled, waiterSeq) && OnTime(queue, timers, deadlines)
    }

    ghost predicate StatsOk()
      reads this`served, this`grantSeq, this`grantedTokens, this`takenTokens, this`log
    {
      BooksOk(served, grantSeq, grantedTokens, takenTokens, log)
    }

    /** Whenever no code of the manager runs: at most one take is under way, exactly while the loop is
        suspended; and an idle loop with waiters has exactly one live wake-up and all their deadlines armed. */
    ghost predicate Valid()
      reads this
    {
      Steady() && (!pumping && queue != [] ==> wakeToken.Some?) && (!pumping ==> AllArmed())
    }

    /** Every waiting waiter with a deadline has a timer for it. */
    ghost predicate AllArmed()
      reads this`queue, this`deadlines
    {
      forall i :: 0 <= i < |queue| && queue[i].deadlineAt.Some? ==> queue[i].seqNo in deadlines
    }

    /** All of that but the wake-up, which a change of the queue may make stale until the loop looks at it. */
    ghost predicate Steady()
      reads this
    {
      && Core()
      && (pumping <==> taking.Some?) && (taking.Some? ==> Known(taking.value))
      && (pumping ==> wakeToken.None?)
      && LogOk(weighted, log, Fair(served, grantSeq), pick) && (pick.Some? <==> taking.Some?)
      && (pick.Some? ==> PickedIs(pick.value, taking.value))
    }

    /** No pick is under way, and the history is up to date. */
    ghost predicate Between()
      reads this
    {
      taking.None? && pick.None? && LogOk(weighted, log, Fair(served, grantSeq), None)
    }

    predicate Known(w: Waiter)
      reads this
    {
      1 <= w.seqNo <= waiterSeq && w.weight > 0.0
    }

    /** No settlement is undone or changed. */
    twostate predicate KeepsSettlements()
      reads this
    {
      old(waiterSeq) <= waiterSeq && forall s :: s in old(settled) ==> s in settled && settled[s] == old(settled)[s]
    }

    /** Whoever is newly settled ran out of time. */
    twostate predicate OnlyTimeouts()
      reads this
    {
      forall s :: s in settled && s !in old(settled) ==> settled[s] == TimedOut
    }

    // ---- inside the loop ----------------------------------------------------------------------

    /** The waiter at `i` leaves the queue and its deadline timer is cleared. */
    method Remove(i: nat, how: Settlement)
      requires WaitersOk(queue, settled, waiterSeq)
      requires TimersOk(timers, nextHandle, settled, deadlines, wakeToken, wakeHandle) && i < |queue|
      requires OnTime(queue, timers, deadlines)
      modifies this`queue, this`settled, this`timers, this`deadlines
      ensures WaitersOk(queue, settled, waiterSeq) && OnTime(queue, timers, deadlines)
      ensures TimersOk(timers, nextHandle, settled, deadlines, wakeToken, wakeHandle)
      ensures queue == Without(old(queue), i) && settled == old(settled)[old(queue)[i].seqNo := how]
      ensures timers == Cleared(old(timers), old(deadlines), old(queue)[i].seqNo)
      ensures deadlines == old(deadlines) - {old(queue)[i].seqNo}
    {
      SettledOk(queue, settled, waiterSeq, i, how);
      var s := queue[i].seqNo;
      SettledTimers(timers, nextHandle, settled, deadlines, wakeToken, wakeHandle, s, how);
      SettledOnTime(queue, timers, deadlines, i);
      settled, queue := settled[s := how], Without(queue, i);
      timers, deadlines := Cleared(timers, deadlines, s), deadlines - {s};
    }

    /** Settle the waiter at `i`: it leaves the queue and its deadline timer is cleared. */
    method Settle(i: nat, how: Settlement)
      requires Core() && i < |queue|
      modifies this`queue, this`settled, this`timers, this`deadlines
      ensures Core() && KeepsSettlements() && queue == Without(old(queue), i)
      ensures settled == old(settled)[old(queue)[i].seqNo := how]
      ensures timers == Cleared(old(timers), old(deadlines), old(queue)[i].seqNo)
      ensures deadlines == old(deadlines) - {old(queue)[i].seqNo}
    {
      Remove(i, how);
    }

    method CancelWake()
      requires Core()
      modifies this`timers, this`wakeToken, this`wakeHandle
      ensures Core() && wakeToken.None? && timers.Keys <= old(timers.Keys)
      ensures (old(wakeHandle).Some? ==> old(wakeHandle).value !in timers)
    {
      if wakeHandle.Some? { timers := timers - {wakeHandle.value}; }
      wakeHandle, wakeToken := None, None;
    }

    method Push(requester: string, weight: real, lane: Lane, cost: nat, deadlineAt: Option<int>)
      requires Core() && weight > 0.0
      modifies this`queue, this`waiterSeq
      ensures Core() && waiterSeq == old(waiterSeq) + 1
      ensures queue == old(queue) + [Waiter(waiterSeq, requester, weight, lane, cost, deadlineAt)]
    {
      var w := Waiter(waiterSeq + 1, requester, weight, lane, cost, deadlineAt);
      PushedOk(queue, settled, waiterSeq, w);
      waiterSeq := waiterSeq + 1;
      queue := queue + [w];
    }

    /** Where a waiter stands in the queue; one that is not settled is there. */
    method IndexOf(s: nat) returns (i: nat)
      requires Core() && 1 <= s <= waiterSeq && s !in settled
      ensures i < |queue| && queue[i].seqNo == s
    {
      assert Waits(queue, s);
      i := 0;
      while queue[i].seqNo != s
        invariant i < |queue| && forall j :: 0 <= j < i ==> queue[j].seqNo != s
        decreases |queue| - i
      {
        i := i + 1;
      }
    }

    /** Settle a waiter that waits. */
    method SettleWaiter(s: nat, how: Settlement)
      requires Core() && 1 <= s <= waiterSeq && s !in settled
      modifies this`queue, this`settled, this`timers, this`deadlines
      ensures Core() && settled == old(settled)[s := how] && timers == Cleared(old(timers), old(deadlines), s)
      ensures deadlines == old(deadlines) - {s} && Fewer(old(queue), queue) && |queue| < |old(queue)|
    {
      var i := IndexOf(s);
      Settle(i, how);
    }

    /** What hooks and timers may do synchronously while the loop runs: new waiters come, others are
        aborted or expire; each such call finds the loop running and asks it to look again. */
    method Reenter()
      requires Core() && pumping
      modifies this`queue, this`waiterSeq, this`settled, this`timers, this`deadlines, this`repump
      ensures Core() && KeepsSettlements()
    {
      var n: nat := *;
      while n > 0
        invariant Core() && KeepsSettlements()
      {
        n := n - 1;
        if * {
          var requester: string, weight: real, lane: Lane, cost: nat, deadlineAt: Option<int> := *, *, *, *, *;
          if weight > 0.0 { Push(requester, weight, lane, cost, deadlineAt); repump := true; }
        } else if queue != [] {
          var i: nat, how: Settlement := 0, *;
          i :| 0 <= i < |queue|;
          if how == Aborted || how == TimedOut { Settle(i, how); repump := true; }
        }
      }
    }

    /** Pick the next waiter and hand its take to the store, or end the loop. */
    method Next()
      requires Core() && pumping && Between() && wakeToken.None?
      modifies this`served, this`taking, this`pumping, this`repump, this`pick
      ensures Valid() && (!pumping ==> queue == [])
    {
      if queue == [] {
        repump, pumping := false, false;
        return;
      }
      PickNext();
    }

    method PickNext()
      requires WaitersOk(queue, settled, waiterSeq) && StatsOk() && Between() && queue != []
      modifies this`served, this`taking, this`pick
      ensures StatsOk() && LogOk(weighted, log, Fair(served, grantSeq), pick)
      ensures taking.Some? && Known(taking.value) && pick.Some? && PickedIs(pick.value, taking.value)
    {
      var best, looked, _ := Pick(served, queue, weighted);
      PickLogged(weighted, log, Fair(served, grantSeq), queue, best, looked);
      served, taking, pick := looked, Some(queue[best]), Some(Round(queue, best, false));
    }

    /** The top of the loop: forget the request to look again and the wake-up, then go on. */
    method Loop()
      requires Core() && pumping && Between()
      modifies this`served, this`taking, this`pumping, this`repump, this`timers, this`wakeToken, this`wakeHandle
      modifies this`pick
      ensures Valid() && timers.Keys <= old(timers.Keys) && (!pumping ==> queue == [])
    {
      repump := false;
      CancelWake();
      Next();
    }

    /** Entered by every outside call; inside a running loop it only asks it to look again. */
    method Pump()
      requires Steady()
      modifies this`served, this`taking, this`pumping, this`repump, this`timers, this`wakeToken, this`wakeHandle
      modifies this`pick
      ensures Valid() && timers.Keys <= old(timers.Keys) && (old(taking).Some? ==> taking == old(taking))
    {
      if pumping {
        repump := true;
        return;
      }
      pumping := true;
      Loop();
    }

    /** A waiter's time is up while the loop runs. */
    method ExpireInside(s: nat)
      requires Core() && pumping && 1 <= s <= waiterSeq && s !in settled
      modifies this`queue, this`settled, this`timers, this`deadlines, this`repump
      ensures Core() && settled == old(settled)[s := TimedOut]
      ensures deadlines == old(deadlines) - {s} && Fewer(old(queue), queue) && |queue| < |old(queue)|
    {
      SettleWaiter(s, TimedOut);
      repump := true;
    }

    /** Arm the deadline of one waiter. The clock may fire the timer at once. */
    method ArmDeadline(w: Waiter, now: int)
      requires Core() && pumping && w in queue && w.seqNo !in armed && w.deadlineAt.Some?
      modifies this`queue, this`settled, this`timers, this`deadlines, this`repump, this`armed, this`nextHandle
      ensures Core() && KeepsSettlements() && OnlyTimeouts() && Fewer(old(queue), queue)
      ensures armed == old(armed) + {w.seqNo} && old(deadlines).Keys <= deadlines.Keys
      ensures if w.seqNo in settled then settled == old(settled)[w.seqNo := TimedOut] && queue != old(queue)
              else settled == old(settled) && queue == old(queue) && w.seqNo in deadlines &&
                   deadlines[w.seqNo] in timers && timers[deadlines[w.seqNo]] == Expire(w.seqNo, w.deadlineAt.value)
      ensures w.deadlineAt.value <= now ==> w.seqNo in settled
    {
      var atOnce: bool := *;
      if w.deadlineAt.value <= now || atOnce {
        ExpireInside(w.seqNo);
        armed := armed + {w.seqNo};
      } else {
        SetDeadline(w);
      }
    }

    method SetDeadline(w: Waiter)
      requires Core() && w in queue && w.seqNo !in armed && w.deadlineAt.Some?
      modifies this`timers, this`deadlines, this`armed, this`nextHandle
      ensures Core() && armed == old(armed) + {w.seqNo} && deadlines == old(deadlines)[w.seqNo := old(nextHandle)]
      ensures timers == old(timers)[old(nextHandle) := Expire(w.seqNo, w.deadlineAt.value)]
    {
      DeadlineSet(queue, timers, nextHandle, settled, deadlines, wakeToken, wakeHandle, armed, waiterSeq, w);
      timers, deadlines := timers[nextHandle := Expire(w.seqNo, w.deadlineAt.value)], deadlines[w.seqNo := nextHandle];
      armed, nextHandle := armed + {w.seqNo}, nextHandle + 1;
    }

    /** Whoever still waits with a deadline is armed; if just now, then in time. */
    twostate predicate ArmedInTime(now: int)
      reads this`queue, this`deadlines
    {
      forall i :: 0 <= i < |queue| && queue[i].deadlineAt.Some? ==>
        && queue[i].seqNo in deadlines
        && (queue[i].seqNo !in old(deadlines) ==> now < queue[i].deadlineAt.value)
    }

    method ArmDeadlines(now: int)
      requires Core() && pumping
      modifies this`queue, this`settled, this`timers, this`deadlines, this`repump, this`armed, this`nextHandle
      ensures Core() && KeepsSettlements() && OnlyTimeouts() && ArmedInTime(now)
    {
      var all := queue;
      for n := 0 to |all|
        invariant Core() && KeepsSettlements() && OnlyTimeouts() && Fewer(all, queue)
        invariant ArmedUpTo(all, n, queue, deadlines, old(deadlines), now)
        invariant forall i :: n <= i < |all| && all[i].seqNo in armed ==> all[i].seqNo in old(armed)
      {
        var w := all[n];
        StillWaits(all, queue, settled, waiterSeq, n);
        assert w in queue && w.seqNo in armed ==> w.seqNo in old(deadlines);
        ghost var was, had := queue, deadlines;
        if w.seqNo !in settled && w.seqNo !in armed && w.deadlineAt.Some? {
          ArmDeadline(w, now);
        }
        ArmedMore(all, n, was, had, queue, deadlines, old(deadlines), now);
      }
    }

    method ArmWake(at: int)
      requires TimersOk(timers, nextHandle, settled, deadlines, wakeToken, wakeHandle) && wakeToken.None?
      requires OnTime(queue, timers, deadlines)
      modifies this`timers, this`wakeToken, this`wakeHandle, this`nextToken, this`nextHandle
      ensures TimersOk(timers, nextHandle, settled, deadlines, wakeToken, wakeHandle) && WakesAt(at)
      ensures OnTime(queue, timers, deadlines)
    {
      WakeTimers(timers, nextHandle, settled, deadlines, nextToken, at);
      timers, wakeToken, wakeHandle := timers[nextHandle := Wake(nextToken, at)], Some(nextToken), Some(nextHandle);
      nextToken, nextHandle := nextToken + 1, nextHandle + 1;
    }

    /** A wake-up is set for `at`. */
    ghost predicate WakesAt(at: int)
      reads this`timers, this`wakeToken, this`wakeHandle
    {
      && wakeToken.Some? && wakeHandle.Some? && wakeHandle.value in timers
      && timers[wakeHandle.value] == Wake(wakeToken.value, at)
    }

    /** One wake-up if anybody waits, replacing an older one. A clock that fires it at once only asks the
        running loop to look again. */
    method ScheduleWake(at: int)
      requires Core() && pumping
      modifies this`timers, this`wakeToken, this`wakeHandle, this`nextToken, this`nextHandle, this`repump
      ensures Core() && (queue == [] || repump || WakesAt(at))
    {
      if queue == [] { return; }
      CancelWake();
      var atOnce: bool := *;
      if atOnce { repump := true; } else { SetWake(at); }
    }

    method SetWake(at: int)
      requires Core() && wakeToken.None?
      modifies this`timers, this`wakeToken, this`wakeHandle, this`nextToken, this`nextHandle
      ensures Core() && WakesAt(at)
    {
      assert WaitersOk(queue, settled, waiterSeq) && ArmedOk(armed, deadlines, settled, waiterSeq);
      ArmWake(at);
    }

    /** The statistics with an entry for the requester of `w`. */
    method Enrolled(w: Waiter) returns (stats: map<string, Stats>)
      requires StatsOk() && w.weight > 0.0
      ensures Grows(served, stats) && w.requester in stats && forall r :: r in stats ==> stats[r].weight > 0.0
    {
      stats := StatsFor(served, w.requester, w.weight);
    }

    method BookGrant(w: Waiter)
      requires StatsOk() && w.weight > 0.0 && grantedTokens + w.cost <= takenTokens && taking.None?
      requires LogOk(weighted, log, Fair(served, grantSeq), pick) && pick.Some? && PickedIs(pick.value, w)
      modifies this`served, this`grantSeq, this`grantedTokens, this`log, this`pick
      ensures StatsOk() && Between() && grantedTokens == old(grantedTokens) + w.cost
    {
      var stats := Enrolled(w);
      ghost var before := log;
      LogGrant(w, stats);
      BookedOk(served, stats, w, grantSeq, grantedTokens, takenTokens, before, log);
      served, grantSeq, grantedTokens := Book(stats, w, grantSeq + 1), grantSeq + 1, grantedTokens + w.cost;
    }

    ghost method LogGrant(w: Waiter, stats: map<string, Stats>)
      requires LogOk(weighted, log, Fair(served, grantSeq), pick) && pick.Some? && PickedIs(pick.value, w)
      requires Grows(served, stats) && w.requester in stats
      modifies this`log, this`pick
      ensures pick.None? && Leads(weighted, log, Fair(Book(stats, w, grantSeq + 1), grantSeq + 1))
      ensures Spent(log) == old(Spent(log)) + w.cost
    {
      GrantLogged(weighted, log, Fair(served, grantSeq), pick.value, stats);
      log, pick :=
          Then(log, End(log), pick.value.(granted := true), stats,
               Fair(Book(stats, w, grantSeq + 1), grantSeq + 1)), None;
    }

    /** Resolve a waiter, book the grant, let the hook run, and go on. */
    method Grant(w: Waiter)
      requires Core() && pumping && taking.None? && wakeToken.None? && Known(w) && w.seqNo !in settled
      requires grantedTokens + w.cost <= takenTokens
      requires LogOk(weighted, log, Fair(served, grantSeq), pick) && pick.Some? && PickedIs(pick.value, w)
      modifies this`queue, this`settled, this`timers, this`deadlines, this`repump, this`served, this`taking
      modifies this`pumping, this`pick, this`waiterSeq, this`grantSeq, this`grantedTokens, this`log
      ensures Valid() && KeepsSettlements() && w.seqNo in settled && settled[w.seqNo] == Resolved
      ensures grantedTokens == old(grantedTokens) + w.cost
    {
      Resolve(w);
      RunHook();
    }

    method Resolve(w: Waiter)
      requires Core() && taking.None? && Known(w) && w.seqNo !in settled && grantedTokens + w.cost <= takenTokens
      requires LogOk(weighted, log, Fair(served, grantSeq), pick) && pick.Some? && PickedIs(pick.value, w)
      modifies this`queue, this`settled, this`timers, this`deadlines, this`served, this`grantSeq, this`grantedTokens
      modifies this`log, this`pick
      ensures Core() && Between() && settled == old(settled)[w.seqNo := Resolved]
      ensures grantedTokens == old(grantedTokens) + w.cost
    {
      SettleWaiter(w.seqNo, Resolved);
      assert WaitersOk(queue, settled, waiterSeq) && ArmedOk(armed, deadlines, settled, waiterSeq);
      assert TimersOk(timers, nextHandle, settled, deadlines, wakeToken, wakeHandle) &&
          OnTime(queue, timers, deadlines);
      BookGrant(w);
    }

    /** The hook of a grant runs, then the loop goes on. */
    method RunHook()
      requires Core() && pumping && Between() && wakeToken.None?
      modifies this`queue, this`settled, this`timers, this`deadlines, this`repump, this`served, this`taking
      modifies this`pumping, this`pick, this`waiterSeq
      ensures Valid() && KeepsSettlements()
    {
      Reenter();
      Next();
    }

    /** The store threw: the waiter is rejected and the loop goes on. */
    method Fail(w: Waiter)
      requires Core() && pumping && Between() && wakeToken.None? && Known(w) && w.seqNo !in settled
      modifies this`queue, this`settled, this`timers, this`deadlines, this`repump, this`served, this`taking
      modifies this`pumping, this`pick
      ensures Valid() && settled == old(settled)[w.seqNo := StoreFailed]
    {
      SettleWaiter(w.seqNo, StoreFailed);
      Next();
    }

    /** The store refused: deadlines are armed, a wake-up is scheduled, and the loop ends unless asked to look again. */
    method Wait(now: int, delay: int)
      requires Core() && pumping && Between() && wakeToken.None?
      modifies this`queue, this`settled, this`timers, this`deadlines, this`repump, this`served, this`taking
      modifies this`pumping, this`pick, this`armed, this`nextHandle, this`nextToken, this`wakeToken, this`wakeHandle
      ensures Valid() && KeepsSettlements() && OnlyTimeouts() && ArmedInTime(now)
      ensures !pumping && queue != [] ==> WakesAt(now + delay)
    {
      ArmTimers(now, now + delay);
      LoopOrStop();
    }

    method ArmTimers(now: int, at: int)
      requires Core() && pumping
      modifies this`queue, this`settled, this`timers, this`deadlines, this`repump, this`armed, this`nextHandle
      modifies this`nextToken, this`wakeToken, this`wakeHandle
      ensures Core() && KeepsSettlements() && OnlyTimeouts() && (queue == [] || repump || WakesAt(at))
      ensures ArmedInTime(now)
    {
      ArmDeadlines(now);
      ScheduleWake(at);
    }

    method LoopOrStop()
      requires Core() && pumping && Between() && (queue == [] || repump || wakeToken.Some?) && AllArmed()
      modifies this`served, this`taking, this`pumping, this`repump, this`timers, this`wakeToken, this`wakeHandle
      modifies this`pick
      ensures Valid()
      ensures !pumping && queue != [] ==>
                !old(repump) && wakeToken == old(wakeToken) && wakeHandle == old(wakeHandle) && timers == old(timers)
    {
      if repump { Loop(); } else { pumping := false; }
    }

    // ---- events -------------------------------------------------------------------------------

    /** The store answers the take the loop is waiting for. */
    method Resume(result: TakeResult, now: int)
      requires Valid() && taking.Some?
      modifies this
      ensures Valid() && KeepsSettlements()
      ensures result.Refused? && old(taking).value.seqNo !in old(settled) ==>
                ArmedInTime(now) && (!pumping && queue != [] ==> WakesAt(now + Delay(result.retryInMs)))
      ensures takenTokens == old(takenTokens) + if result == Taken then old(taking).value.cost else 0
      ensures
        var w := old(taking).value;
        if w.seqNo in old(settled) then settled == old(settled) && grantedTokens == old(grantedTokens)
        else if result == Taken then
          w.seqNo in settled && settled[w.seqNo] == Resolved && grantedTokens == old(grantedTokens) + w.cost
        else if result == Throws then
          settled == old(settled)[w.seqNo := StoreFailed] && grantedTokens == old(grantedTokens)
        else OnlyTimeouts() && grantedTokens == old(grantedTokens)
    {
      var w := Answered(result);
      if w.seqNo !in settled && result == Taken {
        Grant(w);
        return;
      }
      GoOn(w, result, now);
    }

    method Answered(result: TakeResult) returns (w: Waiter)
      requires Valid() && taking.Some?
      modifies this`taking, this`takenTokens
      ensures Core() && pumping && taking.None? && wakeToken.None? && w == old(taking).value && Known(w)
      ensures takenTokens ==
                old(takenTokens) + (if result == Taken then w.cost else 0) && grantedTokens <= old(takenTokens)
      ensures LogOk(weighted, log, Fair(served, grantSeq), pick) && pick.Some? && PickedIs(pick.value, w)
    {
      w := taking.value;
      taking := None;
      if result == Taken { takenTokens := takenTokens + w.cost; }
    }

    /** No grant: the waiter left meanwhile, the store threw, or it refused. */
    method GoOn(w: Waiter, result: TakeResult, now: int)
      requires Core() && pumping && taking.None? && wakeToken.None? && Known(w)
      requires (result == Taken ==> w.seqNo in settled)
      requires LogOk(weighted, log, Fair(served, grantSeq), pick) && pick.Some? && !pick.value.granted
      modifies this`queue, this`settled, this`timers, this`deadlines, this`repump, this`served, this`taking
      modifies this`pumping, this`pick, this`log, this`armed, this`nextHandle, this`nextToken, this`wakeToken
      modifies this`wakeHandle
      ensures Valid() && KeepsSettlements()
      ensures result.Refused? && w.seqNo !in old(settled) ==>
                ArmedInTime(now) && (!pumping && queue != [] ==> WakesAt(now + Delay(result.retryInMs)))
      ensures if w.seqNo in old(settled) then settled == old(settled) else if result == Throws then
                settled == old(settled)[w.seqNo := StoreFailed] else OnlyTimeouts()
    {
      CloseRound();
      if w.seqNo in settled {
        Next();
      } else if result == Throws {
        Fail(w);
      } else {
        Wait(now, Delay(result.retryInMs));
      }
    }

    /** The pick under way came to nothing. */
    ghost method CloseRound()
      requires LogOk(weighted, log, Fair(served, grantSeq), pick) && pick.Some? && !pick.value.granted && taking.None?
      modifies this`log, this`pick
      ensures Between() && Spent(log) == old(Spent(log))
    {
      log, pick := Then(log, End(log), pick.value, served, Fair(served, grantSeq)), None;
    }

    /** Ask for tokens. Bad arguments are refused, nothing is waited for at cost zero or when already aborted. */
    method Acquire(requester: string, weight: real, lane: Lane, cost: int, deadlineAt: Option<int>,
                   aborted: bool) returns (reply: Reply)
      requires Valid()
      modifies this`served, this`taking, this`pumping, this`repump, this`timers, this`wakeToken, this`wakeHandle
      modifies this`pick, this`queue, this`waiterSeq
      ensures Valid() && KeepsSettlements() && (old(taking).Some? ==> taking == old(taking))
      ensures reply == if cost < 0 || weight <= 0.0 then BadConfig else if cost == 0 then Immediate else if aborted then
                Rejected else Queued(waiterSeq)
      ensures waiterSeq == if reply.Queued? then old(waiterSeq) + 1 else old(waiterSeq)
      ensures queue == if cost > 0 && reply.Queued? then
                old(queue) + [Waiter(waiterSeq, requester, weight, lane, cost, deadlineAt)] else old(queue)
    {
      if cost < 0 || !(weight > 0.0) { return BadConfig; }
      if cost == 0 { return Immediate; }
      if aborted { return Rejected; }
      Push(requester, weight, lane, cost, deadlineAt);
      reply := Queued(waiterSeq);
      Pump();
    }

    /** Settle a waiter from outside and let the loop look at the queue; a settled one is left alone. */
    method Leave(s: nat, how: Settlement)
      requires Valid() && 1 <= s <= waiterSeq
      modifies this`served, this`taking, this`pumping, this`repump, this`timers, this`wakeToken, this`wakeHandle
      modifies this`pick, this`queue, this`settled, this`deadlines
      ensures Valid() && KeepsSettlements() && s in settled && (old(taking).Some? ==> taking == old(taking))
      ensures settled == if s in old(settled) then old(settled) else old(settled)[s := how]
      ensures s in old(deadlines) && s !in old(settled) ==> old(deadlines)[s] !in timers
    {
      if s in settled { return; }
      SettleSteady(s, how);
      Pump();
    }

    method SettleSteady(s: nat, how: Settlement)
      requires Steady() && 1 <= s <= waiterSeq && s !in settled
      modifies this`queue, this`settled, this`timers, this`deadlines
      ensures Steady() && settled == old(settled)[s := how] && timers == Cleared(old(timers), old(deadlines), s)
    {
      SettleWaiter(s, how);
    }

    method Abort(s: nat)
      requires Valid() && 1 <= s <= waiterSeq
      modifies this`served, this`taking, this`pumping, this`repump, this`timers, this`wakeToken, this`wakeHandle
      modifies this`pick, this`queue, this`settled, this`deadlines
      ensures Valid() && s in settled && settled ==
                (if s in old(settled) then old(settled) else old(settled)[s := Aborted])
      ensures old(taking).Some? ==> taking == old(taking)
    {
      Leave(s, Aborted);
    }

    /** The clock fires a timer it holds. */
    method Fire(h: nat)
      requires Valid() && h in timers
      modifies this`served, this`taking, this`pumping, this`repump, this`timers, this`wakeToken, this`wakeHandle
      modifies this`pick, this`queue, this`settled, this`deadlines
      ensures Valid() && KeepsSettlements() && h !in timers && (old(taking).Some? ==> taking == old(taking))
      ensures settled == if old(timers)[h].Expire? then
                old(settled)[old(timers)[h].waiter := TimedOut] else old(settled)
    {
      var cb := timers[h];
      if cb.Expire? {
        Leave(cb.waiter, TimedOut);
      } else {
        CancelWake();
        Pump();
      }
    }

    // ---- what every reachable state gives -----------------------------------------------------

    /** No lost wake-up: an idle loop with waiters has one live wake-up, and the clock holds no other. */
    lemma IdleHasOneWakeUp()
      requires Valid() && !pumping && queue != []
      ensures exists h :: h in timers && timers[h] ==
                Wake(wakeToken.value, timers[h].at) && forall k :: k in timers && timers[k].Wake? ==> k == h
    {
      assert wakeHandle.value in timers;
    }

    /** Every waiter ever queued either waits or has exactly one settlement. */
    lemma WaitsOrSettled(s: nat)
      requires Valid() && 1 <= s <= waiterSeq
      ensures Waits(queue, s) <==> s !in settled
    {
      assert s !in settled ==> Waits(queue, s);
    }

    /** The rounds of any interleaving obey round robin: between two grants to `a`, a requester that
        waits in the lane at the second one was granted too. */
    lemma RoundRobin(i: nat, j: nat, a: string, b: nat)
      requires Valid() && !weighted && i < j < Length(log)
      requires
        var rounds := Rounds(log);
        && rounds[i].best < |rounds[i].queue| && rounds[i].granted && Winner(rounds[i]).requester == a
        && rounds[j].best < |rounds[j].queue| && b < |rounds[j].queue| && rounds[j].queue[b].requester != a
        && LaneRank(Winner(rounds[j]).lane) == LaneRank(rounds[j].queue[b].lane)
        && forall k :: i < k < j && rounds[k].granted ==>
            rounds[k].best < |rounds[k].queue| && Winner(rounds[k]).requester != rounds[j].queue[b].requester
      ensures Winner(Rounds(log)[j]).requester != a
    {
      LogIsRun(weighted, log, End(log));
      RoundRobinBypass(States(log), Rounds(log), Looks(log), i, j, a, b);
    }

    /** And the weighted bound: a grant while another requester waited in the lane leaves its share at
        most one grant ahead. */
    lemma WeightedShare(i: nat, b: nat)
      requires Valid() && weighted && i < Length(log)
      requires
        var round := Rounds(log)[i];
        && round.best < |round.queue| && round.granted && b < |round.queue| &&
            round.queue[b].requester != Winner(round).requester
        && LaneRank(round.queue[b].lane) == LaneRank(Winner(round).lane)
      ensures
        var x, y, stats := Winner(Rounds(log)[i]), Rounds(log)[i].queue[b], States(log)[i + 1].served;
        && x.weight > 0.0 && y.weight > 0.0 && x.requester in stats && y.requester in stats
        && stats[x.requester].count as real / x.weight <= stats[y.requester].count as real / y.weight + 1.0 / x.weight
    {
      LogIsRun(weighted, log, End(log));
      WeightedBypass(States(log)[i], Rounds(log)[i], States(log)[i + 1], Looks(log)[i], b);
    }
  }
}
