/** The drain as a run of the delivery protocol: what a worker does to its group and to the record is a step
    of `Delivery`. */
module DrainModel {
  import opened Store
  import opened Pool
  import Delivery

  /** The steps a drain takes in the protocol of `Delivery`. */
  predicate OfDrain(step: Delivery.Step) {
    || step.LoadPending? || step.LoadHeld? || step.Start? || step.Finish? || step.Ack? || step.AckError?
    || step.Record? || step.Park? || step.DrainThrows?
  }

  predicate AllOfDrain(steps: seq<Delivery.Step>) {
    steps == [] || (AllOfDrain(steps[..|steps| - 1]) && OfDrain(steps[|steps| - 1]))
  }

  /** What is left of a worker's group, and how far its first row is. */
  function ViewOf(x: Worker): Delivery.Group
    requires Busy(x) && x.i <= |x.group.rows|
  {
    Delivery.Group(x.group.rows[x.i..],
                   match x
                   case Delivering(_, _) => Delivery.InFlight
                   case Acking(_, _) => Delivery.Finished(true)
                   case Failing(_, _) => Delivery.Finished(false)
                   case _ => Delivery.Ready)
  }

  predicate HasRow(x: Worker) { Busy(x) && x.i < |x.group.rows| }

  /** The protocol has every group that is queued or worked on, as far as it is. */
  ghost predicate Mirrors(groups: map<string, Delivery.Group>, queue: seq<Group>, workers: seq<Worker>) {
    && (forall w :: 0 <= w < |workers| && HasRow(workers[w]) ==>
          workers[w].group.key in groups && groups[workers[w].group.key] == ViewOf(workers[w]))
    && (forall i :: 0 <= i < |queue| ==>
          queue[i].key in groups && groups[queue[i].key] == Delivery.Group(queue[i].rows, Delivery.Ready))
  }

  /** Session `sid` of the protocol holds the same lease over the same record. */
  ghost predicate Holds(m: Delivery.Sys, sid: nat, lease: Lease, rec: KeyRecord) {
    Delivery.Has(m, sid) && m.leases[sid] == lease && m.rec == rec
  }

  ghost predicate AtRest(m: Delivery.Sys, sid: nat, lease: Lease, rec: KeyRecord) {
    Holds(m, sid, lease, rec) && m.sessions[sid].drain.Quiet?
  }

  ghost predicate InPass(m: Delivery.Sys, sid: nat, crew: nat, lease: Lease, rec: KeyRecord, queue: seq<Group>,
                         workers: seq<Worker>) {
    && Holds(m, sid, lease, rec) && m.sessions[sid].drain == Delivery.Draining(crew)
    && crew in m.crews && m.crews[crew].lease == lease && Mirrors(m.crews[crew].groups, queue, workers)
  }

  ghost predicate Ready(cfg: Delivery.Config, m: Delivery.Sys, sid: nat, crew: nat, lease: Lease, rec: KeyRecord,
                        queue: seq<Group>, workers: seq<Worker>) {
    InPass(m, sid, crew, lease, rec, queue, workers) && PoolOk(cfg, rec.outbox, queue, workers)
  }

  /** One worker goes from `x` to `x'`, and the record from `rec` to `rec'`, as the step of the protocol says. */
  ghost predicate Does(cfg: Delivery.Config, lease: Lease, rec: KeyRecord, x: Worker, rec': KeyRecord, x': Worker,
                       crew: nat, step: Delivery.Step) {
    HasRow(x) &&
    var g, i, row := x.group, x.i, x.group.rows[x.i];
    match step
    case Start(c, key) => c == crew && key == g.key && x.AtRow? && x' == Delivering(g, i) && rec' == rec
    case Finish(c, key, ok) =>
      c == crew && key == g.key && x.Delivering? && x' == (if ok then Acking(g, i) else Failing(g, i)) && rec' == rec
    case AckError(c, key) => c == crew && key == g.key && x.Acking? && x' == Failing(g, i) && rec' == rec
    case Ack(c, key) =>
      && c == crew && key == g.key && x.Acking? && x' == AtRow(g, i + 1)
      && Fenced(rec, lease) && rec' == AckEvents(rec, [row.eventId])
    case Record(c, key, error, at) =>
      && c == crew && key == g.key && x.Failing? && x' == Fetching && row.attempts + 1 < cfg.maxAttempts
      && Fenced(rec, lease) && rec' == RecordAttempt(rec, row.eventId, Some(error), Some(at))
    case Park(c, key, now) =>
      && c == crew && key == g.key && x.Failing? && row.attempts + 1 >= cfg.maxAttempts
      && (Busy(x') ==> x' == AtRow(g, i + 1) && !cfg.holdKey)
      && Fenced(rec, lease) && rec' == ParkEvent(rec, Delivery.ParkedOf(cfg, row, now))
    case _ => false
  }

  /** The step of the protocol changes one group and perhaps the record. */
  ghost predicate Changes(m: Delivery.Sys, m': Delivery.Sys, crew: nat, key: string, g: Delivery.Group,
                          rec': KeyRecord) {
    && m'.rec == rec' && m'.leases == m.leases && m'.sessions == m.sessions && crew in m.crews && crew in m'.crews
    && m'.crews[crew] == m.crews[crew].(groups := Delivery.WithGroup(m.crews[crew].groups, key, g))
  }

  lemma QuietStep(cfg: Delivery.Config, m: Delivery.Sys, sid: nat, crew: nat, lease: Lease, rec: KeyRecord, x: Worker,
                  x': Worker, step: Delivery.Step)
    requires Holds(m, sid, lease, rec) && crew in m.crews && m.crews[crew].lease == lease
    requires HasRow(x) && x.group.key in m.crews[crew].groups && m.crews[crew].groups[x.group.key] == ViewOf(x)
    requires Does(cfg, lease, rec, x, rec, x', crew, step) && (step.Start? || step.Finish? || step.AckError?)
    ensures Changes(m, Delivery.Apply(cfg, m, step), crew, x.group.key, ViewOf(x'), rec)
  {
  }

  lemma AckModelled(cfg: Delivery.Config, m: Delivery.Sys, sid: nat, crew: nat, lease: Lease, rec: KeyRecord, x: Worker,
                    x': Worker, rec': KeyRecord, step: Delivery.Step)
    requires Holds(m, sid, lease, rec) && crew in m.crews && m.crews[crew].lease == lease
    requires HasRow(x) && x.group.key in m.crews[crew].groups && m.crews[crew].groups[x.group.key] == ViewOf(x)
    requires Does(cfg, lease, rec, x, rec', x', crew, step) && step.Ack?
    ensures Changes(m, Delivery.Apply(cfg, m, step), crew, x.group.key, ViewOf(x'), rec')
  {
    assert x.group.rows[x.i..][1..] == x.group.rows[x.i + 1..];
  }

  lemma FailModelled(cfg: Delivery.Config, m: Delivery.Sys, sid: nat, crew: nat, lease: Lease, rec: KeyRecord,
                     x: Worker, x': Worker, rec': KeyRecord, step: Delivery.Step)
    requires Holds(m, sid, lease, rec) && crew in m.crews && m.crews[crew].lease == lease
    requires HasRow(x) && x.group.key in m.crews[crew].groups && m.crews[crew].groups[x.group.key] == ViewOf(x)
    requires Does(cfg, lease, rec, x, rec', x', crew, step) && (step.Record? || step.Park?)
    ensures exists g :: Changes(m, Delivery.Apply(cfg, m, step), crew, x.group.key, g, rec') && (Busy(x') ==>
                          g == ViewOf(x'))
  {
    assert x.group.rows[x.i..][1..] == x.group.rows[x.i + 1..];
    var g := Delivery.Group(if step.Record? || cfg.holdKey then [] else x.group.rows[x.i + 1..], Delivery.Ready);
    assert Changes(m, Delivery.Apply(cfg, m, step), crew, x.group.key, g, rec');
  }

  /** The protocol takes the step the worker took. */
  lemma Simulates(cfg: Delivery.Config, m: Delivery.Sys, sid: nat, crew: nat, lease: Lease, rec: KeyRecord,
                  queue: seq<Group>, workers: seq<Worker>, w: nat, rec': KeyRecord, x': Worker, step: Delivery.Step)
    requires InPass(m, sid, crew, lease, rec, queue, workers) && w < |workers|
    requires PoolOk(cfg, rec.outbox, queue, workers) && Does(cfg, lease, rec, workers[w], rec', x', crew, step)
    ensures InPass(Delivery.Apply(cfg, m, step), sid, crew, lease, rec', queue, workers[w := x'])
    ensures OfDrain(step)
  {
    var x := workers[w];
    if step.Ack? {
      AckModelled(cfg, m, sid, crew, lease, rec, x, x', rec', step);
      Replaced(cfg, rec.outbox, m.crews[crew].groups, queue, workers, w, x', ViewOf(x'));
    } else if step.Record? || step.Park? {
      FailModelled(cfg, m, sid, crew, lease, rec, x, x', rec', step);
      var g :| Changes(m, Delivery.Apply(cfg, m, step), crew, x.group.key, g, rec') && (Busy(x') ==> g == ViewOf(x'));
      Replaced(cfg, rec.outbox, m.crews[crew].groups, queue, workers, w, x', g);
    } else {
      QuietStep(cfg, m, sid, crew, lease, rec, x, x', step);
      Replaced(cfg, rec.outbox, m.crews[crew].groups, queue, workers, w, x', ViewOf(x'));
    }
  }

  lemma Replaced(cfg: Delivery.Config, outbox: map<string, OutboxRow>, groups: map<string, Delivery.Group>,
                 queue: seq<Group>, workers: seq<Worker>, w: nat, x': Worker, g: Delivery.Group)
    requires PoolOk(cfg, outbox, queue, workers) && w < |workers| && HasRow(workers[w])
    requires Mirrors(groups, queue, workers)
    requires Busy(x') ==> x'.group == workers[w].group && x'.i <= |x'.group.rows| && g == ViewOf(x')
    ensures Mirrors(Delivery.WithGroup(groups, workers[w].group.key, g), queue, workers[w := x'])
  {
  }

  /** A worker that lets go of its group, or takes a new one, is no step of the protocol. */
  lemma LetsGo(groups: map<string, Delivery.Group>, queue: seq<Group>, workers: seq<Worker>, w: nat, x': Worker)
    requires Mirrors(groups, queue, workers) && w < |workers| && !Busy(x')
    ensures Mirrors(groups, queue, workers[w := x'])
  {
  }

  lemma Takes(groups: map<string, Delivery.Group>, queue: seq<Group>, workers: seq<Worker>, w: nat)
    requires Mirrors(groups, queue, workers) && w < |workers| && queue != []
    ensures Mirrors(groups, queue[1..], workers[w := AtRow(queue[0], 0)])
  {
    assert queue[0].rows[0..] == queue[0].rows;
  }

  lemma FreshCrew<T>(m: map<nat, T>) returns (c: nat)
    ensures c !in m
  {
    c := AboveAll(m.Keys);
  }

  lemma {:induction false} AboveAll(s: set<nat>) returns (c: nat)
    ensures forall x :: x in s ==> x < c
    decreases |s|
  {
    c := 0;
    if s != {} {
      var x :| x in s;
      var d := AboveAll(s - {x});
      c := if d > x then d else x + 1;
      forall y | y in s ensures y < c { assert y == x || y in s - {x}; }
    }
  }

  /** Reading the pending rows and then the held keys starts a pass over the groups of keys not held. */
  lemma Loads(cfg: Delivery.Config, m: Delivery.Sys, sid: nat, crew: nat, lease: Lease, rec: KeyRecord, limit: nat,
              rows: seq<OutboxRow>, groups: seq<Group>, workers: seq<Worker>)
    requires AtRest(m, sid, lease, rec) && crew !in m.crews && IsPendingPrefix(rec.outbox, limit, rows)
    requires forall g :: g in groups ==>
               g.rows == Delivery.RowsOf(cfg, rows, g.key) && g.rows != [] && g.key !in HeldKeys(rec)
    requires forall w :: 0 <= w < |workers| ==> workers[w].Fetching?
    ensures
      var m' := Delivery.Apply(cfg, Delivery.Apply(cfg, m, Delivery.LoadPending(sid, limit, rows)),
                               Delivery.LoadHeld(sid, crew));
      InPass(m', sid, crew, lease, rec, groups, workers)
  {
    var m1 := Delivery.Apply(cfg, m, Delivery.LoadPending(sid, limit, rows));
    assert m1 == Delivery.Put(m, sid, m.sessions[sid].(drain := Delivery.Loading(rows)));
    forall i | 0 <= i < |groups| ensures groups[i].key in (set r | r in rows :: cfg.key(r.event)) {
      assert groups[i] in groups;
      if forall r :: r in rows ==> cfg.key(r.event) != groups[i].key { RowsOfAbsent(cfg, rows, groups[i].key); }
    }
  }

  /** At the end of a pass whatever groups are left are dropped. */
  lemma PassEnds(cfg: Delivery.Config, m: Delivery.Sys, sid: nat, crew: nat, lease: Lease, rec: KeyRecord,
                 queue: seq<Group>, workers: seq<Worker>)
    requires InPass(m, sid, crew, lease, rec, queue, workers)
    ensures AtRest(Delivery.Apply(cfg, m, Delivery.DrainThrows(sid, {})), sid, lease, rec)
  {
  }

  lemma RunSnoc(cfg: Delivery.Config, s: Delivery.Sys, steps: seq<Delivery.Step>, step: Delivery.Step)
    ensures Delivery.Run(cfg, s, steps + [step]) == Delivery.Apply(cfg, Delivery.Run(cfg, s, steps), step)
    ensures AllOfDrain(steps + [step]) <==> AllOfDrain(steps) && OfDrain(step)
  {
    assert (steps + [step])[..|steps|] == steps;
  }
}
