/** Draining the outbox: rows grouped by ordering key, a bounded pool of workers that interleave at
    every await, a load window that widens past blocked keys, and retry, park or halt on failure.
    While the drain runs nobody else writes the outbox. */
module Dispatcher {
  import opened Store
  import opened Pool
  import opened DrainModel
  import Delivery
  import Memory = MemoryStore

  /** One call of `drainOutbox`. `done` collects the ids the consumer completed and the store acked. */
  class Drain {
    const opts: Options
    const store: Memory.MemoryStore
    const key: Memory.PKey
    const lease: Lease
    ghost const before: KeyRecord
    ghost const others: map<Memory.PKey, KeyRecord>
    var queue: seq<Group>
    var workers: seq<Worker>
    var blocked: set<string>
    var progress: nat
    var result: DrainResult
    var done: set<string>
    var aborted: bool
    /** The drain threw: the lease was lost or the store failed. */
    var threw: bool
    // The same drain in the protocol of `Delivery`: as session `sid`, from `start`, by `steps`, to `model`.
    ghost const sid: nat
    ghost const start: Delivery.Sys
    ghost var steps: seq<Delivery.Step>
    ghost var model: Delivery.Sys
    ghost var crew: nat
    /** The rows loaded last, and the record they were loaded from. */
    ghost var loaded: seq<OutboxRow>
    ghost var at: KeyRecord

    constructor (opts: Options, store: Memory.MemoryStore, key: Memory.PKey, lease: Lease, ghost sid: nat,
                 ghost start: Delivery.Sys)
      requires store.Valid() && OutboxKeyed(store.Rec(key).outbox) && AtRest(start, sid, lease, store.Rec(key))
      ensures Valid() && this.opts == opts && this.store == store && this.key == key && this.lease == lease
      ensures Models() && Resting() && this.sid == sid && this.start == start
      ensures before == store.Rec(key) && others == store.records - {key}
      ensures !threw && result == DrainResult(0, 0, 0, None, false, 0) && done == {} && queue == [] && workers == []
    {
      this.opts, this.store, this.key, this.lease := opts, store, key, lease;
      this.before, this.others := store.Rec(key), store.records - {key};
      queue, workers, blocked, progress, done := [], [], {}, 0, {};
      result := DrainResult(0, 0, 0, None, false, 0);
      aborted, threw := false, false;
      this.sid, this.start, steps, model, crew := sid, start, [], start, 0;
      loaded, at := [], store.Rec(key);
    }

    ghost predicate Models()
      reads this`model, this`steps
    {
      model == Delivery.Run(opts.order, start, steps) && AllOfDrain(steps)
    }

    ghost predicate Resting()
      reads this`model, store
    {
      AtRest(model, sid, lease, store.Rec(key))
    }

    ghost predicate Working()
      reads this`model, this`crew, this`queue, this`workers, store
    {
      InPass(model, sid, crew, lease, store.Rec(key), queue, workers)
    }

    /** Between two passes. */
    ghost predicate Idle()
      reads this, store
    {
      Valid() && queue == [] && workers == [] && Models() && Resting()
    }

    /** In a pass. */
    ghost predicate Active()
      reads this, store
    {
      Valid() && Models() && Working()
    }

    ghost method Take(step: Delivery.Step)
      requires Models() && OfDrain(step)
      modifies this`model, this`steps
      ensures Models() && model == Delivery.Apply(opts.order, old(model), step)
    {
      RunSnoc(opts.order, start, steps, step);
      model, steps := Delivery.Apply(opts.order, model, step), steps + [step];
    }

    /** The books are right and at most `concurrency` keys are worked on, none of them twice. */
    ghost predicate Valid()
      reads this`queue, this`workers, this`result, this`done, store
    {
      && store.Valid() && PoolOk(opts.order, store.Rec(key).outbox, queue, workers) && |workers| <= opts.concurrency
      && Books(before, store.Rec(key), result.delivered, result.parked, done) && store.records - {key} == others
    }

    /** What one step of one worker does: less work is left, and the counters move together. */
    twostate predicate Stepped()
      reads this`queue, this`workers, this`result, this`progress
    {
      && Weight(queue, workers) < old(Weight(queue, workers)) && old(progress) <= progress
      && result.delivered + result.parked + old(progress) == old(result.delivered) + old(result.parked) + progress
    }

    /** The accounts of the pass are settled: it was told to stop, or something was delivered or parked. */
    predicate Over()
      reads this`aborted, this`result, this`progress
    {
      aborted || result.halted || progress > 0
    }

    twostate predicate Turned(w: nat)
      reads this`queue, this`workers, this`blocked, this`aborted, this`result, this`progress
    {
      Over() || (!old(result.halted) && Turns(old(queue), old(workers), old(blocked), w, queue, workers, blocked))
    }

    method Move(w: nat, x: Worker)
      requires Valid() && w < |workers| && WorkerWeight(x) < WorkerWeight(workers[w])
      requires Busy(x) ==>
                 Busy(workers[w]) && x.group == workers[w].group && x.i == workers[w].i && x.i < |x.group.rows|
      modifies this`workers
      ensures Valid() && Stepped() && workers == old(workers)[w := x]
    {
      Moved(opts.order, store.Rec(key).outbox, queue, workers, w, x);
      Lighter(queue, workers, w, x);
      workers := workers[w := x];
    }

    /** Take the next group, or return. */
    method Fetch(w: nat)
      requires Valid() && !threw && w < |workers| && workers[w].Fetching?
      modifies this`workers, this`queue
      ensures Valid() && Stepped()
      ensures if old(queue) == [] || aborted || result.halted then
          queue == old(queue) && workers == old(workers)[w := Returned]
            else queue == old(queue)[1..] && workers == old(workers)[w := AtRow(old(queue)[0], 0)]
    {
      if queue == [] || aborted || result.halted {
        Move(w, Returned);
      } else {
        Fetched(opts.order, store.Rec(key).outbox, queue, workers, w);
        LighterQueue(queue, workers, w);
        workers, queue := workers[w := AtRow(queue[0], 0)], queue[1..];
      }
    }

    /** Look at the next row: due now, or blocked until its retry time. */
    method Row(w: nat, now: int)
      requires Valid() && !threw && w < |workers| && workers[w].AtRow?
      modifies this`workers, this`blocked, this`result
      ensures Valid() && Stepped()
      ensures
        var g, i := old(workers)[w].group, old(workers)[w].i;
        var waits := i < |g.rows| && !aborted && !old(result).halted && g.rows[i].nextAttemptAt.Some? &&
                     now < g.rows[i].nextAttemptAt.value;
        && workers == old(workers)[
             w := if i == |g.rows| || waits then Fetching
                  else if aborted || old(result).halted then Returned
                  else Delivering(g, i)]
        && blocked == (if waits then old(blocked) + {g.key} else old(blocked))
        && result == if waits then old(result).(nextRetryAt := EarliestRetry(old(result).nextRetryAt,
                                                                             g.rows[i].nextAttemptAt.value))
                     else old(result)
    {
      var g, i := workers[w].group, workers[w].i;
      if i == |g.rows| {
        Move(w, Fetching);
      } else if aborted || result.halted {
        Move(w, Returned);
      } else if NotDue(g.rows[i], now) {
        Move(w, Fetching);
        result := WithRetry(result, 0, g.rows[i].nextAttemptAt.value);
        blocked := blocked + {g.key};
      } else {
        Move(w, Delivering(g, i));
      }
    }

    /** The consumer completes or throws. */
    method Deliver(w: nat, ok: bool)
      requires Valid() && !threw && w < |workers| && workers[w].Delivering?
      modifies this`workers
      ensures Valid() && Stepped()
      ensures workers ==
          old(workers)[w := if ok then Acking(old(workers)[w].group,
                                              old(workers)[w].i) else Failing(old(workers)[w].group, old(workers)[w].i)]
    {
      Move(w, if ok then Acking(workers[w].group, workers[w].i) else Failing(workers[w].group, workers[w].i));
    }

    // The three fenced calls. A refused one means that the lease is lost; park and record may also fail for
    // another reason, with or without effect. Either way the drain throws and promises nothing.

    method TryAck(id: string) returns (ok: bool)
      requires store.Valid()
      modifies store
      ensures ok ==> Fenced(old(store.Rec(key)), lease)
      ensures ok ==>
          store.Valid() && store.Rec(key) == AckEvents(old(store.Rec(key)),
                                                       [id]) && store.records - {key} == old(store.records - {key})
    {
      OthersKept(store.records, key, AckEvents(store.Rec(key), [id]));
      ok := store.AckEvents(key, lease, [id]);
    }

    method TryPark(row: ParkedRow, w: nat, next: Worker) returns (ok: bool)
      requires Valid() && w < |workers| && workers[w].Failing?
      requires row.id == RowAt(workers[w]).eventId && row.event == Some(RowAt(workers[w]).event)
      requires next.Returned? || next.Fetching? || next == AtRow(workers[w].group, workers[w].i + 1)
      modifies store
      ensures ok ==> Fenced(old(store.Rec(key)), lease)
      ensures ok ==>
          store.Valid() && store.Rec(key) == ParkEvent(old(store.Rec(key)), row) && store.records - {key} == others
      ensures ok ==> Books(before, store.Rec(key), result.delivered, result.parked + 1, done)
      ensures ok ==>
          PoolOk(opts.order, store.Rec(key).outbox, queue, workers[w := next]) && Weight(queue,
              workers[w := next]) < Weight(queue, workers)
    {
      ParkStep(opts.order, before, store.Rec(key), result.delivered, result.parked, done, queue, workers, w, row, next);
      OthersKept(store.records, key, ParkEvent(store.Rec(key), row));
      ok := store.ParkEvent(key, lease, row);
    }

    method TryRecord(w: nat, error: string, at: int) returns (ok: bool)
      requires Valid() && w < |workers| && workers[w].Failing?
      modifies store
      ensures ok ==> Fenced(old(store.Rec(key)), lease)
      ensures ok ==> store.Valid() && store.records - {key} == others
      ensures ok ==>
                store.Rec(key) == RecordAttempt(old(store.Rec(key)), RowAt(workers[w]).eventId, Some(error), Some(at))
      ensures ok ==> Books(before, store.Rec(key), result.delivered, result.parked, done)
      ensures ok ==>
          PoolOk(opts.order, store.Rec(key).outbox, queue, workers[w := Fetching]) && Weight(queue,
              workers[w := Fetching]) < Weight(queue, workers)
    {
      var id := RowAt(workers[w]).eventId;
      RecordStep(opts.order, before, store.Rec(key), result.delivered, result.parked, done, queue, workers, w,
                 Some(error), Some(at));
      OthersKept(store.records, key, RecordAttempt(store.Rec(key), id, Some(error), Some(at)));
      ok := store.RecordAttempt(key, lease, id, Some(error), Some(at));
    }

    /** Ack the delivered row. */
    method Ack(w: nat)
      requires Valid() && !threw && w < |workers| && workers[w].Acking?
      modifies this`workers, this`result, this`progress, this`done, this`threw, store
      ensures !threw ==> Valid()
      ensures !threw ==> Stepped()
      ensures !threw ==>
          && progress == old(progress) + 1 && done == old(done) + {RowAt(old(workers)[w]).eventId}
          && result == old(result).(delivered := old(result).delivered + 1)
      ensures !threw ==> Fenced(old(store.Rec(key)), lease)
      ensures !threw ==> store.Rec(key) == AckEvents(old(store.Rec(key)), [RowAt(old(workers)[w]).eventId])
      ensures !threw ==> workers == old(workers)[w := AtRow(old(workers)[w].group, old(workers)[w].i + 1)]
    {
      var g, i := workers[w].group, workers[w].i;
      AckStep(opts.order, before, store.Rec(key), result.delivered, result.parked, done, queue, workers, w);
      var ok := TryAck(g.rows[i].eventId);
      if !ok {
        threw := true;
        return;
      }
      workers := workers[w := AtRow(g, i + 1)];
      result := result.(delivered := result.delivered + 1);
      progress, done := progress + 1, done + {g.rows[i].eventId};
    }

    /** The ack failed for another reason than the lease, without effect: treated like a failed delivery. */
    method AckError(w: nat)
      requires Valid() && !threw && w < |workers| && workers[w].Acking?
      modifies this`workers
      ensures Valid() && Stepped() && workers == old(workers)[w := Failing(old(workers)[w].group, old(workers)[w].i)]
    {
      Move(w, Failing(workers[w].group, workers[w].i));
    }

    /** Out of attempts: park the event, then halt, hold the key or go on. */
    method Park(w: nat, now: int)
      requires Valid() && !threw && w < |workers| && workers[w].Failing?
      requires RowAt(workers[w]).attempts + 1 >= opts.order.maxAttempts
      modifies this`workers, this`result, this`progress, this`blocked, this`threw, store
      ensures !threw ==> Valid()
      ensures !threw ==> Stepped()
      ensures !threw ==> Fenced(old(store.Rec(key)), lease)
      ensures !threw ==> ParkedAs(opts.order, old(store.Rec(key)), store.Rec(key), RowAt(old(workers)[w]),
                                  old(workers)[w].group.key, now)
      ensures !threw ==> progress == old(progress) + 1
      ensures !threw ==>
                result == old(result).(parked := old(result).parked + 1, halted := old(result).halted || opts.halt)
      ensures !threw ==>
                workers == old(workers)[
                  w := if opts.halt then Returned else if opts.order.holdKey then Fetching
                       else AtRow(old(workers)[w].group, old(workers)[w].i + 1)]
      ensures !threw ==>
          blocked == if !opts.halt && opts.order.holdKey then old(blocked) + {old(workers)[w].group.key}
            else old(blocked)
    {
      var g, i := workers[w].group, workers[w].i;
      ParkRow(w, now, if opts.halt then Returned else if opts.order.holdKey then Fetching else AtRow(g, i + 1));
      if !threw && !opts.halt && opts.order.holdKey { blocked := blocked + {g.key}; }
    }

    method ParkRow(w: nat, now: int, next: Worker)
      requires Valid() && !threw && w < |workers| && workers[w].Failing?
      requires next.Returned? || next.Fetching? || next == AtRow(workers[w].group, workers[w].i + 1)
      modifies this`workers, this`result, this`progress, this`threw, store
      ensures !threw ==> Valid()
      ensures !threw ==> Stepped()
      ensures !threw ==> Fenced(old(store.Rec(key)), lease)
      ensures !threw ==> ParkedAs(opts.order, old(store.Rec(key)), store.Rec(key), RowAt(old(workers)[w]),
                                  old(workers)[w].group.key, now)
      ensures !threw ==> workers == old(workers)[w := next]
      ensures !threw ==> progress == old(progress) + 1
      ensures !threw ==>
                result == old(result).(parked := old(result).parked + 1, halted := old(result).halted || opts.halt)
    {
      var g, row := workers[w].group, RowAt(workers[w]);
      var parked := ParkedRow(row.eventId, Poison, Some(row.event), row.attempts + 1, now,
                              if opts.order.holdKey then Some(g.key) else None);
      ParkedHolds(opts.order, store.Rec(key), queue, workers, w, parked, now);
      ParkAs(w, parked, next);
    }

    method ParkAs(w: nat, row: ParkedRow, next: Worker)
      requires Valid() && !threw && w < |workers| && workers[w].Failing?
      requires row.id == RowAt(workers[w]).eventId && row.event == Some(RowAt(workers[w]).event)
      requires next.Returned? || next.Fetching? || next == AtRow(workers[w].group, workers[w].i + 1)
      modifies this`workers, this`result, this`progress, this`threw, store
      ensures !threw ==> Valid()
      ensures !threw ==> Stepped()
      ensures !threw ==> Fenced(old(store.Rec(key)), lease)
      ensures !threw ==> store.Rec(key) == ParkEvent(old(store.Rec(key)), row) && workers == old(workers)[w := next]
      ensures !threw ==> progress == old(progress) + 1
      ensures !threw ==>
                result == old(result).(parked := old(result).parked + 1, halted := old(result).halted || opts.halt)
    {
      var ok := TryPark(row, w, next);
      var error: bool := *;
      if !ok || error {
        threw := true;
        return;
      }
      workers, progress := workers[w := next], progress + 1;
      result := result.(parked := result.parked + 1, halted := result.halted || opts.halt);
    }

    /** Attempts left: schedule the retry and leave the key. */
    method Reschedule(w: nat, error: string, at: int)
      requires Valid() && !threw && w < |workers| && workers[w].Failing?
      requires RowAt(workers[w]).attempts + 1 < opts.order.maxAttempts
      modifies this`workers, this`result, this`blocked, this`threw, store
      ensures !threw ==> Valid()
      ensures !threw ==> Stepped()
      ensures !threw ==> Fenced(old(store.Rec(key)), lease)
      ensures !threw ==>
          store.Rec(key) == RecordAttempt(old(store.Rec(key)), RowAt(old(workers)[w]).eventId, Some(error), Some(at))
      ensures !threw ==> workers == old(workers)[w := Fetching] && blocked == old(blocked) + {old(workers)[w].group.key}
      ensures !threw ==> result == old(result).(failed := old(result).failed + 1,
                                                nextRetryAt := EarliestRetry(old(result).nextRetryAt, at))
    {
      var k, after := workers[w].group.key, WithRetry(result, 1, at);
      RecordAs(w, error, at);
      if !threw { blocked, result := blocked + {k}, after; }
    }

    method RecordAs(w: nat, error: string, at: int)
      requires Valid() && !threw && w < |workers| && workers[w].Failing?
      modifies this`workers, this`threw, store
      ensures !threw ==> Valid()
      ensures !threw ==> Stepped()
      ensures !threw ==> Fenced(old(store.Rec(key)), lease) && workers == old(workers)[w := Fetching]
      ensures !threw ==>
          store.Rec(key) == RecordAttempt(old(store.Rec(key)), RowAt(old(workers)[w]).eventId, Some(error), Some(at))
    {
      var ok := TryRecord(w, error, at);
      var failed: bool := *;
      if !ok || failed {
        threw := true;
        return;
      }
      workers := workers[w := Fetching];
    }

    // Each await of a worker, together with the step the protocol takes.

    ghost method Follow(was: seq<Worker>, w: nat, rec: KeyRecord, step: Delivery.Step)
      requires Valid() && Models() && Ready(opts.order, model, sid, crew, lease, rec, queue, was)
      requires w < |was| == |workers| && workers == was[w := workers[w]]
      requires Does(opts.order, lease, rec, was[w], store.Rec(key), workers[w], crew, step)
      modifies this`model, this`steps
      ensures Active()
    {
      Simulates(opts.order, model, sid, crew, lease, rec, queue, was, w, store.Rec(key), workers[w], step);
      Take(step);
    }

    method StepFetching(w: nat)
      requires Active() && !threw && w < |workers| && workers[w].Fetching?
      modifies this`workers, this`queue
      ensures Active() && Stepped() && Turned(w)
    {
      LetsGo(model.crews[crew].groups, queue, workers, w, Returned);
      if queue != [] { Takes(model.crews[crew].groups, queue, workers, w); }
      Fetch(w);
    }

    method StepRow(w: nat, now: int)
      requires Active() && !threw && w < |workers| && workers[w].AtRow?
      modifies this`workers, this`blocked, this`result, this`model, this`steps
      ensures Active() && Stepped() && Turned(w)
    {
      ghost var x, was := workers[w], workers;
      assert Ready(opts.order, model, sid, crew, lease, store.Rec(key), queue, was);
      LetsGo(model.crews[crew].groups, queue, workers, w, Returned);
      LetsGo(model.crews[crew].groups, queue, workers, w, Fetching);
      DropsGroup(queue, workers, blocked, w);
      KeepsGroup(queue, workers, blocked, w, Delivering(x.group, x.i));
      Row(w, now);
      if workers[w].Delivering? { Follow(was, w, store.Rec(key), Delivery.Start(crew, x.group.key)); }
    }

    method StepDelivering(w: nat, ok: bool)
      requires Active() && !threw && w < |workers| && workers[w].Delivering?
      modifies this`workers, this`model, this`steps
      ensures Active() && Stepped() && Turned(w)
    {
      ghost var x, was := workers[w], workers;
      assert Ready(opts.order, model, sid, crew, lease, store.Rec(key), queue, was);
      KeepsGroup(queue, workers, blocked, w, if ok then Acking(x.group, x.i) else Failing(x.group, x.i));
      Deliver(w, ok);
      Follow(was, w, store.Rec(key), Delivery.Finish(crew, x.group.key, ok));
    }

    method StepAck(w: nat)
      requires Active() && !threw && w < |workers| && workers[w].Acking?
      modifies this`workers, this`result, this`progress, this`done, this`threw, this`model, this`steps, store
      ensures !threw ==> Active()
      ensures !threw ==> Stepped()
      ensures !threw ==> Turned(w)
    {
      ghost var x, was, rec := workers[w], workers, store.Rec(key);
      assert Ready(opts.order, model, sid, crew, lease, rec, queue, was);
      Ack(w);
      if !threw { Follow(was, w, rec, Delivery.Ack(crew, x.group.key)); }
    }

    method StepAckError(w: nat)
      requires Active() && !threw && w < |workers| && workers[w].Acking?
      modifies this`workers, this`model, this`steps
      ensures Active() && Stepped() && Turned(w)
    {
      ghost var x, was := workers[w], workers;
      assert Ready(opts.order, model, sid, crew, lease, store.Rec(key), queue, was);
      KeepsGroup(queue, workers, blocked, w, Failing(x.group, x.i));
      AckError(w);
      Follow(was, w, store.Rec(key), Delivery.AckError(crew, x.group.key));
    }

    ghost method FollowPark(was: seq<Worker>, w: nat, rec: KeyRecord, now: int)
      requires Valid() && Models() && Ready(opts.order, model, sid, crew, lease, rec, queue, was)
      requires w < |was| == |workers| && workers == was[w := workers[w]] && was[w].Failing? && HasRow(was[w])
      requires RowAt(was[w]).attempts + 1 >= opts.order.maxAttempts
      requires Fenced(rec, lease) && ParkedAs(opts.order, rec, store.Rec(key), RowAt(was[w]), was[w].group.key, now)
      requires Busy(workers[w]) ==> workers[w] == AtRow(was[w].group, was[w].i + 1) && !opts.order.holdKey
      modifies this`model, this`steps
      ensures Active()
    {
      Follow(was, w, rec, Delivery.Park(crew, was[w].group.key, now));
    }

    method StepPark(w: nat, now: int)
      requires Active() && !threw && w < |workers| && workers[w].Failing?
      requires RowAt(workers[w]).attempts + 1 >= opts.order.maxAttempts
      modifies this`workers, this`result, this`progress, this`blocked, this`threw, this`model, this`steps, store
      ensures !threw ==> Active()
      ensures !threw ==> Stepped()
      ensures !threw ==> Turned(w)
    {
      ghost var x, was, rec := workers[w], workers, store.Rec(key);
      Park(w, now);
      if !threw { FollowPark(was, w, rec, now); }
    }

    ghost method FollowRecord(was: seq<Worker>, w: nat, rec: KeyRecord, error: string, at: int)
      requires Valid() && Models() && Ready(opts.order, model, sid, crew, lease, rec, queue, was)
      requires w < |was| && workers == was[w := Fetching] && was[w].Failing? && HasRow(was[w])
      requires RowAt(was[w]).attempts + 1 < opts.order.maxAttempts && Fenced(rec, lease)
      requires store.Rec(key) == RecordAttempt(rec, RowAt(was[w]).eventId, Some(error), Some(at))
      modifies this`model, this`steps
      ensures Active()
    {
      Follow(was, w, rec, Delivery.Record(crew, was[w].group.key, error, at));
    }

    method StepReschedule(w: nat, error: string, at: int)
      requires Active() && !threw && w < |workers| && workers[w].Failing?
      requires RowAt(workers[w]).attempts + 1 < opts.order.maxAttempts
      modifies this`workers, this`result, this`blocked, this`threw, this`model, this`steps, store
      ensures !threw ==> Active()
      ensures !threw ==> Stepped()
      ensures !threw ==> Turned(w)
    {
      ghost var x, was, rec := workers[w], workers, store.Rec(key);
      DropsGroup(queue, workers, blocked, w);
      Reschedule(w, error, at);
      assert !threw ==> Turned(w);
      if !threw { FollowRecord(was, w, rec, error, at); }
    }

    /** One worker moves to its next await; the clock and the consumer's answer may be anything. */
    method Step(w: nat)
      requires Active() && !threw && w < |workers| && !workers[w].Returned?
      modifies this`queue, this`workers, this`blocked, this`result, this`progress, this`done, this`threw, this`model,
               this`steps, store
      ensures !threw ==> Active()
      ensures !threw ==> Stepped()
      ensures !threw ==> Turned(w)
    {
      var now: int, choice: bool, error: string := *, *, *;
      match workers[w] {
        case Fetching => StepFetching(w);
        case AtRow(_, _) => StepRow(w, now);
        case Delivering(_, _) => StepDelivering(w, choice);
        case Acking(_, _) => if choice { StepAck(w); } else { StepAckError(w); }
        case Failing(g, i) =>
          if g.rows[i].attempts + 1 >= opts.order.maxAttempts { StepPark(w, now); }
          else { StepReschedule(w, error, now); }
      }
    }

    /** Run the pool until every worker has returned, in any interleaving. Unless something was delivered or parked
        or the pass was told to stop, every key of the pass is blocked then. */
    method RunPool(ghost todo: set<string>)
      requires Active() && !threw && Accounts(todo, blocked, queue, workers, false)
      modifies this`queue, this`workers, this`blocked, this`result, this`progress, this`done, this`threw, this`model,
               this`steps, this`aborted, store
      ensures !threw ==> Active() && old(progress) <= progress
      ensures !threw ==> forall w :: 0 <= w < |workers| ==> workers[w].Returned?
      ensures !threw ==> Over() || (todo <= blocked && old(blocked) <= blocked)
      ensures !threw ==>
          result.delivered + result.parked + old(progress) == old(result.delivered) + old(result.parked) + progress
    {
      while !threw && exists w :: 0 <= w < |workers| && !workers[w].Returned?
        invariant !threw ==> Active() && old(progress) <= progress
        invariant !threw ==> Accounts(todo, blocked, queue, workers, Over()) && (Over() || old(blocked) <= blocked)
        invariant !threw ==>
            result.delivered + result.parked + old(progress) == old(result.delivered) + old(result.parked) + progress
        decreases !threw, Weight(queue, workers)
      {
        var w :| 0 <= w < |workers| && !workers[w].Returned?;
        if * { aborted := true; }
        StepAccounted(w, todo);
      }
      if !threw && !Over() { AllBlocked(todo, blocked, queue, workers); }
    }

    method StepAccounted(w: nat, ghost todo: set<string>)
      requires Active() && !threw && w < |workers| && !workers[w].Returned?
      requires Accounts(todo, blocked, queue, workers, Over())
      modifies this`queue, this`workers, this`blocked, this`result, this`progress, this`done, this`threw, this`model,
               this`steps, store
      ensures !threw ==> Active()
      ensures !threw ==> Stepped()
      ensures !threw ==> Accounts(todo, blocked, queue, workers, Over()) && (Over() || old(blocked) <= blocked)
      ensures !threw && old(Over()) ==> Over()
    {
      ghost var q, ws, had := queue, workers, blocked;
      Step(w);
      if !threw && !Over() { AccountsTurn(todo, q, ws, had, w, queue, workers, blocked); }
    }

    /** Queue the groups and give every worker its first step. */
    method Begin(groups: seq<Group>)
      requires Valid() && DistinctKeys(groups)
      requires forall i :: 0 <= i < |groups| ==> RowsLive(opts.order, store.Rec(key).outbox, groups[i], 0)
      modifies this`queue, this`workers, this`progress
      ensures Valid() && progress == 0
      ensures queue == groups && (forall w :: 0 <= w < |workers| ==> workers[w].Fetching?)
      ensures |workers| == if opts.concurrency < |groups| then opts.concurrency else |groups|
      ensures (forall g :: g in groups ==> g.rows != []) ==> Accounts(Keys(groups), blocked, queue, workers, false)
    {
      progress, queue := 0, groups;
      workers := seq(if opts.concurrency < |groups| then opts.concurrency else |groups|, _ => Fetching);
      AccountsOpen(blocked, groups, workers);
    }

    /** The groups to work on, all of them live. */
    method Eligible(rows: seq<OutboxRow>, ghost limit: nat) returns (groups: seq<Group>)
      requires IsPendingPrefix(store.Rec(key).outbox, limit, rows)
      ensures DistinctKeys(groups)
      ensures forall i :: 0 <= i < |groups| ==> RowsLive(opts.order, store.Rec(key).outbox, groups[i], 0)
      ensures forall g :: g in groups ==> g.key !in blocked && g.key !in HeldKeys(store.Rec(key))
      ensures forall g :: g in groups ==> g.rows == Delivery.RowsOf(opts.order, rows, g.key) && g.rows != []
      ensures Within(opts.order, rows, Keys(groups) + (HeldKeys(store.Rec(key)) + blocked))
    {
      var held := store.HeldKeys(key);
      groups := Select(opts.order, rows, held + blocked);
      forall i | 0 <= i < |groups| ensures RowsLive(opts.order, store.Rec(key).outbox, groups[i], 0) {
        assert groups[i] in groups;
        LoadedIsLive(opts.order, store.Rec(key).outbox, limit, rows, groups[i]);
      }
    }

    /** The protocol loads the same rows and the same held keys. */
    ghost method Load(rows: seq<OutboxRow>, limit: nat, groups: seq<Group>)
      requires Models() && Resting() && IsPendingPrefix(store.Rec(key).outbox, limit, rows)
      requires queue == groups && forall w :: 0 <= w < |workers| ==> workers[w].Fetching?
      requires forall g :: g in groups ==> && g.rows == Delivery.RowsOf(opts.order, rows, g.key) && g.rows != []
                                           && g.key !in HeldKeys(store.Rec(key))
      modifies this`model, this`steps, this`crew
      ensures Models() && Working()
    {
      crew := FreshCrew(model.crews);
      Loads(opts.order, model, sid, crew, lease, store.Rec(key), limit, rows, groups, workers);
      Take(Delivery.LoadPending(sid, limit, rows));
      Take(Delivery.LoadHeld(sid, crew));
    }

    /** Nobody works any more: what is left of the pass is dropped. */
    method Finish()
      requires Active()
      modifies this`queue, this`workers, this`model, this`steps
      ensures Idle()
    {
      PassEnds(opts.order, model, sid, crew, lease, store.Rec(key), queue, workers);
      Take(Delivery.DrainThrows(sid, {}));
      queue, workers := [], [];
    }

    /** Start a pass over the chosen groups. */
    method Open(rows: seq<OutboxRow>, ghost limit: nat, groups: seq<Group>)
      requires Idle() && !threw && IsPendingPrefix(store.Rec(key).outbox, limit, rows) && DistinctKeys(groups)
      requires forall i :: 0 <= i < |groups| ==> RowsLive(opts.order, store.Rec(key).outbox, groups[i], 0)
      requires forall g :: g in groups ==> && g.rows == Delivery.RowsOf(opts.order, rows, g.key) && g.rows != []
                                           && g.key !in HeldKeys(store.Rec(key))
      modifies this`queue, this`workers, this`progress, this`model, this`steps, this`crew
      ensures Active() && progress == 0 && Accounts(Keys(groups), blocked, queue, workers, false)
    {
      Begin(groups);
      Load(rows, limit, groups);
    }

    /** One pass over the loaded rows. `some` tells whether any key could be worked on. */
    method Pass(rows: seq<OutboxRow>, ghost limit: nat) returns (some: bool)
      requires Idle() && !threw && IsPendingPrefix(store.Rec(key).outbox, limit, rows)
      modifies this`queue, this`workers, this`blocked, this`result, this`progress, this`done, this`threw, this`model,
               this`steps, this`crew, this`aborted, store
      ensures !threw ==> Idle()
      ensures some && !threw ==>
                |PendingIds(store.Rec(key).outbox)| + progress == old(|PendingIds(store.Rec(key).outbox)|)
      ensures !threw ==>
                (some && Over()) || Within(opts.order, rows, HeldKeys(old(store.Rec(key))) + blocked)
      ensures !some ==> unchanged(this, store)
    {
      var groups := Eligible(rows, limit);
      some := groups != [];
      if some {
        Work(rows, limit, groups);
      }
    }

    method Work(rows: seq<OutboxRow>, ghost limit: nat, groups: seq<Group>)
      requires Idle() && !threw && IsPendingPrefix(store.Rec(key).outbox, limit, rows) && DistinctKeys(groups)
      requires forall i :: 0 <= i < |groups| ==> RowsLive(opts.order, store.Rec(key).outbox, groups[i], 0)
      requires forall g :: g in groups ==> && g.rows == Delivery.RowsOf(opts.order, rows, g.key) && g.rows != []
                                           && g.key !in HeldKeys(store.Rec(key))
      requires Within(opts.order, rows, Keys(groups) + (HeldKeys(store.Rec(key)) + blocked))
      modifies this`queue, this`workers, this`blocked, this`result, this`progress, this`done, this`threw, this`model,
               this`steps, this`crew, this`aborted, store
      ensures !threw ==> Idle()
      ensures !threw ==> |PendingIds(store.Rec(key).outbox)| + progress == old(|PendingIds(store.Rec(key).outbox)|)
      ensures !threw ==> Over() || Within(opts.order, rows, HeldKeys(old(store.Rec(key))) + blocked)
    {
      ghost var held := HeldKeys(store.Rec(key));
      Open(rows, limit, groups);
      WorkOff(rows, Keys(groups), held);
    }

    method WorkOff(rows: seq<OutboxRow>, ghost todo: set<string>, ghost held: set<string>)
      requires Active() && !threw && Accounts(todo, blocked, queue, workers, false) && progress == 0
      requires Within(opts.order, rows, todo + (held + blocked))
      modifies this`queue, this`workers, this`blocked, this`result, this`progress, this`done, this`threw, this`model,
               this`steps, this`aborted, store
      ensures !threw ==> Idle()
      ensures !threw ==> |PendingIds(store.Rec(key).outbox)| + progress == old(|PendingIds(store.Rec(key).outbox)|)
      ensures !threw ==> Over() || Within(opts.order, rows, held + blocked)
    {
      ghost var had := blocked;
      RunPool(todo);
      if !threw {
        if !Over() { Exhausted(opts.order, rows, todo, held, had, blocked); }
        Finish();
      }
    }

    /** Every key among the first `window` pending rows is held or blocked, and nothing went since they were loaded. */
    ghost predicate Drained(window: nat)
      reads this`at, this`loaded, this`blocked, store
    {
      && IsPendingPrefix(at.outbox, window, loaded) && Within(opts.order, loaded, HeldKeys(at) + blocked)
      && |PendingIds(store.Rec(key).outbox)| == |PendingIds(at.outbox)|
    }

    /** Load, work, and tell how to go on: stop, load more behind blocked keys, or load again. Stopping without
        an abort or a halt means that every key among the rows loaded last is held back. */
    method Turn(window: nat, ghost factor: nat) returns (next: Next)
      requires Idle() && !threw && window == opts.batchSize * factor
      modifies this, store
      ensures !threw ==> Idle()
      ensures threw ==> next == Stop
      ensures !threw && next == Stop && !aborted && !result.halted ==> Drained(window)
      ensures next == Widen ==> factor < 16 && unchanged(store, this`result, this`blocked, this`done)
      ensures next == Again ==> |PendingIds(store.Rec(key).outbox)| < old(|PendingIds(store.Rec(key).outbox)|)
    {
      var signal: bool, unread: bool := *, *;
      if signal { aborted := true; }
      if aborted || result.halted { return Stop; }
      if unread {
        threw := true;
        return Stop;
      }
      var rows := store.LoadPending(key, window);
      loaded, at := rows, store.Rec(key);
      if rows == [] { return Stop; }
      next := TurnOver(rows, window, factor);
    }

    method TurnOver(rows: seq<OutboxRow>, window: nat, ghost factor: nat) returns (next: Next)
      requires Idle() && !threw && window == opts.batchSize * factor && loaded == rows && at == store.Rec(key)
      requires IsPendingPrefix(at.outbox, window, rows)
      modifies this`queue, this`workers, this`blocked, this`result, this`progress, this`done, this`threw, this`model,
               this`steps, this`crew, this`aborted, store
      ensures !threw ==> Idle()
      ensures threw ==> next == Stop
      ensures !threw && next == Stop && !aborted && !result.halted ==> Drained(window)
      ensures next == Widen ==> factor < 16 && unchanged(store, this`result, this`blocked, this`done)
      ensures next == Again ==> |PendingIds(store.Rec(key).outbox)| < old(|PendingIds(store.Rec(key).outbox)|)
    {
      var some := Pass(rows, window);
      if threw { return Stop; }
      if factor >= 16 { WideEnough(opts.batchSize, factor); }
      next := AfterPass(some, progress, |rows|, window, opts.batchSize);
    }

    /** Passes until nothing more can be delivered now; the window doubles, up to sixteen batches. */
    method Passes()
      requires Idle() && !threw
      modifies this, store
      ensures !threw ==> Idle()
      ensures !threw && !aborted && !result.halted ==> exists limit :: limit >= opts.batchSize && Drained(limit)
    {
      var window, factor, next := opts.batchSize, 1, Again;
      while next != Stop
        invariant !threw ==> Idle()
        invariant threw ==> next == Stop
        invariant !threw && next == Stop && !aborted && !result.halted ==>
                    exists limit :: limit >= opts.batchSize && Drained(limit)
        invariant window == opts.batchSize * factor && 1 <= factor < 32
        decreases next != Stop, |PendingIds(store.Rec(key).outbox)|, 32 - factor
      {
        AtLeastOne(opts.batchSize, factor);
        next := Turn(window, factor);
        if next == Widen {
          Doubled(opts.batchSize, factor);
          window, factor := window * 2, factor * 2;
        }
      }
    }

    /** The whole drain: it ends, what it delivered and parked is what is no longer pending, and it is a run of
        the delivery protocol. If nobody stops it, it goes on until every key of a load window of at least one
        batch is held or blocked. It may well leave due rows of other keys behind that window. */
    method Run(consumer: bool) returns (out: Option<DrainResult>)
      requires Idle() && !threw && result == DrainResult(0, 0, 0, None, false, 0)
      modifies this, store
      ensures out.Some? ==>
          Books(before, store.Rec(key), out.value.delivered, out.value.parked, done) && store.records - {key} == others
      ensures out.Some? && consumer && !aborted && !out.value.halted ==>
                exists limit :: limit >= opts.batchSize && Drained(limit)
      ensures out.Some? ==> store.Rec(key) == Delivery.Run(opts.order, start, steps).rec
      ensures out.Some? ==> AllOfDrain(steps)
      ensures out.Some? ==> out.value.remaining == |PendingIds(store.Rec(key).outbox)|
      ensures out.Some? ==> out.value.delivered + out.value.parked == |PendingIds(before.outbox)| - out.value.remaining
      ensures !consumer ==> out.Some? && out.value.delivered + out.value.parked + out.value.failed == 0
    {
      if consumer { Passes(); }
      if threw { return None; }
      ghost var limit: nat := 0;
      if consumer && !aborted && !result.halted { limit :| limit >= opts.batchSize && Drained(limit); }
      var n := store.CountPending(key);
      result := result.(remaining := n);
      out := Some(result);
      assert consumer && !aborted && !result.halted ==> Drained(limit);
    }
  }

  // ---- a due row the drain leaves behind ---------------------------------------------------------

  lemma OneRowLoaded(outbox: map<string, OutboxRow>, a: OutboxRow, b: OutboxRow, rows: seq<OutboxRow>)
    requires outbox == map[a.eventId := a, b.eventId := b] && a.eventId != b.eventId && a.sequence < b.sequence
    requires a.status == Pending && b.status == Pending && IsPendingPrefix(outbox, 1, rows)
    ensures rows == [a]
  {
    assert PendingIds(outbox) == {a.eventId, b.eventId};
  }

  lemma OneGroup(cfg: Delivery.Config, a: OutboxRow, groups: seq<Group>, skip: set<string>)
    requires DistinctKeys(groups) && Within(cfg, [a], Keys(groups) + skip) && cfg.key(a.event) !in skip
    requires forall g :: g in groups ==> g.rows == Delivery.RowsOf(cfg, [a], g.key) && g.rows != []
    ensures groups == [Group(cfg.key(a.event), [a])]
  {
    assert a in [a] && cfg.key(a.event) in Keys(groups) && [a][..0] == [];
    assert |groups| > 1 ==> groups[0] in groups && groups[1] in groups && groups[0].key != groups[1].key;
    forall i | 0 <= i < |groups| ensures groups[i] == Group(cfg.key(a.event), [a]) {
      assert groups[i] in groups && Delivery.RowsOf(cfg, [], groups[i].key) == [];
    }
  }

  /** Two pending rows of different keys, neither of them held; the first one waits for its retry. */
  ghost predicate WaitsInFront(cfg: Delivery.Config, rec: KeyRecord, a: OutboxRow, b: OutboxRow, now: int) {
    && rec.outbox == map[a.eventId := a, b.eventId := b] && a.eventId != b.eventId && a.sequence < b.sequence
    && a.status == Pending && b.status == Pending && cfg.key(a.event) != cfg.key(b.event) && HeldKeys(rec) == {}
    && NotDue(a, now) && !NotDue(b, now)
  }

  method OnlyGroup(d: Drain, a: OutboxRow, ghost b: OutboxRow, ghost now: int)
    returns (rows: seq<OutboxRow>, groups: seq<Group>)
    requires d.Valid() && d.opts.batchSize == 1 && d.blocked == {}
    requires WaitsInFront(d.opts.order, d.store.Rec(d.key), a, b, now)
    ensures |rows| == 1 && groups == [Group(d.opts.order.key(a.event), [a])]
    ensures forall i :: 0 <= i < |groups| ==> RowsLive(d.opts.order, d.store.Rec(d.key).outbox, groups[i], 0)
  {
    rows := d.store.LoadPending(d.key, d.opts.batchSize);
    OneRowLoaded(d.store.Rec(d.key).outbox, a, b, rows);
    groups := d.Eligible(rows, 1);
    OneGroup(d.opts.order, a, groups, HeldKeys(d.store.Rec(d.key)) + d.blocked);
  }

  /** The load window does not widen after a pass in which the first batch turned out to wait for retries: with a
      batch of one, a row `a` to be retried later keeps a row `b` of another key from being loaded, although `b` is
      due and its key is neither held nor blocked. These are the steps of such a pass. */
  method StopsBeforeDueRow(d: Drain, a: OutboxRow, ghost b: OutboxRow, now: int) returns (next: Next)
    requires d.Valid() && !d.threw && !d.aborted && !d.result.halted && d.opts.batchSize == 1 && d.opts.concurrency == 1
    requires WaitsInFront(d.opts.order, d.store.Rec(d.key), a, b, now) && d.blocked == {}
    modifies d`queue, d`workers, d`blocked, d`result, d`progress
    ensures next == Stop && d.progress == 0 && !d.aborted && !d.result.halted && d.workers == [Returned]
    ensures WaitsInFront(d.opts.order, d.store.Rec(d.key), a, b, now) && d.opts.order.key(b.event) !in d.blocked
  {
    var rows, groups := OnlyGroup(d, a, b, now);
    d.Begin(groups);
    WaitsAndReturns(d, now);
    next := AfterPass(groups != [], d.progress, |rows|, d.opts.batchSize, d.opts.batchSize);
  }

  /** One worker, one group, and its first row is not due. */
  method WaitsAndReturns(d: Drain, now: int)
    requires d.Valid() && !d.threw && !d.aborted && !d.result.halted && |d.queue| == 1 && d.workers == [Fetching]
    requires d.queue[0].rows != [] && NotDue(d.queue[0].rows[0], now)
    modifies d`queue, d`workers, d`blocked, d`result
    ensures d.Valid() && !d.result.halted && d.workers == [Returned]
    ensures d.blocked == old(d.blocked) + {old(d.queue)[0].key}
  {
    d.Fetch(0);
    d.Row(0, now);
    d.Fetch(0);
  }
}
