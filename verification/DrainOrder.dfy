/** What `Ordering` proves of the delivery protocol holds of every drain: a drain is a run of the protocol, and
    none of its steps is one that an orderly run has to avoid. */
module DrainOrder {
  import opened Store
  import opened Delivery
  import DrainModel
  import Ordering

  lemma {:induction false} RunMore(cfg: Config, s: Sys, past: seq<Step>, steps: seq<Step>)
    ensures Run(cfg, s, past + steps) == Run(cfg, Run(cfg, s, past), steps)
    decreases |steps|
  {
    if steps == [] {
      assert past + steps == past;
    } else {
      assert (past + steps)[..|past + steps| - 1] == past + steps[..|steps| - 1];
      RunMore(cfg, s, past, steps[..|steps| - 1]);
    }
  }

  /** A drain in an orderly run leaves it orderly. */
  lemma {:induction false} DrainsAreOrderly(cfg: Config, s: Sys, past: seq<Step>, steps: seq<Step>)
    requires Orderly(cfg, s, past) && DrainModel.AllOfDrain(steps)
    ensures Orderly(cfg, s, past + steps)
    decreases |steps|
  {
    if steps == [] {
      assert past + steps == past;
    } else {
      assert (past + steps)[..|past + steps| - 1] == past + steps[..|steps| - 1];
      DrainsAreOrderly(cfg, s, past, steps[..|steps| - 1]);
    }
  }

  /** The drain's steps within the whole run. */
  lemma Located(cfg: Config, s: Sys, past: seq<Step>, steps: seq<Step>, n: nat) returns (all: seq<Step>, k: nat)
    requires Orderly(cfg, s, past) && DrainModel.AllOfDrain(steps) && n < |steps|
    ensures Orderly(cfg, s, all) && k < |all| && all[k] == steps[n]
    ensures Run(cfg, s, all[..k]) == Run(cfg, Run(cfg, s, past), steps[..n])
  {
    DrainsAreOrderly(cfg, s, past, steps);
    RunMore(cfg, s, past, steps[..n]);
    all, k := past + steps, |past| + n;
    assert all[..k] == past + steps[..n];
  }

  /** Whatever happened before a drain, when it starts delivering an event every smaller sequence of the same
      key was delivered or discarded. `steps` is what `Drain.Run` leaves behind. */
  lemma DrainsFollowKeyOrder(cfg: Config, s: Sys, past: seq<Step>, steps: seq<Step>, n: nat, before: Sys, p: nat,
                             q: nat)
    requires Init(s) && cfg.holdKey && Orderly(cfg, s, past) && DrainModel.AllOfDrain(steps) && n < |steps|
    requires before == Run(cfg, Run(cfg, s, past), steps[..n])
    requires Ordering.Starts(before, steps[n], p) && q < p && Ordering.SameKey(cfg, before.committed, p, q)
    ensures q in before.delivered || q in before.discarded
  {
    var all, k := Located(cfg, s, past, steps, n);
    StartsInOrder(cfg, s, all, k, before, p, q);
  }

  lemma StartsInOrder(cfg: Config, s: Sys, steps: seq<Step>, n: nat, before: Sys, p: nat, q: nat)
    requires Init(s) && cfg.holdKey && Orderly(cfg, s, steps) && n < |steps| && before == Run(cfg, s, steps[..n])
    requires Ordering.Starts(before, steps[n], p) && q < p && Ordering.SameKey(cfg, before.committed, p, q)
    ensures q in before.delivered || q in before.discarded
  {
    Ordering.DeliveriesFollowKeyOrder(cfg, s, steps, n, p, q);
  }
}
