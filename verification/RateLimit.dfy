/** A budget manager on top of a token bucket that others may use too: what its resolved waiters got,
    take by take, stays within the rate of the bucket. */
module RateLimit {
  import opened Store
  import opened Bucket
  import B = BudgetManager

  function Sum(s: seq<nat>): nat { if s == [] then 0 else s[0] + Sum(s[1..]) }

  lemma {:induction false} SumAppend(s: seq<nat>, x: nat)
    ensures Sum(s + [x]) == Sum(s) + x
  {
    if s == [] {
    } else {
      SumAppend(s[1..], x);
      assert (s + [x])[1..] == s[1..] + [x];
    }
  }

  lemma {:induction false} SumUpdate(s: seq<nat>, k: nat, x: nat)
    requires k < |s|
    ensures Sum(s[k := x]) == Sum(s) - s[k] + x
  {
    if k > 0 {
      SumUpdate(s[1..], k - 1, x);
      assert s[k := x][1..] == s[1..][k - 1 := x];
    } else {
      assert s[k := x][1..] == s[1..];
    }
  }

  /** What the bucket charged for the `i`th take of a history. */
  function ChargedAt(p: Policy, ops: seq<Op>, i: nat): nat
    requires i < |ops|
  {
    Charged(After(None, p, ops[..i]), p, ops[i])
  }

  /** No take gave waiters more than the bucket charged for it. */
  ghost predicate LedgerOk(p: Policy, ops: seq<Op>, kept: seq<nat>) {
    |kept| == |ops| && forall i :: 0 <= i < |ops| ==> kept[i] <= ChargedAt(p, ops, i)
  }

  lemma {:induction false} AfterAppend(b: Option<Bucket>, p: Policy, ops: seq<Op>, op: Op)
    ensures After(b, p, ops + [op]) == Some(Take(After(b, p, ops), op.cost, p, op.now).bucket)
    decreases ops
  {
    if ops == [] {
    } else {
      AfterAppend(Some(Take(b, ops[0].cost, p, ops[0].now).bucket), p, ops[1..], op);
      assert (ops + [op])[1..] == ops[1..] + [op];
    }
  }

  lemma LedgerAppend(p: Policy, ops: seq<Op>, kept: seq<nat>, op: Op)
    requires LedgerOk(p, ops, kept)
    ensures LedgerOk(p, ops + [op], kept + [0])
    ensures forall i :: 0 <= i < |ops| ==> ChargedAt(p, ops + [op], i) == ChargedAt(p, ops, i)
    ensures ChargedAt(p, ops + [op], |ops|) == Charged(After(None, p, ops), p, op)
  {
    forall i | 0 <= i <= |ops| ensures (ops + [op])[..i] == ops[..i] {
    }
    assert ops[..|ops|] == ops;
  }

  /** Over any window, waiters got at most what the bucket granted. */
  lemma {:induction false} KeptWithinGranted(p: Policy, ops: seq<Op>, kept: seq<nat>, i: nat, j: nat)
    requires LedgerOk(p, ops, kept) && i <= j <= |ops|
    ensures Sum(kept[i..j]) <= GrantedCost(After(None, p, ops[..i]), p, ops[i..j])
    decreases j - i
  {
    if i < j {
      KeptWithinGranted(p, ops, kept, i + 1, j);
      AfterAppend(None, p, ops[..i], ops[i]);
      assert ops[..i + 1] == ops[..i] + [ops[i]];
      assert ops[i..j][1..] == ops[i + 1..j] && kept[i..j][1..] == kept[i + 1..j];
      assert kept[i] <= ChargedAt(p, ops, i);
    }
  }

  /** The manager and the store it takes from. The store works on a take some time before the loop
      sees the answer; anything may happen in between. */
  class Limiter {
    const policy: Policy
    const name: string
    const budget: B.Budget
    const store: MemoryBudgetStore
    /** The answer to the take under way, once the store has it. */
    var answer: Option<bool>
    /** All takes on the bucket, what resolved waiters got of each, and which one `answer` belongs to. */
    ghost var ops: seq<Op>
    ghost var kept: seq<nat>
    ghost var at: nat

    constructor (policy: Policy, name: string, weighted: bool, store: MemoryBudgetStore)
      requires name !in store.buckets
      ensures Valid() && ops == [] && fresh(budget) && this.store == store && this.policy == policy && this.name == name
    {
      this.policy, this.name, this.store := policy, name, store;
      budget := new B.Budget(weighted);
      answer, ops, kept, at := None, [], [], 0;
    }

    ghost predicate Valid()
      reads this, budget, store
    {
      && budget.Valid() && LedgerOk(policy, ops, kept) && store.Lookup(name) == After(None, policy, ops)
      && Sum(kept) == budget.grantedTokens && (answer.Some? ==>
          budget.taking.Some? && AnswerOk(answer.value, budget.taking.value.cost))
    }

    ghost predicate AnswerOk(granted: bool, cost: nat)
      requires |kept| == |ops|
      reads this
    {
      at < |ops| && kept[at] == 0 && (granted ==> cost == ChargedAt(policy, ops, at))
    }

    /** Somebody takes from the bucket. */
    method TakeFromBucket(cost: int, now: int) returns (granted: bool)
      requires Valid()
      modifies this`ops, this`kept, store
      ensures Valid() && ops == old(ops) + [Op(cost, now)] && kept == old(kept) + [0]
      ensures ChargedAt(policy, ops, |old(ops)|) == if granted && cost > 0 then cost else 0
    {
      LedgerAppend(policy, ops, kept, Op(cost, now));
      AfterAppend(None, policy, ops, Op(cost, now));
      SumAppend(kept, 0);
      var reply := store.TakeTokens(name, cost, policy, now);
      granted := reply.Granted?;
      ops, kept := ops + [Op(cost, now)], kept + [0];
    }

    /** The store works on the take of the loop. */
    method Serve(now: int)
      requires Valid() && budget.taking.Some? && answer.None?
      modifies this`ops, this`kept, this`at, this`answer, store
      ensures Valid() && answer.Some?
    {
      at := |ops|;
      var granted := TakeFromBucket(budget.taking.value.cost, now);
      answer := Some(granted);
    }

    /** The loop sees the answer; a grant goes to the waiter unless that one left meanwhile. */
    method Answer(now: int)
      requires Valid() && answer.Some?
      modifies this`answer, this`kept, budget
      ensures Valid() && answer.None?
      ensures
        var w := old(budget.taking.value);
        var got := if old(answer.value) && w.seqNo !in old(budget.settled) then w.cost else 0;
        kept == old(kept)[at := got] && budget.grantedTokens == old(budget.grantedTokens) + got
    {
      var w, granted, left := budget.taking.value, answer.value, budget.taking.value.seqNo in budget.settled;
      var wait: Option<real> := *;
      budget.Resume(if granted then B.Taken else B.Refused(wait), now);
      SumUpdate(kept, at, if granted && !left then w.cost else 0);
      answer, kept := None, kept[at := if granted && !left then w.cost else 0];
    }

    /** The store fails, before or after it worked on the take. */
    method Throw(now: int)
      requires Valid() && budget.taking.Some?
      modifies this`answer, budget
      ensures Valid() && answer.None?
    {
      budget.Resume(B.Throws, now);
      answer := None;
    }

    /** Anything else that may happen to the manager. */
    method Outside()
      requires Valid()
      modifies budget
      ensures Valid() && budget.grantedTokens == old(budget.grantedTokens)
    {
      if * {
        var requester: string, weight: real, lane: Lane, cost: int, deadlineAt: Option<int>, aborted: bool :=
            *, *, *, *, *, *;
        var _ := budget.Acquire(requester, weight, lane, cost, deadlineAt, aborted);
      } else if * {
        var s: nat := *;
        if 1 <= s <= budget.waiterSeq { budget.Abort(s); }
      } else {
        var h: nat := *;
        if h in budget.timers { budget.Fire(h); }
      }
    }

    /** The rate holds for what acquires were resolved with, over any window of takes, whatever the
        clock did and whoever else used the bucket. */
    lemma ResolvedWithinRate(i: nat, j: nat)
      requires Valid() && i < j <= |ops|
      ensures Sum(kept[i..j]) * policy.perMs <= Max(policy.burst,
                                                    ops[i].cost) * policy.perMs + (MaxNow(ops[i].now,
                                                        ops[i..j]) - ops[i].now) * policy.requests
      ensures Sum(kept) == budget.grantedTokens
    {
      KeptWithinGranted(policy, ops, kept, i, j);
      RateNeverExceeded(policy, ops, i, j);
      Scales(Sum(kept[i..j]), GrantedCost(After(None, policy, ops[..i]), policy, ops[i..j]), policy.perMs);
    }
  }
}
