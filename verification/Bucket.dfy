/** The token bucket behind a rate budget, in exact integers: contents are kept multiplied by the
    window length, so a refill adds `requests` per elapsed millisecond. */
module Bucket {
  import opened Store

  datatype PolicyFields = PolicyFields(requests: nat, perMs: nat, burst: nat)
  type Policy = p: PolicyFields | p.requests >= 1 && p.perMs >= 1 && p.burst >= 1 witness PolicyFields(1, 1, 1)

  datatype Bucket = Bucket(scaled: nat, updatedAt: int)

  /** `remaining` is in the bucket's unit, tokens times `perMs`. */
  datatype Reply = Granted(remaining: nat) | Refused(retryInMs: nat)

  datatype Taken = Taken(bucket: Bucket, reply: Reply)

  function Max(a: int, b: int): int { if a < b then b else a }
  function Min(a: int, b: int): int { if a < b then a else b }

  /** The least `n` with `a <= n * b`. */
  function CeilDiv(a: nat, b: nat): (n: nat)
    requires b > 0
    ensures forall k: nat :: a <= k * b <==> n <= k
  {
    CeilFacts(a, b);
    (a + b - 1) / b
  }

  /** Multiplying by something positive keeps the order. */
  lemma Scales(x: int, y: int, k: int)
    requires k > 0
    ensures (x <= y ==> x * k <= y * k) && (x < y ==> x * k <= y * k - k)
  {
    if x <= y { Times(y - x, k, x); }
    if x < y { Times(y - x - 1, k, x); Times(1, k, y - 1); }
  }

  lemma Times(d: int, k: int, x: int)
    requires d >= 0 && k > 0
    ensures x * k <= (x + d) * k && (x + d) * k == x * k + d * k
  {
    assert (x + d) * k == x * k + d * k;
    assert d * k >= 0;
  }

  lemma CeilFacts(a: nat, b: nat)
    requires b > 0
    ensures forall k: nat :: a <= k * b <==> (a + b - 1) / b <= k
  {
    var n := (a + b - 1) / b;
    assert n * b <= a + b - 1 < n * b + b;
    forall k: nat ensures a <= k * b <==> n <= k {
      Scales(n, k, b);
      Scales(k, n, b);
    }
  }

  function Refill(b: Option<Bucket>, p: Policy, now: int, tokens: nat): Bucket {
    var cap := tokens * p.perMs;
    if b.None? then Bucket(Min(cap, p.burst * p.perMs), now)
    else if now > b.value.updatedAt then Bucket(Min(cap, b.value.scaled + (now - b.value.updatedAt) * p.requests), now)
    else b.value.(scaled := Min(cap, b.value.scaled))
  }

  function Take(b: Option<Bucket>, cost: int, p: Policy, now: int): Taken {
    if cost <= 0 then
      var r := Refill(b, p, now, p.burst);
      Taken(r, Granted(r.scaled))
    else
      var r := Refill(b, p, now, Max(p.burst, cost));
      if r.scaled >= cost * p.perMs then Taken(r.(scaled := r.scaled - cost * p.perMs),
                                               Granted(r.scaled - cost * p.perMs))
      else Taken(r, Refused(Max(1, CeilDiv(cost * p.perMs - r.scaled, p.requests))))
  }

  // ---- the reported wait ----------------------------------------------------------------------

  /** A bucket that holds too little grants once the refill since its time makes up for it. */
  lemma TakeLater(b: Bucket, cost: int, p: Policy, later: int)
    requires cost > 0 && b.scaled < cost * p.perMs
    ensures Take(Some(b), cost, p, later).reply.Granted? <==>
              later > b.updatedAt && cost * p.perMs - b.scaled <= (later - b.updatedAt) * p.requests
  {
    Scales(cost, Max(p.burst, cost), p.perMs);
  }

  lemma RefusalFacts(b: Option<Bucket>, cost: int, p: Policy, now: int)
    requires Take(b, cost, p, now).reply.Refused?
    ensures
      var t := Take(b, cost, p, now);
      && cost > 0 && t.bucket.scaled < cost * p.perMs
      && t.reply.retryInMs == CeilDiv(cost * p.perMs - t.bucket.scaled, p.requests) >= 1
  {
    var t := Take(b, cost, p, now);
    var deficit := cost * p.perMs - t.bucket.scaled;
    assert deficit <= 0 * p.requests <==> CeilDiv(deficit, p.requests) <= 0;
  }

  /** After a refusal, and with no call in between, the same take is granted exactly from the bucket's
      time plus the reported wait on: not one millisecond earlier, also when the cost exceeds the burst. */
  lemma WaitIsExact(b: Option<Bucket>, cost: int, p: Policy, now: int, later: int)
    requires Take(b, cost, p, now).reply.Refused?
    ensures
      var t := Take(b, cost, p, now);
      && Take(Some(t.bucket), cost, p, later).reply.Granted? <==> later >= t.bucket.updatedAt + t.reply.retryInMs
  {
    var t := Take(b, cost, p, now);
    RefusalFacts(b, cost, p, now);
    TakeLater(t.bucket, cost, p, later);
    var deficit, k := cost * p.perMs - t.bucket.scaled, later - t.bucket.updatedAt;
    if k >= 0 { assert deficit <= k * p.requests <==> CeilDiv(deficit, p.requests) <= k; }
  }

  /** With the clock at or past the bucket's time, the wait counts from the call itself. */
  lemma WaitFromNow(b: Option<Bucket>, cost: int, p: Policy, now: int, later: int)
    requires Take(b, cost, p, now).reply.Refused? && (b.Some? ==> b.value.updatedAt <= now)
    ensures
      var t := Take(b, cost, p, now);
      && Take(Some(t.bucket), cost, p, later).reply.Granted? <==> later >= now + t.reply.retryInMs
  {
    WaitIsExact(b, cost, p, now, later);
  }

  // ---- contents -------------------------------------------------------------------------------

  /** A budget starts with a full burst: its first take is granted exactly up to the burst. */
  lemma StartsFull(cost: int, p: Policy, now: int)
    ensures
      var t := Take(None, cost, p, now);
      && (t.reply.Granted? <==> cost <= p.burst) && t.bucket.updatedAt == now
      && t.bucket.scaled == (if 0 < cost <= p.burst then p.burst - cost else p.burst) * p.perMs
      && (t.reply.Granted? ==> t.reply.remaining == t.bucket.scaled)
  {
    Scales(cost, p.burst, p.perMs);
    Scales(p.burst, cost, p.perMs);
    if 0 < cost <= p.burst { assert (p.burst - cost) * p.perMs == p.burst * p.perMs - cost * p.perMs; }
  }

  /** A take is granted exactly if contents and refill suffice. What is left and what was charged are together
      the contents and the refill, or a full bucket if that is less; nothing else gets lost. */
  lemma NothingIsLost(b: Bucket, cost: int, p: Policy, now: int)
    ensures
      var t, total := Take(Some(b), cost, p, now), b.scaled + Max(0, now - b.updatedAt) * p.requests;
      var kept := t.bucket.scaled + (if cost > 0 && t.reply.Granted? then cost * p.perMs else 0);
      && (t.reply.Granted? <==> cost <= 0 || cost * p.perMs <= total)
      && kept <= total && kept <= Max(p.burst, cost) * p.perMs &&
          (kept == total || kept == Max(p.burst, cost) * p.perMs)
      && t.bucket.updatedAt == Max(b.updatedAt, now) && (t.reply.Granted? ==> t.reply.remaining == t.bucket.scaled)
  {
    Scales(cost, Max(p.burst, cost), p.perMs);
  }

  // ---- the rate -------------------------------------------------------------------------------

  datatype Op = Op(cost: int, now: int)

  function After(b: Option<Bucket>, p: Policy, ops: seq<Op>): Option<Bucket>
    decreases ops
  {
    if ops == [] then b else After(Some(Take(b, ops[0].cost, p, ops[0].now).bucket), p, ops[1..])
  }

  function Charged(b: Option<Bucket>, p: Policy, op: Op): nat {
    if op.cost > 0 && Take(b, op.cost, p, op.now).reply.Granted? then op.cost else 0
  }

  /** Total cost of the granted takes. */
  function GrantedCost(b: Option<Bucket>, p: Policy, ops: seq<Op>): nat
    decreases ops
  {
    if ops == [] then 0
      else Charged(b, p, ops[0]) + GrantedCost(Some(Take(b, ops[0].cost, p, ops[0].now).bucket), p, ops[1..])
  }

  function MaxNow(t: int, ops: seq<Op>): int
    decreases ops
  {
    if ops == [] then t else MaxNow(Max(t, ops[0].now), ops[1..])
  }

  /** One take: what is charged comes out of the contents plus the refill since the bucket's time. */
  lemma TakeConserves(b: Bucket, p: Policy, op: Op)
    ensures
      var b' := Take(Some(b), op.cost, p, op.now).bucket;
      && b'.updatedAt == Max(b.updatedAt, op.now)
      && Charged(Some(b), p, op) * p.perMs + b'.scaled <= b.scaled + (b'.updatedAt - b.updatedAt) * p.requests
  {
  }

  lemma Chain(first: int, rest: int, perMs: int, s0: int, s1: int, m: int, u0: int, u1: int, requests: int)
    requires first * perMs + s1 <= s0 + (u1 - u0) * requests && rest * perMs <= s1 + (m - u1) * requests
    ensures (first + rest) * perMs <= s0 + (m - u0) * requests
  {
    assert (first + rest) * perMs == first * perMs + rest * perMs;
    assert (m - u0) * requests == (m - u1) * requests + (u1 - u0) * requests;
  }

  lemma Fits(first: int, rest: int, perMs: int, cap: int, left: int, refill: int)
    requires first * perMs + left <= cap && rest * perMs <= left + refill
    ensures (first + rest) * perMs <= cap + refill
  {
    assert (first + rest) * perMs == first * perMs + rest * perMs;
  }

  lemma {:induction false} TakesConserve(b: Bucket, p: Policy, ops: seq<Op>)
    ensures GrantedCost(Some(b), p, ops) * p.perMs <= b.scaled + (MaxNow(b.updatedAt, ops) - b.updatedAt) * p.requests
    decreases ops
  {
    if ops == [] {
    } else {
      var b' := Take(Some(b), ops[0].cost, p, ops[0].now).bucket;
      TakeConserves(b, p, ops[0]);
      TakesConserve(b', p, ops[1..]);
      Chain(Charged(Some(b), p, ops[0]), GrantedCost(Some(b'), p, ops[1..]), p.perMs, b.scaled, b'.scaled,
            MaxNow(b'.updatedAt, ops[1..]), b.updatedAt, b'.updatedAt, p.requests);
    }
  }

  lemma {:induction false} MaxNowIsMax(t: int, u: int, ops: seq<Op>)
    requires t <= u
    ensures t <= MaxNow(t, ops) && u <= MaxNow(u, ops) && (MaxNow(u, ops) == u || MaxNow(u, ops) == MaxNow(t, ops))
    decreases ops
  {
    if ops == [] {
    } else {
      MaxNowIsMax(Max(t, ops[0].now), Max(u, ops[0].now), ops[1..]);
    }
  }

  lemma FirstTake(b: Option<Bucket>, p: Policy, op: Op)
    ensures Charged(b, p, op) * p.perMs + Take(b, op.cost, p, op.now).bucket.scaled <= Max(p.burst, op.cost) * p.perMs
    ensures Take(b, op.cost, p, op.now).bucket.updatedAt >= op.now
  {
  }

  /** From any contents: a window's grants fit one full bucket plus the refill over the window. */
  lemma WindowBound(b: Option<Bucket>, p: Policy, ops: seq<Op>)
    requires ops != []
    ensures GrantedCost(b, p, ops) * p.perMs <= Max(p.burst,
                                                    ops[0].cost) * p.perMs + (MaxNow(ops[0].now,
                                                        ops) - ops[0].now) * p.requests
  {
    var op, tail := ops[0], ops[1..];
    var b' := Take(b, op.cost, p, op.now).bucket;
    FirstTake(b, p, op);
    TakesConserve(b', p, tail);
    MaxNowIsMax(op.now, b'.updatedAt, tail);
    Scales(MaxNow(b'.updatedAt, tail) - b'.updatedAt, MaxNow(op.now, tail) - op.now, p.requests);
    Fits(Charged(b, p, op), GrantedCost(Some(b'), p, tail), p.perMs, Max(p.burst, op.cost) * p.perMs, b'.scaled,
         (MaxNow(op.now, tail) - op.now) * p.requests);
  }

  /** Any window of any history of a budget, whatever the clock did. */
  lemma RateNeverExceeded(p: Policy, history: seq<Op>, i: nat, j: nat)
    requires i < j <= |history|
    ensures
      GrantedCost(After(None, p, history[..i]), p, history[i..j]) * p.perMs
      <= Max(p.burst, history[i].cost) * p.perMs + (MaxNow(history[i].now, history[i..j]) - history[i].now) * p.requests
  {
    WindowBound(After(None, p, history[..i]), p, history[i..j]);
  }

  // ---- the store ------------------------------------------------------------------------------

  class MemoryBudgetStore {
    var buckets: map<string, Bucket>

    constructor ()
      ensures buckets == map[]
    {
      buckets := map[];
    }

    function Lookup(name: string): Option<Bucket>
      reads this
    {
      if name in buckets then Some(buckets[name]) else None
    }

    method RefillBucket(name: string, p: Policy, now: int, tokens: nat)
      modifies this
      ensures buckets == old(buckets)[name := Refill(old(Lookup(name)), p, now, tokens)]
    {
      var cap := tokens * p.perMs;
      if name !in buckets {
        buckets := buckets[name := Bucket(Min(cap, p.burst * p.perMs), now)];
        return;
      }
      var b := buckets[name];
      var elapsed := now - b.updatedAt;
      if elapsed > 0 {
        buckets := buckets[name := Bucket(Min(cap, b.scaled + elapsed * p.requests), now)];
      } else if b.scaled > cap {
        buckets := buckets[name := b.(scaled := cap)];
      } else {
        assert buckets == buckets[name := b];
      }
    }

    method TakeTokens(name: string, cost: int, p: Policy, now: int) returns (reply: Reply)
      modifies this
      ensures buckets == old(buckets)[name := Take(old(Lookup(name)), cost, p, now).bucket]
      ensures reply == Take(old(Lookup(name)), cost, p, now).reply
    {
      if cost <= 0 {
        RefillBucket(name, p, now, p.burst);
        return Granted(buckets[name].scaled);
      }
      RefillBucket(name, p, now, Max(p.burst, cost));
      var need, have := cost * p.perMs, buckets[name].scaled;
      if have >= need {
        buckets := buckets[name := buckets[name].(scaled := have - need)];
        reply := Granted(have - need);
      } else {
        reply := Refused(Max(1, CeilDiv(need - have, p.requests)));
      }
    }

    method Peek(name: string, p: Policy, now: int) returns (remaining: nat)
      modifies this
      ensures buckets == old(buckets)[name := Take(old(Lookup(name)), 0, p, now).bucket]
      ensures remaining <= p.burst * p.perMs && remaining == buckets[name].scaled
    {
      RefillBucket(name, p, now, p.burst);
      remaining := buckets[name].scaled;
    }
  }

  /** The Redis script on the bucket's hash does what the memory store does. */
  class RedisBucket {
    var scaled: Option<nat>
    var updatedAt: Option<int>

    constructor ()
      ensures Valid() && Abs() == None
    {
      scaled, updatedAt := None, None;
    }

    ghost predicate Valid()
      reads this
    {
      scaled.Some? == updatedAt.Some?
    }

    ghost function Abs(): Option<Bucket>
      reads this
      requires Valid()
    {
      if scaled.None? then None else Some(Bucket(scaled.value, updatedAt.value))
    }

    method RefillHash(p: Policy, now: int, tokens: nat) returns (s: nat, u: int)
      requires Valid()
      ensures Bucket(s, u) == Refill(Abs(), p, now, tokens)
    {
      var cap := tokens * p.perMs;
      if scaled.None? { return Min(cap, p.burst * p.perMs), now; }
      s, u := scaled.value, updatedAt.value;
      var elapsed := now - u;
      if elapsed > 0 {
        s, u := Min(cap, s + elapsed * p.requests), now;
      } else if s > cap {
        s := cap;
      }
    }

    method TakeScript(cost: int, p: Policy, now: int) returns (reply: Reply)
      requires Valid()
      modifies this
      ensures Valid() && Abs() == Some(Take(old(Abs()), cost, p, now).bucket)
      ensures reply == Take(old(Abs()), cost, p, now).reply
    {
      if cost <= 0 {
        var s, u := RefillHash(p, now, p.burst);
        scaled, updatedAt := Some(s), Some(u);
        return Granted(s);
      }
      var s, u := RefillHash(p, now, Max(p.burst, cost));
      var need := cost * p.perMs;
      if s >= need {
        scaled, updatedAt := Some(s - need), Some(u);
        reply := Granted(s - need);
      } else {
        scaled, updatedAt := Some(s), Some(u);
        reply := Refused(Max(1, CeilDiv(need - s, p.requests)));
      }
    }
  }
}
