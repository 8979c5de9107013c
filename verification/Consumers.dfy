/** The backpressured iterator behind `subscribe()`: deliveries wait in a queue, at most one is with the
    loop body, and a delivery counts as acknowledged only when the loop asks for the next one or returns. */
module Consumers {
  import opened Store

  datatype Answer = Acked | NotAcked

  /** The deliveries `first`, `first + 1`, ..., `end - 1`. */
  function Range(first: nat, end: nat): (r: seq<nat>)
    requires first <= end
    ensures |r| == end - first && forall i :: 0 <= i < |r| ==> r[i] == first + i
    decreases end - first
  {
    if first == end then [] else [first] + Range(first + 1, end)
  }

  class SubscribeConsumer {
    /** Deliveries are numbered in the order they came. */
    var pushed: nat
    var queue: seq<nat>
    var inflight: Option<nat>
    /** The loop waits for an event. */
    var pulling: bool
    var closed: bool
    /** How many deliveries were handed to the loop, and the answers given to the dispatcher. */
    var handed: nat
    var answers: map<nat, Answer>

    constructor ()
      ensures Valid() && pushed == 0 && !closed && !pulling && handed == 0 && answers == map[]
    {
      pushed, queue, inflight, pulling, closed, handed, answers := 0, [], None, false, false, 0, map[];
    }

    /** Handed in order; each delivery is queued, with the loop, or answered, and never two of these;
        everything handed before the last was acknowledged; nothing unhanded was. */
    ghost predicate Valid()
      reads this
    {
      && Books()
      && (pulling ==> !closed && inflight.None? && queue == [])
      && (!closed && inflight.None? ==> LastAcked())
    }

    ghost predicate Books()
      reads this
    {
      && handed <= pushed
      && (if closed then queue == [] && inflight.None? else queue == Range(handed, pushed))
      && (inflight.Some? ==> handed > 0 && inflight.value == handed - 1)
      && (forall d: nat :: d in answers <==> d < pushed && (closed || d < handed) && inflight != Some(d))
      && (forall d: nat :: d in answers && answers[d] == Acked ==> d < handed)
      && (forall d: nat :: d + 1 < handed ==> d in answers && answers[d] == Acked)
    }

    /** Answers are final, and hand-outs are never taken back. */
    twostate predicate Keeps()
      reads this
    {
      old(pushed) <= pushed && old(handed) <= handed && forall d: nat :: d in old(answers) ==>
          d in answers && answers[d] == old(answers)[d]
    }

    /** The last delivery handed out, if any, was acknowledged. */
    ghost predicate LastAcked()
      reads this
    {
      handed > 0 ==> handed - 1 in answers && answers[handed - 1] == Acked
    }

    /** Hand the next delivery to a waiting loop. */
    method Pump()
      requires Books() && !closed && (pulling ==> inflight.None?) && (inflight.None? ==> LastAcked())
      modifies this`queue, this`inflight, this`pulling, this`handed
      ensures queue == if old(pulling) && old(queue) != [] then old(queue)[1..] else old(queue)
      ensures Valid() && handed == if old(pulling) && old(queue) != [] then old(handed) + 1 else old(handed)
      ensures inflight == if old(pulling) && old(queue) != [] then Some(old(queue)[0]) else old(inflight)
      ensures pulling == (old(pulling) && old(queue) == [])
    {
      if !pulling || inflight.Some? || queue == [] { return; }
      inflight := Some(queue[0]);
      queue, pulling, handed := queue[1..], false, handed + 1;
      assert queue == Range(handed, pushed);
    }

    method SettleInflight(ok: bool)
      requires Books()
      modifies this`inflight, this`answers
      ensures Books() && Keeps() && inflight.None? && (ok && (old(inflight).None? ==> old(LastAcked())) ==> LastAcked())
      ensures answers == if old(inflight).Some? then
                old(answers)[old(inflight).value := if ok then Acked else NotAcked] else old(answers)
    {
      if inflight.None? { return; }
      answers := answers[inflight.value := if ok then Acked else NotAcked];
      inflight := None;
    }

    /** The dispatcher delivers an event; after a close it is turned away at once. */
    method Deliver() returns (accepted: bool)
      requires Valid()
      modifies this
      ensures Valid() && Keeps() && accepted == !old(closed) && pushed == if accepted then
                old(pushed) + 1 else old(pushed)
      ensures answers == old(answers) && closed == old(closed)
      ensures accepted && old(pulling) ==> inflight == Some(old(pushed)) && handed == pushed && queue == [] && !pulling
      ensures !(accepted && old(pulling)) ==>
                inflight == old(inflight) && handed == old(handed) && pulling == old(pulling)
      ensures accepted && !old(pulling) ==> queue == old(queue) + [old(pushed)]
    {
      if closed { return false; }
      queue, pushed := queue + [pushed], pushed + 1;
      assert queue == Range(handed, pushed);
      Pump();
      accepted := true;
    }

    /** The loop asks for the next event: the one it had is acknowledged; after a close the loop is done. */
    method Next() returns (done: bool)
      requires Valid()
      modifies this
      ensures Valid() && Keeps() && done == old(closed)
      ensures answers == if old(inflight).Some? then old(answers)[old(inflight).value := Acked] else old(answers)
      ensures pushed == old(pushed) && closed == old(closed)
      ensures queue == if done || old(queue) == [] then [] else old(queue)[1..]
      ensures !done ==>
                (inflight == if old(queue) != [] then Some(old(queue)[0]) else None) && (pulling <==> inflight.None?)
    {
      SettleInflight(true);
      if closed { return true; }
      pulling := true;
      Pump();
      done := false;
    }

    /** Turn everything away: what is with the loop is not acknowledged, and neither is what waits. */
    method Close()
      requires Books() && (closed ==> Valid())
      modifies this
      ensures Valid() && Keeps() && closed && pushed == old(pushed) && handed == old(handed)
      ensures !old(closed) ==> forall d: nat :: d < pushed && d !in old(answers) ==>
                d in answers && answers[d] == NotAcked
    {
      if closed { return; }
      SettleInflight(false);
      closed, pulling := true, false;
      ghost var settled := answers;
      while queue != []
        invariant handed <= pushed - |queue| && closed && !pulling && inflight.None?
        invariant forall i :: 0 <= i < |queue| ==> queue[i] == pushed - |queue| + i
        invariant forall d: nat :: d in answers <==> d < pushed - |queue|
        invariant forall d: nat :: d in settled ==> d in answers && answers[d] == settled[d]
        invariant forall d: nat :: d in answers && d !in settled ==> answers[d] == NotAcked
        invariant unchanged(`pushed) && unchanged(`handed)
        decreases |queue|
      {
        answers := answers[queue[0] := NotAcked];
        queue := queue[1..];
      }
    }

    /** The loop is left: the event it had counts as processed. */
    method Return()
      requires Valid()
      modifies this
      ensures Valid() && Keeps() && closed && pushed == old(pushed) && handed == old(handed)
      ensures (old(inflight).Some? ==> old(inflight).value in answers && answers[old(inflight).value] == Acked)
      ensures forall d: nat :: d < pushed && d !in old(answers) && old(inflight) != Some(d) ==>
                d in answers && answers[d] == NotAcked
    {
      SettleInflight(true);
      Close();
    }

    /** The loop body threw: the event it had will be delivered again. */
    method Throw()
      requires Valid()
      modifies this
      ensures Valid() && Keeps() && closed && pushed == old(pushed) && handed == old(handed)
      ensures forall d: nat :: d < pushed && d !in old(answers) ==> d in answers && answers[d] == NotAcked
    {
      SettleInflight(false);
      Close();
    }
  }
}
