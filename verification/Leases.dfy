/** Fencing over any number of sessions: who may write, and in which epoch order. */
module Leases {
  import opened Store

  /** What every reachable state satisfies: `leases` are the leases handed to the sessions still
      around, `granted` every epoch ever issued, `writes` the epoch of every accepted fenced write. */
  ghost predicate Inv(rec: KeyRecord, leases: map<nat, Lease>, granted: seq<nat>, writes: seq<nat>) {
    && (rec.lease.Some? ==> rec.lease.value.epoch == rec.epochCounter)
    && (forall s :: s in leases ==> leases[s].epoch in granted)
    && (forall s, t :: s in leases && t in leases && s != t ==> leases[s].epoch != leases[t].epoch)
    && StrictlyIncreasing(granted)
    && (forall e :: e in granted ==> e <= rec.epochCounter)
    && NonDecreasing(writes)
    && (forall e :: e in writes ==> e in granted)
  }

  ghost predicate StrictlyIncreasing(xs: seq<nat>) { forall i, j :: 0 <= i < j < |xs| ==> xs[i] < xs[j] }
  ghost predicate NonDecreasing(xs: seq<nat>) { forall i, j :: 0 <= i < j < |xs| ==> xs[i] <= xs[j] }

  /** At most one session passes the fence. */
  lemma Exclusive(rec: KeyRecord, leases: map<nat, Lease>, granted: seq<nat>, writes: seq<nat>, s: nat, t: nat)
    requires Inv(rec, leases, granted, writes) && s in leases && t in leases
    requires Fenced(rec, leases[s]) && Fenced(rec, leases[t])
    ensures s == t
  {
    assert leases[s].epoch == leases[t].epoch;
  }

  /** A new acquisition gets an epoch never issued before and fences everybody else out. */
  lemma Acquired(rec: KeyRecord, leases: map<nat, Lease>, granted: seq<nat>, writes: seq<nat>,
                 s: nat, owner: string, ttl: int, now: int)
    requires Inv(rec, leases, granted, writes) && s !in leases && CanAcquire(rec, owner, now)
    ensures
      var rec' := AcquireLease(rec, owner, ttl, now);
      var leases' := leases[s := rec'.lease.value];
      && rec'.epochCounter !in granted
      && Inv(rec', leases', granted + [rec'.epochCounter], writes)
      && Fenced(rec', leases'[s])
      && forall t :: t in leases ==> !Fenced(rec', leases[t])
  {
    var rec' := AcquireLease(rec, owner, ttl, now);
    assert forall i :: 0 <= i < |granted| ==> granted[i] in granted;
    assert rec'.epochCounter in granted + [rec'.epochCounter];
  }

  /** Steps that keep the lease's owner and epoch, or clear it, keep the invariant; so does losing sessions. */
  lemma Kept(rec: KeyRecord, rec': KeyRecord, leases: map<nat, Lease>, leases': map<nat, Lease>, granted: seq<nat>,
             writes: seq<nat>)
    requires Inv(rec, leases, granted, writes)
    requires rec'.epochCounter == rec.epochCounter
    requires rec'.lease.Some? ==> rec.lease.Some? && rec'.lease.value.epoch == rec.lease.value.epoch
    requires forall s :: s in leases' ==> s in leases && leases'[s] == leases[s]
    ensures Inv(rec', leases', granted, writes)
  {
  }

  /** An accepted write appends the newest epoch there is, whoever writes under the lease. */
  lemma WroteUnder(rec: KeyRecord, leases: map<nat, Lease>, granted: seq<nat>, writes: seq<nat>, lease: Lease)
    requires Inv(rec, leases, granted, writes) && lease.epoch in granted && Fenced(rec, lease)
    ensures Inv(rec, leases, granted, writes + [lease.epoch])
  {
    assert forall i :: 0 <= i < |writes| ==> writes[i] in writes;
  }

  lemma Wrote(rec: KeyRecord, leases: map<nat, Lease>, granted: seq<nat>, writes: seq<nat>, s: nat)
    requires Inv(rec, leases, granted, writes) && s in leases && Fenced(rec, leases[s])
    ensures Inv(rec, leases, granted, writes + [leases[s].epoch])
  {
    WroteUnder(rec, leases, granted, writes, leases[s]);
  }
}
