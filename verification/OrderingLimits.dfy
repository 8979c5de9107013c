/** Why the ordering theorems assume what they assume: five runs of the delivery protocol. Two items have
    their own ordering keys; the first one is created, deleted and created again at the same version. */
module OrderingLimits {
  import opened Store
  import opened Diff
  import opened Pages
  import opened Delivery
  import EventId

  /** Ordered by subject, one attempt, and poison events hold their key. */
  const CFG := Config((e: Event) => e.subject, 1, true)

  /** Two items of some poller. */
  datatype Story = Story(p: Poller, subject: string, other: string, version: string, item: Item)

  function Born(t: Story, sequence: nat): OutboxRow {
    EventRow(t.p, Lane.Live, Created, t.subject, t.version, Some(t.item), sequence, 0)
  }

  function Gone(t: Story, sequence: nat): OutboxRow {
    EventRow(t.p, Reconcile, Deleted, t.subject, t.version, None, sequence, 0)
  }

  function Other(t: Story, sequence: nat): OutboxRow {
    EventRow(t.p, Lane.Live, Created, t.other, t.version, Some(t.item), sequence, 0)
  }

  /** Ids tell the events apart, as they do under every hash without collisions. */
  predicate Real(t: Story) {
    && t.subject != t.other && Born(t, 1).eventId != Gone(t, 2).eventId
    && Other(t, 3).eventId != Born(t, 1).eventId && Other(t, 3).eventId != Gone(t, 2).eventId
  }

  lemma HashedIdsAreReal(t: Story, hash: string -> string)
    requires forall a, b :: hash(a) == hash(b) ==> a == b
    requires t.p.eventId == EventId.IdOf(hash) && t.subject != t.other
    ensures Real(t)
  {
    var a := EventId.Parts(t.p.source, t.p.partition, t.subject, t.version, t.p.schemaVersion, Created);
    var b := EventId.Parts(t.p.source, t.p.partition, t.subject, t.version, t.p.schemaVersion, Deleted);
    var c := EventId.Parts(t.p.source, t.p.partition, t.other, t.version, t.p.schemaVersion, Created);
    EventId.IdsDetermineParts(hash, a, b);
    EventId.IdsDetermineParts(hash, a, c);
    EventId.IdsDetermineParts(hash, b, c);
  }

  // ---- where a run stands ---------------------------------------------------------------------

  /** Session 0 holds the lease; its sequence and drain, the groups of its crews, the outstanding events,
      and the histories. */
  datatype View = View(
    sequence: nat, drain: Drain, crews: map<nat, map<string, Group>>, outbox: map<string, OutboxRow>,
    parked: map<string, ParkedRow>, committed: map<nat, Event>, delivered: set<nat>, acked: seq<nat>)

  ghost predicate Stands(s: Sys, v: View) {
    && Has(s, 0) && Current(s, 0) && s.sessions[0] == Session(true, v.sequence, v.drain)
    && s.crews.Keys == v.crews.Keys && (forall c :: c in v.crews ==> s.crews[c] == Crew(s.leases[0], v.crews[c]))
    && s.rec.outbox == v.outbox && s.rec.parked == v.parked && s.committed == v.committed
    && s.delivered == v.delivered && s.discarded == {} && s.acked == v.acked
  }

  /** After `steps` from a fresh key, the run stands at `v`. */
  ghost predicate Leads(steps: seq<Step>, v: View) { forall s :: Init(s) ==> Stands(Run(CFG, s, steps), v) }

  lemma Then(s: Sys, steps: seq<Step>, step: Step)
    ensures Run(CFG, s, steps + [step]) == Apply(CFG, Run(CFG, s, steps), step)
  {
    assert (steps + [step])[..|steps|] == steps;
  }

  const EMPTY := View(0, Quiet, map[], map[], map[], map[], {}, [])
  const START := [Acquire(0, "w", 10, 0)] + [LoadState(0)]

  lemma Starts()
    ensures Leads(START, EMPTY)
  {
    forall s | Init(s) ensures Stands(Run(CFG, s, START), EMPTY) {
      assert [] + [Acquire(0, "w", 10, 0)] == [Acquire(0, "w", 10, 0)];
      Then(s, [], Acquire(0, "w", 10, 0));
      Then(s, [Acquire(0, "w", 10, 0)], LoadState(0));
    }
  }

  /** What one more step does, wherever the run stands like that. */
  ghost predicate Takes(v: View, step: Step, v': View) { forall s :: Stands(s, v) ==> Stands(Apply(CFG, s, step), v') }

  lemma More(steps: seq<Step>, v: View, step: Step, v': View)
    requires Leads(steps, v) && Takes(v, step, v')
    ensures Leads(steps + [step], v')
  {
    forall s | Init(s) ensures Stands(Run(CFG, s, steps + [step]), v') { Then(s, steps, step); }
  }

  // ---- steps ----------------------------------------------------------------------------------

  function AfterCommit(v: View, row: OutboxRow): View {
    v.(sequence := v.sequence + 1, outbox := v.outbox[row.eventId := row],
       committed := v.committed[v.sequence + 1 := row.event])
  }

  lemma OneRow(m: map<string, OutboxRow>, c: map<nat, Event>, row: OutboxRow)
    ensures PutOutbox(m, [row]) == m[row.eventId := row] && AddCommitted(c, [row]) == c[row.sequence := row.event]
  {
    assert [row][..0] == [];
    assert PutOutbox(m, []) == m && AddCommitted(c, []) == c;
  }

  lemma Commits(v: View, row: OutboxRow)
    requires v.drain.Quiet? && v.parked == map[] && NewRows([row], v.sequence) && row.sequence == v.sequence + 1
    ensures Takes(v, Commit(0, [row], [], 0), AfterCommit(v, row))
  {
    forall s | Stands(s, v) ensures Stands(Apply(CFG, s, Commit(0, [row], [], 0)), AfterCommit(v, row)) {
      OneRow(s.rec.outbox, s.committed, row);
      assert PutParked(s.rec.parked, []) == s.rec.parked;
      assert CanCommit(s, s.sessions[0], [row], []);
      assert Apply(CFG, s, Commit(0, [row], [], 0)) == Committing(s, 0, [row], [], 0);
    }
  }

  lemma Reads(v: View, rows: seq<OutboxRow>)
    requires v.drain.Quiet? && IsPendingPrefix(v.outbox, 10, rows)
    ensures Takes(v, LoadPending(0, 10, rows), v.(drain := Loading(rows)))
  {
  }

  function AfterHeld(v: View, c: nat, rows: seq<OutboxRow>): View {
    v.(drain := Draining(c), crews := v.crews[c := GroupsOf(CFG, rows, {})])
  }

  lemma Holds(v: View, rows: seq<OutboxRow>, c: nat)
    requires v.drain == Loading(rows) && v.parked == map[] && c !in v.crews
    ensures Takes(v, LoadHeld(0, c), AfterHeld(v, c, rows))
  {
    forall s | Stands(s, v) ensures Stands(Apply(CFG, s, LoadHeld(0, c)), AfterHeld(v, c, rows)) {
      assert HeldKeys(s.rec) == {};
    }
  }

  /** The group of `key` in crew `c` becomes `g`. */
  function Set(v: View, c: nat, key: string, g: Group): View
    requires c in v.crews
  {
    v.(crews := v.crews[c := WithGroup(v.crews[c], key, g)])
  }

  predicate At(v: View, c: nat, key: string, rows: seq<OutboxRow>, phase: GroupPhase) {
    rows != [] && c in v.crews && key in v.crews[c] && v.crews[c][key] == Group(rows, phase)
  }

  lemma Begins(v: View, c: nat, key: string, rows: seq<OutboxRow>)
    requires At(v, c, key, rows, Ready)
    ensures Takes(v, Start(c, key), Set(v, c, key, Group(rows, InFlight)))
  {
  }

  function AfterFinish(v: View, c: nat, key: string, rows: seq<OutboxRow>, ok: bool): View
    requires c in v.crews && rows != []
  {
    var delivered := if ok then v.delivered + {rows[0].sequence} else v.delivered;
    Set(v, c, key, Group(rows, Finished(ok))).(delivered := delivered)
  }

  lemma Ends(v: View, c: nat, key: string, rows: seq<OutboxRow>, ok: bool)
    requires At(v, c, key, rows, InFlight)
    ensures Takes(v, Finish(c, key, ok), AfterFinish(v, c, key, rows, ok))
  {
  }

  function AfterAck(v: View, c: nat, key: string, rows: seq<OutboxRow>, rest: Group): View
    requires c in v.crews && rows != []
  {
    Set(v, c, key, rest).(outbox := v.outbox - {rows[0].eventId}, acked := v.acked + [rows[0].sequence])
  }

  lemma Acks(v: View, c: nat, key: string, rows: seq<OutboxRow>)
    requires At(v, c, key, rows, Finished(true))
    ensures Takes(v, Ack(c, key), AfterAck(v, c, key, rows, Group(rows[1..], Ready)))
  {
    assert Elems([rows[0].eventId]) == {rows[0].eventId};
    forall s | Stands(s, v)
      ensures Stands(Apply(CFG, s, Ack(c, key)), AfterAck(v, c, key, rows, Group(rows[1..], Ready))) {
      assert Manned(s, c) && GroupOf(s, c, key) == Group(rows, Finished(true));
    }
  }

  lemma LosesReply(v: View, c: nat, key: string, rows: seq<OutboxRow>)
    requires At(v, c, key, rows, Finished(true))
    ensures Takes(v, AckLost(c, key), AfterAck(v, c, key, rows, Group(rows, Finished(false))))
  {
    assert Elems([rows[0].eventId]) == {rows[0].eventId};
    forall s | Stands(s, v)
      ensures Stands(Apply(CFG, s, AckLost(c, key)), AfterAck(v, c, key, rows, Group(rows, Finished(false))))
    {
      assert Manned(s, c) && GroupOf(s, c, key) == Group(rows, Finished(true));
    }
  }

  lemma GivesUp(v: View, c: nat, key: string, rows: seq<OutboxRow>, phase: GroupPhase)
    requires At(v, c, key, rows, phase)
    ensures Takes(v, Abandon(c, key), Set(v, c, key, Group([], Ready)))
  {
  }

  function Poisoned(row: OutboxRow): ParkedRow {
    ParkedRow(row.eventId, Poison, Some(row.event), 1, 0, Some(row.event.subject))
  }

  function AfterParking(v: View, c: nat, key: string, row: OutboxRow): View
    requires c in v.crews
  {
    Set(v, c, key, Group([], Ready)).(
      outbox := v.outbox - {row.eventId}, parked := v.parked[row.eventId := Poisoned(row)])
  }

  lemma Parks(v: View, c: nat, key: string, rows: seq<OutboxRow>)
    requires At(v, c, key, rows, Finished(false)) && rows[0].attempts == 0 && rows[0].eventId == rows[0].event.id
    ensures Takes(v, Park(c, key, 0), AfterParking(v, c, key, rows[0]))
  {
    forall s | Stands(s, v) ensures Stands(Apply(CFG, s, Park(c, key, 0)), AfterParking(v, c, key, rows[0])) {
      ParkStep(s, c, key, rows);
    }
  }

  lemma ParkStep(s: Sys, c: nat, key: string, rows: seq<OutboxRow>)
    requires Manned(s, c) && HasGroup(s, c, key) && GroupOf(s, c, key) == Group(rows, Finished(false))
    requires rows[0].attempts == 0
    ensures
      Apply(CFG, s, Park(c, key, 0))
      == SetGroup(Moved(s, c, ParkEvent(s.rec, Poisoned(rows[0]))), c, key, Group([], Ready))
  {
    assert ParkedOf(CFG, rows[0], 0) == Poisoned(rows[0]);
  }

  lemma EndsPass(v: View, c: nat)
    requires v.drain == Draining(c) && c in v.crews && v.crews[c] == map[]
    ensures Takes(v, EndPass(0), v.(drain := Quiet))
  {
  }

  lemma Throws(v: View, c: nat, left: set<string>)
    requires v.drain == Draining(c) && c in v.crews
    ensures Takes(v, DrainThrows(0, left), v.(drain := Quiet, crews := v.crews[c := Restrict(v.crews[c], left)]))
  {
  }

  lemma Retries(v: View, id: string)
    requires id in v.parked && v.parked[id].kind == Poison && v.parked[id].event.Some?
    requires v.parked[id].event.value.id == id
    ensures Takes(v, Retry([id]), v.(outbox := v.outbox[id := FreshRow(v.parked[id])], parked := v.parked - {id}))
  {
    forall s | Stands(s, v)
      ensures
        var v' := v.(outbox := v.outbox[id := FreshRow(v.parked[id])], parked := v.parked - {id});
        Stands(Apply(CFG, s, Retry([id])), v')
    {
      assert [id][..0] == [] && RetryParked(s.rec, []) == s.rec;
      assert RetryParked(s.rec, [id]) == RetryOne(s.rec, id);
    }
  }

  // ---- groups and pending rows ------------------------------------------------------------------

  lemma {:induction false} OneKey(rows: seq<OutboxRow>, key: string)
    requires forall r :: r in rows ==> r.event.subject == key
    ensures RowsOf(CFG, rows, key) == rows
  {
    if rows == [] {
    } else {
      assert rows == rows[..|rows| - 1] + [rows[|rows| - 1]];
      OneKey(rows[..|rows| - 1], key);
    }
  }

  lemma OneGroup(rows: seq<OutboxRow>, key: string)
    requires rows != [] && forall r :: r in rows ==> r.event.subject == key
    ensures GroupsOf(CFG, rows, {}) == map[key := Group(rows, Ready)]
  {
    OneKey(rows, key);
    assert rows[0] in rows && CFG.key(rows[0].event) == key;
  }

  lemma ThreeOf(a: OutboxRow, b: OutboxRow, c: OutboxRow, key: string)
    ensures
      RowsOf(CFG, [a, b, c], key)
      == (if a.event.subject == key then [a] else []) + (if b.event.subject == key then [b] else [])
         + (if c.event.subject == key then [c] else [])
  {
    assert [a, b, c][..2] == [a, b] && [a, b][..1] == [a] && [a][..0] == [];
    assert RowsOf(CFG, [], key) == [];
    assert RowsOf(CFG, [a], key) == if a.event.subject == key then [a] else [];
  }

  lemma TwoGroups(a: OutboxRow, b: OutboxRow, c: OutboxRow)
    requires a.event.subject == b.event.subject != c.event.subject
    ensures
      GroupsOf(CFG, [a, b, c], {})
      == map[a.event.subject := Group([a, b], Ready), c.event.subject := Group([c], Ready)]
  {
    var rows, k, o := [a, b, c], a.event.subject, c.event.subject;
    TheirRows(a, b, c);
    TheirKeys(a, b, c);
    var gs, m := GroupsOf(CFG, rows, {}), map[k := Group([a, b], Ready), o := Group([c], Ready)];
    assert gs.Keys == {k, o} && m.Keys == {k, o};
    assert gs[k] == m[k] && gs[o] == m[o];
  }

  lemma TheirRows(a: OutboxRow, b: OutboxRow, c: OutboxRow)
    requires a.event.subject == b.event.subject != c.event.subject
    ensures RowsOf(CFG, [a, b, c], a.event.subject) == [a, b] && RowsOf(CFG, [a, b, c], c.event.subject) == [c]
  {
    ThreeOf(a, b, c, a.event.subject);
    ThreeOf(a, b, c, c.event.subject);
  }

  lemma TheirKeys(a: OutboxRow, b: OutboxRow, c: OutboxRow)
    requires a.event.subject == b.event.subject
    ensures (set r | r in [a, b, c] :: CFG.key(r.event)) == {a.event.subject, c.event.subject}
  {
    var rows := [a, b, c];
    assert rows[0] == a && rows[1] == b && rows[2] == c;
    forall r | r in rows ensures r == a || r == b || r == c {}
  }

  lemma OnePending(row: OutboxRow)
    requires row.status == Pending
    ensures IsPendingPrefix(map[row.eventId := row], 10, [row])
  {
    assert PendingIds(map[row.eventId := row]) == {row.eventId};
  }

  lemma TwoPending(a: OutboxRow, b: OutboxRow)
    requires a.status == Pending && b.status == Pending && a.eventId != b.eventId && a.sequence < b.sequence
    ensures IsPendingPrefix(map[a.eventId := a, b.eventId := b], 10, [a, b])
  {
    var outbox, rows := map[a.eventId := a, b.eventId := b], [a, b];
    assert PendingIds(outbox) == {a.eventId, b.eventId};
    forall id, i | id in PendingIds(outbox) && 0 <= i < |rows| && outbox[id].sequence < rows[i].sequence
      ensures exists j :: 0 <= j < i && rows[j] == outbox[id]
    {
      assert id == a.eventId && i == 1 && rows[0] == outbox[id];
    }
  }

  lemma ThreePending(a: OutboxRow, b: OutboxRow, c: OutboxRow)
    requires a.status == Pending && b.status == Pending && c.status == Pending && a.sequence < b.sequence < c.sequence
    requires a.eventId != b.eventId && a.eventId != c.eventId && b.eventId != c.eventId
    ensures IsPendingPrefix(map[a.eventId := a, b.eventId := b, c.eventId := c], 10, [a, b, c])
  {
    var outbox := map[a.eventId := a, b.eventId := b, c.eventId := c];
    ThreeIds(outbox, a, b, c);
    PrefixOfThree(outbox, a, b, c);
  }

  lemma ThreeIds(outbox: map<string, OutboxRow>, a: OutboxRow, b: OutboxRow, c: OutboxRow)
    requires a.status == Pending && b.status == Pending && c.status == Pending
    requires a.eventId != b.eventId && a.eventId != c.eventId && b.eventId != c.eventId
    requires outbox == map[a.eventId := a, b.eventId := b, c.eventId := c]
    ensures PendingIds(outbox) == {a.eventId, b.eventId, c.eventId} && |PendingIds(outbox)| == 3
    ensures outbox[a.eventId] == a && outbox[b.eventId] == b && outbox[c.eventId] == c
  {
    assert PendingIds(outbox) == {a.eventId, b.eventId, c.eventId};
    assert {a.eventId, b.eventId, c.eventId} == {a.eventId, b.eventId} + {c.eventId};
  }

  lemma PrefixOfThree(outbox: map<string, OutboxRow>, a: OutboxRow, b: OutboxRow, c: OutboxRow)
    requires a.eventId != b.eventId && a.eventId != c.eventId && b.eventId != c.eventId
    requires a.sequence < b.sequence < c.sequence && a.eventId in outbox && b.eventId in outbox && c.eventId in outbox
    requires PendingIds(outbox) == {a.eventId, b.eventId, c.eventId} && |PendingIds(outbox)| == 3
    requires outbox[a.eventId] == a && outbox[b.eventId] == b && outbox[c.eventId] == c
    ensures IsPendingPrefix(outbox, 10, [a, b, c])
  {
    var rows := [a, b, c];
    assert rows[0] == a && rows[1] == b && rows[2] == c;
    forall i | 0 <= i < 3 ensures rows[i].eventId in PendingIds(outbox) && outbox[rows[i].eventId] == rows[i] {
      assert i == 0 || i == 1 || i == 2;
    }
    forall i, j | 0 <= i < j < 3 ensures rows[i].sequence <= rows[j].sequence && rows[i].eventId != rows[j].eventId {
      assert (i == 0 && j == 1) || (i == 0 && j == 2) || (i == 1 && j == 2);
    }
    forall id, i | id in PendingIds(outbox) && 0 <= i < 3 && outbox[id].sequence < rows[i].sequence
      ensures exists j :: 0 <= j < i && rows[j] == outbox[id]
    {
      EarlierOfThree(outbox, a, b, c, id, i);
    }
  }

  lemma EarlierOfThree(outbox: map<string, OutboxRow>, a: OutboxRow, b: OutboxRow, c: OutboxRow, id: string, i: nat)
    requires a.sequence < b.sequence < c.sequence && i < 3 && id in outbox
    requires id == a.eventId || id == b.eventId || id == c.eventId
    requires a.eventId in outbox && b.eventId in outbox && c.eventId in outbox
    requires outbox[a.eventId] == a && outbox[b.eventId] == b && outbox[c.eventId] == c
    requires outbox[id].sequence < [a, b, c][i].sequence
    ensures exists j :: 0 <= j < i && [a, b, c][j] == outbox[id]
  {
    var rows := [a, b, c];
    assert rows[0] == a && rows[1] == b && rows[2] == c;
    var j := if outbox[id] == a then 0 else 1;
    assert j < i && rows[j] == outbox[id];
  }

  // ---- two commits, and a drain whose first delivery fails for good ------------------------------

  function Both(t: Story): View {
    View(2, Quiet, map[], map[Born(t, 1).eventId := Born(t, 1), Gone(t, 2).eventId := Gone(t, 2)], map[],
         map[1 := Born(t, 1).event, 2 := Gone(t, 2).event], {}, [])
  }

  function TwoCommits(t: Story): seq<Step> {
    START + [Commit(0, [Born(t, 1)], [], 0)] + [Commit(0, [Gone(t, 2)], [], 0)]
  }

  lemma Committed(t: Story)
    requires Real(t)
    ensures Leads(TwoCommits(t), Both(t))
  {
    var one := AfterCommit(EMPTY, Born(t, 1));
    Starts();
    Commits(EMPTY, Born(t, 1));
    More(START, EMPTY, Commit(0, [Born(t, 1)], [], 0), one);
    Commits(one, Gone(t, 2));
    More(START + [Commit(0, [Born(t, 1)], [], 0)], one, Commit(0, [Gone(t, 2)], [], 0), AfterCommit(one, Gone(t, 2)));
    assert AfterCommit(one, Gone(t, 2)) == Both(t);
  }

  function Load(steps: seq<Step>, rows: seq<OutboxRow>, c: nat): seq<Step> {
    steps + [LoadPending(0, 10, rows)] + [LoadHeld(0, c)]
  }

  lemma Loads(steps: seq<Step>, v: View, rows: seq<OutboxRow>, c: nat)
    requires Leads(steps, v) && v.drain.Quiet? && v.parked == map[] && c !in v.crews
    requires IsPendingPrefix(v.outbox, 10, rows)
    ensures Leads(Load(steps, rows, c), AfterHeld(v, c, rows))
  {
    Reads(v, rows);
    More(steps, v, LoadPending(0, 10, rows), v.(drain := Loading(rows)));
    Holds(v.(drain := Loading(rows)), rows, c);
    assert AfterHeld(v.(drain := Loading(rows)), c, rows) == AfterHeld(v, c, rows);
    More(steps + [LoadPending(0, 10, rows)], v.(drain := Loading(rows)), LoadHeld(0, c), AfterHeld(v, c, rows));
  }

  function Deliver(steps: seq<Step>, c: nat, key: string, ok: bool): seq<Step> {
    steps + [Start(c, key)] + [Finish(c, key, ok)]
  }

  lemma Delivers(steps: seq<Step>, v: View, c: nat, key: string, rows: seq<OutboxRow>, ok: bool)
    requires Leads(steps, v) && At(v, c, key, rows, Ready)
    ensures Leads(Deliver(steps, c, key, ok), AfterFinish(v, c, key, rows, ok))
  {
    var v1 := Set(v, c, key, Group(rows, InFlight));
    Begins(v, c, key, rows);
    More(steps, v, Start(c, key), v1);
    Ends(v1, c, key, rows, ok);
    SetTwice(v, c, key, Group(rows, InFlight), Group(rows, Finished(ok)));
    assert AfterFinish(v1, c, key, rows, ok) == AfterFinish(v, c, key, rows, ok);
    More(steps + [Start(c, key)], v1, Finish(c, key, ok), AfterFinish(v, c, key, rows, ok));
  }

  lemma SetTwice(v: View, c: nat, key: string, g: Group, g': Group)
    requires c in v.crews && g.rows != []
    ensures Set(Set(v, c, key, g), c, key, g') == Set(v, c, key, g')
  {
    assert WithGroup(WithGroup(v.crews[c], key, g), key, g') == WithGroup(v.crews[c], key, g');
  }

  /** A crew with the one group of the key `k`. */
  function Crewed(v: View, c: nat, k: string, g: Group): View { v.(crews := v.crews[c := map[k := g]]) }

  lemma SetOnly(v: View, c: nat, k: string, g: Group, g': Group)
    requires g'.rows != []
    ensures Set(Crewed(v, c, k, g), c, k, g') == Crewed(v, c, k, g')
  {
    assert map[k := g][k := g'] == map[k := g'];
  }

  // ---- an administrator retries between the two reads of a drain --------------------------------

  function FailAndPark(t: Story): seq<Step> {
    Deliver(Load(TwoCommits(t), [Born(t, 1), Gone(t, 2)], 0), 0, t.subject,
            false) + [Park(0, t.subject, 0)] + [EndPass(0)]
  }

  function Parked(t: Story): View {
    Both(t).(crews := map[0 := map[]], outbox := map[Gone(t, 2).eventId := Gone(t, 2)],
             parked := map[Born(t, 1).eventId := Poisoned(Born(t, 1))])
  }

  lemma Fails(t: Story)
    requires Real(t)
    ensures Leads(FailAndPark(t), Parked(t))
  {
    var a, b, k := Born(t, 1), Gone(t, 2), t.subject;
    var rows, steps := [a, b], Load(TwoCommits(t), [a, b], 0);
    Committed(t);
    TwoPending(a, b);
    Loads(TwoCommits(t), Both(t), rows, 0);
    OneGroup(rows, k);
    var loaded := Both(t).(drain := Draining(0));
    assert AfterHeld(Both(t), 0, rows) == Crewed(loaded, 0, k, Group(rows, Ready));
    Delivers(steps, Crewed(loaded, 0, k, Group(rows, Ready)), 0, k, rows, false);
    SetOnly(loaded, 0, k, Group(rows, Ready), Group(rows, Finished(false)));
    var v1 := Crewed(loaded, 0, k, Group(rows, Finished(false)));
    FailsAt(t, steps, v1, rows, k);
  }

  lemma FailsAt(t: Story, steps: seq<Step>, v1: View, rows: seq<OutboxRow>, k: string)
    requires Real(t) && rows == [Born(t, 1), Gone(t, 2)] && k == t.subject
    requires v1 == Crewed(Both(t).(drain := Draining(0)), 0, k, Group(rows, Finished(false)))
    requires Leads(Deliver(steps, 0, k, false), v1)
    ensures Leads(Deliver(steps, 0, k, false) + [Park(0, k, 0)] + [EndPass(0)], Parked(t))
  {
    var a := Born(t, 1);
    Parks(v1, 0, k, rows);
    var v2 := AfterParking(v1, 0, k, a);
    More(Deliver(steps, 0, k, false), v1, Park(0, k, 0), v2);
    assert v2.crews[0] == map[];
    EndsPass(v2, 0);
    More(Deliver(steps, 0, k, false) + [Park(0, k, 0)], v2, EndPass(0), v2.(drain := Quiet));
    assert v2.(drain := Quiet) == Parked(t);
  }

  function RetryInGap(t: Story): seq<Step> {
    FailAndPark(t) + [LoadPending(0, 10, [Gone(t, 2)])] + [Retry([Born(t, 1).eventId])] + [LoadHeld(0, 1)]
  }

  /** With the retry between the two reads, the second event of the key is about to be delivered while
      the first is neither delivered nor discarded. */
  lemma RetryInGapBreaksOrder(t: Story, s: Sys)
    requires Real(t) && Init(s)
    ensures
      var s' := Run(CFG, s, RetryInGap(t));
      && HasGroup(s', 1, t.subject) && GroupOf(s', 1, t.subject) == Group([Gone(t, 2)], Ready)
      && s'.committed == map[1 := Born(t, 1).event, 2 := Gone(t, 2).event] && s'.delivered == {} && s'.discarded == {}
  {
    var a, b, v := Born(t, 1), Gone(t, 2), Parked(t);
    Fails(t);
    OnePending(b);
    Reads(v, [b]);
    var v1 := v.(drain := Loading([b]));
    More(FailAndPark(t), v, LoadPending(0, 10, [b]), v1);
    Retries(v1, a.eventId);
    var v2 := v1.(outbox := v1.outbox[a.eventId := FreshRow(Poisoned(a))], parked := v1.parked - {a.eventId});
    More(FailAndPark(t) + [LoadPending(0, 10, [b])], v1, Retry([a.eventId]), v2);
    assert v2.parked == map[];
    Holds(v2, [b], 1);
    OneGroup([b], t.subject);
    var v3 := AfterHeld(v2, 1, [b]);
    More(FailAndPark(t) + [LoadPending(0, 10, [b])] + [Retry([a.eventId])], v2, LoadHeld(0, 1), v3);
    assert Stands(Run(CFG, s, RetryInGap(t)), v3);
  }

  // ---- an id committed again while it is pending ------------------------------------------------

  function Recommit(t: Story): seq<Step> {
    Load(TwoCommits(t) + [Commit(0, [Born(t, 3)], [], 0)], [Gone(t, 2), Born(t, 3)], 0)
  }

  /** Created, deleted and created again at the same version: the first event has the id of the third and
      is overwritten, so the second one is about to be delivered while the first is neither delivered
      nor discarded, and is stored nowhere. */
  lemma RecommitBreaksOrder(t: Story, s: Sys)
    requires Real(t) && Init(s)
    ensures
      var s' := Run(CFG, s, Recommit(t));
      && HasGroup(s', 0, t.subject) && GroupOf(s', 0, t.subject) == Group([Gone(t, 2), Born(t, 3)], Ready)
      && s'.committed == map[1 := Born(t, 1).event, 2 := Gone(t, 2).event, 3 := Born(t, 3).event]
      && s'.delivered == {} && s'.discarded == {} && s'.rec.parked == map[]
      && forall id :: id in s'.rec.outbox ==> s'.rec.outbox[id].sequence != 1
  {
    var b, c := Gone(t, 2), Born(t, 3);
    Recommitted(t);
    OneGroup([b, c], t.subject);
    assert Stands(Run(CFG, s, Recommit(t)), AfterHeld(AfterCommit(Both(t), c), 0, [b, c]));
  }

  lemma Recommitted(t: Story)
    requires Real(t)
    ensures Leads(Recommit(t), AfterHeld(AfterCommit(Both(t), Born(t, 3)), 0, [Gone(t, 2), Born(t, 3)]))
    ensures AfterCommit(Both(t), Born(t, 3)).outbox ==
              map[Gone(t, 2).eventId := Gone(t, 2), Born(t, 3).eventId := Born(t, 3)]
  {
    var b, c := Gone(t, 2), Born(t, 3);
    Committed(t);
    Commits(Both(t), c);
    var v := AfterCommit(Both(t), c);
    More(TwoCommits(t), Both(t), Commit(0, [c], [], 0), v);
    assert v.outbox == map[b.eventId := b, c.eventId := c];
    TwoPending(b, c);
    Loads(TwoCommits(t) + [Commit(0, [c], [], 0)], v, [b, c], 0);
  }

  // ---- an ack whose reply is lost ---------------------------------------------------------------

  function OneCommit(t: Story): seq<Step> { START + [Commit(0, [Born(t, 1)], [], 0)] }

  function One(t: Story): View {
    View(1, Quiet, map[], map[Born(t, 1).eventId := Born(t, 1)], map[], map[1 := Born(t, 1).event], {}, [])
  }

  lemma CommittedOne(t: Story)
    ensures Leads(OneCommit(t), One(t))
  {
    Starts();
    Commits(EMPTY, Born(t, 1));
    More(START, EMPTY, Commit(0, [Born(t, 1)], [], 0), AfterCommit(EMPTY, Born(t, 1)));
    assert AfterCommit(EMPTY, Born(t, 1)) == One(t);
  }

  /** Load and complete the one pending row. */
  lemma Completes(steps: seq<Step>, v: View, row: OutboxRow, c: nat, k: string)
    requires Leads(steps, v) && v.drain.Quiet? && v.parked == map[] && c !in v.crews && row.status == Pending
    requires v.outbox == map[row.eventId := row] && k == row.event.subject
    ensures
      var v1 := v.(drain := Draining(c), delivered := v.delivered + {row.sequence});
      Leads(Deliver(Load(steps, [row], c), c, k, true), Crewed(v1, c, k, Group([row], Finished(true))))
  {
    var loaded := v.(drain := Draining(c));
    OnePending(row);
    Loads(steps, v, [row], c);
    OneGroup([row], k);
    assert AfterHeld(v, c, [row]) == Crewed(loaded, c, k, Group([row], Ready));
    Delivers(Load(steps, [row], c), Crewed(loaded, c, k, Group([row], Ready)), c, k, [row], true);
    SetOnly(loaded, c, k, Group([row], Ready), Group([row], Finished(true)));
  }

  function LostReply(t: Story): seq<Step> {
    Deliver(Load(OneCommit(t), [Born(t, 1)], 0), 0, t.subject, true)
    + [AckLost(0, t.subject)] + [Park(0, t.subject, 0)] + [EndPass(0)] + [Retry([Born(t, 1).eventId])]
  }

  function Again(t: Story): View { One(t).(crews := map[0 := map[]], delivered := {1}, acked := [1]) }

  lemma ParkedAfterAck(t: Story)
    ensures Leads(LostReply(t), Again(t))
  {
    var a, k, steps := Born(t, 1), t.subject, Deliver(Load(OneCommit(t), [Born(t, 1)], 0), 0, t.subject, true);
    CommittedOne(t);
    Completes(OneCommit(t), One(t), a, 0, k);
    var v := Crewed(One(t).(drain := Draining(0), delivered := {} + {1}), 0, k, Group([a], Finished(true)));
    LosesReply(v, 0, k, [a]);
    var v1 := AfterAck(v, 0, k, [a], Group([a], Finished(false)));
    More(steps, v, AckLost(0, k), v1);
    Parks(v1, 0, k, [a]);
    var v2 := AfterParking(v1, 0, k, a);
    More(steps + [AckLost(0, k)], v1, Park(0, k, 0), v2);
    assert v2.crews[0] == map[];
    EndsPass(v2, 0);
    var v3 := v2.(drain := Quiet);
    More(steps + [AckLost(0, k)] + [Park(0, k, 0)], v2, EndPass(0), v3);
    Retries(v3, a.eventId);
    var v4 := v3.(outbox := v3.outbox[a.eventId := FreshRow(Poisoned(a))], parked := v3.parked - {a.eventId});
    More(steps + [AckLost(0, k)] + [Park(0, k, 0)] + [EndPass(0)], v3, Retry([a.eventId]), v4);
    assert v4 == Again(t);
  }

  /** The reply to an applied ack is lost, the event is parked and retried, and acked a second time. */
  lemma LostReplyAcksTwice(t: Story, s: Sys)
    requires Init(s)
    ensures Run(CFG, s, Deliver(Load(LostReply(t), [Born(t, 1)], 1), 1, t.subject, true) + [Ack(1, t.subject)]).acked ==
              [1, 1]
  {
    var a, k, steps := Born(t, 1), t.subject, Deliver(Load(LostReply(t), [Born(t, 1)], 1), 1, t.subject, true);
    ParkedAfterAck(t);
    Completes(LostReply(t), Again(t), a, 1, k);
    var v := Crewed(Again(t).(drain := Draining(1), delivered := {1} + {1}), 1, k, Group([a], Finished(true)));
    Acks(v, 1, k, [a]);
    var v1 := AfterAck(v, 1, k, [a], Group([a][1..], Ready));
    More(steps, v, Ack(1, k), v1);
    assert Stands(Run(CFG, s, steps + [Ack(1, k)]), v1);
  }

  // ---- a worker that outlives its drain ---------------------------------------------------------

  function Three(t: Story): View {
    View(3, Quiet, map[],
         map[Born(t, 1).eventId := Born(t, 1), Gone(t, 2).eventId := Gone(t, 2), Other(t, 3).eventId := Other(t, 3)],
         map[], map[1 := Born(t, 1).event, 2 := Gone(t, 2).event, 3 := Other(t, 3).event], {}, [])
  }

  function ThreeCommits(t: Story): seq<Step> { TwoCommits(t) + [Commit(0, [Other(t, 3)], [], 0)] }

  lemma CommittedThree(t: Story)
    requires Real(t)
    ensures Leads(ThreeCommits(t), Three(t))
  {
    Committed(t);
    Commits(Both(t), Other(t, 3));
    More(TwoCommits(t), Both(t), Commit(0, [Other(t, 3)], [], 0), AfterCommit(Both(t), Other(t, 3)));
    assert AfterCommit(Both(t), Other(t, 3)) == Three(t);
  }

  /** One worker is delivering the first event while another one, of the other key, fails at the store: the
      drain throws, and the first worker goes on. */
  function Outlives(t: Story): seq<Step> {
    Deliver(Begun(t), 0, t.other, false) + [Abandon(0, t.other)] + [DrainThrows(0, {t.subject})]
  }

  function Left(t: Story): View {
    Three(t).(crews := map[0 := map[t.subject := Group([Born(t, 1), Gone(t, 2)], InFlight)]])
  }

  /** Both keys are being worked on, at the given phases. */
  function Busy(t: Story, first: GroupPhase, second: GroupPhase): View {
    Three(t).(drain := Draining(0),
              crews := map[0 := map[t.subject := Group([Born(t, 1), Gone(t, 2)], first),
                                    t.other := Group([Other(t, 3)], second)]])
  }

  function Begun(t: Story): seq<Step> {
    Load(ThreeCommits(t), [Born(t, 1), Gone(t, 2), Other(t, 3)], 0) + [Start(0, t.subject)]
  }

  lemma FirstLoads(t: Story)
    requires Real(t)
    ensures Leads(Load(ThreeCommits(t), [Born(t, 1), Gone(t, 2), Other(t, 3)], 0), Busy(t, Ready, Ready))
  {
    var a, b, c := Born(t, 1), Gone(t, 2), Other(t, 3);
    CommittedThree(t);
    ThreePending(a, b, c);
    Loads(ThreeCommits(t), Three(t), [a, b, c], 0);
    TwoGroups(a, b, c);
    assert AfterHeld(Three(t), 0, [a, b, c]) == Busy(t, Ready, Ready);
  }

  lemma BothBusy(t: Story)
    requires Real(t)
    ensures Leads(Begun(t), Busy(t, InFlight, Ready))
  {
    var rows, k := [Born(t, 1), Gone(t, 2)], t.subject;
    FirstLoads(t);
    Begins(Busy(t, Ready, Ready), 0, k, rows);
    var v := Set(Busy(t, Ready, Ready), 0, k, Group(rows, InFlight));
    assert v.crews[0] == Busy(t, InFlight, Ready).crews[0];
    assert v == Busy(t, InFlight, Ready);
    More(Load(ThreeCommits(t), [Born(t, 1), Gone(t, 2), Other(t, 3)], 0), Busy(t, Ready, Ready), Start(0, k), v);
  }

  lemma OtherFails(t: Story)
    requires Real(t)
    ensures Leads(Deliver(Begun(t), 0, t.other, false), Busy(t, InFlight, Finished(false)))
  {
    var c, o := Other(t, 3), t.other;
    BothBusy(t);
    Delivers(Begun(t), Busy(t, InFlight, Ready), 0, o, [c], false);
    var v := AfterFinish(Busy(t, InFlight, Ready), 0, o, [c], false);
    assert v.crews[0] == Busy(t, InFlight, Finished(false)).crews[0];
    assert v == Busy(t, InFlight, Finished(false));
  }

  lemma LeftBehind(t: Story)
    requires Real(t)
    ensures Leads(Outlives(t), Left(t))
  {
    var c, k, o, v := Other(t, 3), t.subject, t.other, Busy(t, InFlight, Finished(false));
    OtherFails(t);
    GivesUp(v, 0, o, [c], Finished(false));
    var v1 := Set(v, 0, o, Group([], Ready));
    More(Deliver(Begun(t), 0, o, false), v, Abandon(0, o), v1);
    Throws(v1, 0, {k});
    var v2 := v1.(drain := Quiet, crews := v1.crews[0 := Restrict(v1.crews[0], {k})]);
    More(Deliver(Begun(t), 0, o, false) + [Abandon(0, o)], v1, DrainThrows(0, {k}), v2);
    assert v2.crews[0] == Left(t).crews[0];
    assert v2 == Left(t);
  }

  /** The session drains again and acks both events of the key. */
  function SecondDrain(t: Story): seq<Step> {
    Deliver(Deliver(Reload(t), 1, t.subject, true) + [Ack(1, t.subject)], 1, t.subject, true) + [Ack(1, t.subject)]
  }

  /** The second drain at work on `rows` of the key, at `phase`, beside the worker left behind. */
  function Beside(t: Story, rows: seq<OutboxRow>, phase: GroupPhase): View {
    Left(t).(drain := Draining(1),
             crews := map[0 := map[t.subject := Group([Born(t, 1), Gone(t, 2)], InFlight)],
                          1 := map[t.subject := Group(rows, phase), t.other := Group([Other(t, 3)], Ready)]])
  }

  lemma BesideSet(t: Story, rows: seq<OutboxRow>, phase: GroupPhase, rows': seq<OutboxRow>, phase': GroupPhase)
    requires Real(t) && rows' != []
    ensures Set(Beside(t, rows, phase), 1, t.subject, Group(rows', phase')) == Beside(t, rows', phase')
  {
    var v := Set(Beside(t, rows, phase), 1, t.subject, Group(rows', phase'));
    assert v.crews[1] == Beside(t, rows', phase').crews[1];
  }

  function Reload(t: Story): seq<Step> { Load(Outlives(t), [Born(t, 1), Gone(t, 2), Other(t, 3)], 1) }

  lemma SecondLoads(t: Story)
    requires Real(t)
    ensures Leads(Reload(t), Beside(t, [Born(t, 1), Gone(t, 2)], Ready))
  {
    var a, b, c := Born(t, 1), Gone(t, 2), Other(t, 3);
    LeftBehind(t);
    ThreePending(a, b, c);
    Loads(Outlives(t), Left(t), [a, b, c], 1);
    TwoGroups(a, b, c);
    assert AfterHeld(Left(t), 1, [a, b, c]) == Beside(t, [a, b], Ready);
  }

  function FirstAcked(t: Story): View {
    Beside(t, [Gone(t, 2)], Ready).(outbox := Left(t).outbox - {Born(t, 1).eventId}, delivered := {1}, acked := [1])
  }

  lemma FirstAcks(t: Story)
    requires Real(t)
    ensures Leads(Deliver(Reload(t), 1, t.subject, true) + [Ack(1, t.subject)], FirstAcked(t))
  {
    var a, b, k := Born(t, 1), Gone(t, 2), t.subject;
    SecondLoads(t);
    Delivers(Reload(t), Beside(t, [a, b], Ready), 1, k, [a, b], true);
    BesideSet(t, [a, b], Ready, [a, b], Finished(true));
    var v := Beside(t, [a, b], Finished(true)).(delivered := {} + {1});
    assert AfterFinish(Beside(t, [a, b], Ready), 1, k, [a, b], true) == v;
    Acks(v, 1, k, [a, b]);
    assert [a, b][1..] == [b];
    BesideSet(t, [a, b], Finished(true), [b], Ready);
    assert AfterAck(v, 1, k, [a, b], Group([b], Ready)) == FirstAcked(t);
    More(Deliver(Reload(t), 1, k, true), v, Ack(1, k), FirstAcked(t));
  }

  function SecondDone(t: Story): View {
    Beside(t, [Gone(t, 2)], Finished(true)).(
      outbox := FirstAcked(t).outbox, delivered := {1} + {2}, acked := [1])
  }

  lemma SecondDelivered(t: Story)
    requires Real(t)
    ensures Leads(Deliver(Deliver(Reload(t), 1, t.subject, true) + [Ack(1, t.subject)], 1, t.subject, true),
                  SecondDone(t))
  {
    var b, k := Gone(t, 2), t.subject;
    FirstAcks(t);
    Delivers(Deliver(Reload(t), 1, k, true) + [Ack(1, k)], FirstAcked(t), 1, k, [b], true);
    BesideSet(t, [b], Ready, [b], Finished(true));
    assert AfterFinish(FirstAcked(t), 1, k, [b], true) == SecondDone(t);
  }

  lemma SecondAcks(t: Story)
    requires Real(t)
    ensures Leads(SecondDrain(t), TwoAcked(t))
  {
    var b, k := Gone(t, 2), t.subject;
    SecondDelivered(t);
    Acks(SecondDone(t), 1, k, [b]);
    More(Deliver(Deliver(Reload(t), 1, k, true) + [Ack(1, k)], 1, k, true), SecondDone(t), Ack(1, k),
         AfterAck(SecondDone(t), 1, k, [b], Group([b][1..], Ready)));
    LastOfKey(t);
  }

  lemma LastOfKey(t: Story)
    requires Real(t)
    ensures AfterAck(SecondDone(t), 1, t.subject, [Gone(t, 2)], Group([Gone(t, 2)][1..], Ready)) == TwoAcked(t)
  {
    OnlyOther(t);
    var v := AfterAck(SecondDone(t), 1, t.subject, [Gone(t, 2)], Group([Gone(t, 2)][1..], Ready));
    var crew := map[t.subject := Group([Gone(t, 2)], Finished(true)), t.other := Group([Other(t, 3)], Ready)];
    assert WithGroup(crew, t.subject, Group([Gone(t, 2)][1..], Ready)) == map[t.other := Group([Other(t, 3)], Ready)];
    assert v.crews == TwoAcked(t).crews;
  }

  lemma OnlyOther(t: Story)
    requires Real(t)
    ensures Three(t).outbox - {Born(t, 1).eventId} - {Gone(t, 2).eventId} == map[Other(t, 3).eventId := Other(t, 3)]
  {
  }

  /** The worker left behind finishes and its ack is accepted. */
  lemma LateAck(steps: seq<Step>, v: View, t: Story) returns (v': View)
    requires Leads(steps, v) && At(v, 0, t.subject, [Born(t, 1), Gone(t, 2)], InFlight)
    ensures Leads(steps + [Finish(0, t.subject, true)] + [Ack(0, t.subject)], v')
    ensures v'.acked == v.acked + [1] && v'.outbox == v.outbox - {Born(t, 1).eventId} && v'.parked == v.parked
    ensures v'.committed == v.committed && v'.delivered == v.delivered + {1}
  {
    var rows, k := [Born(t, 1), Gone(t, 2)], t.subject;
    Ends(v, 0, k, rows, true);
    var v1 := AfterFinish(v, 0, k, rows, true);
    More(steps, v, Finish(0, k, true), v1);
    Acks(v1, 0, k, rows);
    v' := AfterAck(v1, 0, k, rows, Group(rows[1..], Ready));
    More(steps + [Finish(0, k, true)], v1, Ack(0, k), v');
  }

  /** The worker left behind finishes the first event and its ack is accepted: the acks of the key go back,
      with no lost reply, no retry and fresh ids. */
  lemma OutlivingWorkerAcksBack(t: Story, s: Sys)
    requires Real(t) && Init(s)
    ensures Run(CFG, s, SecondDrain(t) + [Finish(0, t.subject, true)] + [Ack(0, t.subject)]).acked == [1, 2, 1]
  {
    SecondAcks(t);
    var v := LateAck(SecondDrain(t), TwoAcked(t), t);
    assert Stands(Run(CFG, s, SecondDrain(t) + [Finish(0, t.subject, true)] + [Ack(0, t.subject)]), v);
  }

  // ---- the same worker, after its event's id was committed again ---------------------------------

  /** The second drain also delivers the other item and ends; the item is then created again. */
  function Reborn(t: Story): seq<Step> {
    Deliver(SecondDrain(t), 1, t.other, true) + [Ack(1, t.other)] + [EndPass(0)] + [Commit(0, [Born(t, 4)], [], 0)]
  }

  /** All three were acked, and the first worker is still at it. */
  function AllAcked(t: Story): View {
    Left(t).(crews := map[0 := map[t.subject := Group([Born(t, 1), Gone(t, 2)], InFlight)], 1 := map[]],
             outbox := map[], delivered := {1, 2, 3}, acked := [1, 2, 3])
  }

  function TwoAcked(t: Story): View {
    AllAcked(t).(drain := Draining(1),
                 crews := map[0 := map[t.subject := Group([Born(t, 1), Gone(t, 2)], InFlight)],
                              1 := map[t.other := Group([Other(t, 3)], Ready)]],
                 outbox := map[Other(t, 3).eventId := Other(t, 3)], delivered := {1, 2}, acked := [1, 2])
  }

  lemma AllAreAcked(t: Story)
    requires Real(t)
    ensures Leads(Deliver(SecondDrain(t), 1, t.other, true) + [Ack(1, t.other)] + [EndPass(0)], AllAcked(t))
  {
    var c, o, v, steps := Other(t, 3), t.other, TwoAcked(t), SecondDrain(t);
    SecondAcks(t);
    Delivers(steps, v, 1, o, [c], true);
    var v1 := AfterFinish(v, 1, o, [c], true);
    Acks(v1, 1, o, [c]);
    var v2 := AfterAck(v1, 1, o, [c], Group([c][1..], Ready));
    More(Deliver(steps, 1, o, true), v1, Ack(1, o), v2);
    assert v2.crews[1] == map[];
    EndsPass(v2, 1);
    More(Deliver(steps, 1, o, true) + [Ack(1, o)], v2, EndPass(0), v2.(drain := Quiet));
    assert v2.outbox == map[];
    assert v2.(drain := Quiet) == AllAcked(t);
  }

  /** The ack of the worker left behind removes the new row of that id: the fourth event is neither stored
      nor delivered nor discarded. */
  lemma OutlivingWorkerDropsRecommit(t: Story, s: Sys)
    requires Real(t) && Init(s)
    ensures
      var s' := Run(CFG, s, Reborn(t) + [Finish(0, t.subject, true)] + [Ack(0, t.subject)]);
      && 4 in s'.committed && s'.committed[4] == Born(t, 4).event && 4 !in s'.delivered && s'.discarded == {}
      && s'.rec.outbox == map[] && s'.rec.parked == map[]
  {
    var v := AfterCommit(AllAcked(t), Born(t, 4));
    IsReborn(t);
    var v' := LateAck(Reborn(t), v, t);
    assert v'.outbox == map[];
    assert Stands(Run(CFG, s, Reborn(t) + [Finish(0, t.subject, true)] + [Ack(0, t.subject)]), v');
  }

  lemma IsReborn(t: Story)
    requires Real(t)
    ensures Leads(Reborn(t), AfterCommit(AllAcked(t), Born(t, 4)))
  {
    AllAreAcked(t);
    Commits(AllAcked(t), Born(t, 4));
    More(Deliver(SecondDrain(t), 1, t.other, true) + [Ack(1, t.other)] + [EndPass(0)], AllAcked(t),
         Commit(0, [Born(t, 4)], [], 0), AfterCommit(AllAcked(t), Born(t, 4)));
  }
}
