/** A follower whose log ends below its leader's retention horizon never catches up: the leader skips to its
    first record, the follower sees a gap and asks again from its own end. A new replica of a partition
    whose first records are gone is in that case, and so is the destination of every move of one. */
module Horizon {
  import opened Records
  import opened EpochHistory
  import opened PartitionLog
  import opened Metadata
  import opened Replication

  /** Everything in transit lies past the follower's next sequence. */
  predicate PastEnd(wire: seq<Record>, next: nat) {
    forall i :: 0 <= i < |wire| ==> wire[i].seqno > next
  }

  predicate SessionPast(r: Replica, m: Node) {
    match r.phase
    case Idle => true
    case Answered(server, _, _) => server == m
    case Streaming(server, _, wire) => server == m && PastEnd(wire, r.log.Next())
  }

  /** n does not lead, follows m or nobody, and ends below m's horizon. */
  predicate Starved(s: Cluster, n: Node, m: Node) {
    && n in s.nodes && m in s.nodes && n != m && !s.nodes[n].log.leading
    && s.nodes[n].log.Next() < s.nodes[m].log.first
    && (s.nodes[n].follow == m || s.nodes[n].follow == "") && SessionPast(s.nodes[n], m)
  }

  /** A pass of n over metadata that makes it the leader, or has it follow somebody other than m. */
  predicate Redirects(s: Cluster, step: Step, n: Node, m: Node) {
    && step.Pass? && step.n == n && n in s.nodes && s.nodes[n].view <= step.view < |s.history|
    && (Led(s.history[step.view], s.key, n) || Target(s.history[step.view], s.key, n) !in {m, ""})
  }

  lemma SettleShrinks(r: Replica, m: Node)
    requires r.log.WellFormed() && r.phase.Answered? && r.phase.server == m
    ensures AfterSettle(r).log.recs <= r.log.recs && AfterSettle(r).log.leading == r.log.leading
    ensures SessionPast(AfterSettle(r), m)
  {
  }

  lemma ShipsPast(r: Replica, leader: PLog, count: nat, m: Node)
    requires leader.WellFormed() && r.phase.Streaming? && SessionPast(r, m) && r.log.Next() < leader.first
    ensures SessionPast(AfterShip(r, leader, count), m)
  {
    var p, q := r.phase, AfterShip(r, leader, count).phase;
    forall i | 0 <= i < |q.wire| ensures q.wire[i].seqno > r.log.Next() {
      if i >= |p.wire| { assert q.wire[i] == leader.recs[p.from - 1 + (i - |p.wire|)]; }
    }
  }

  lemma DeliversNothing(r: Replica, drop: nat, m: Node)
    requires r.phase.Streaming? && r.phase.wire != [] && SessionPast(r, m)
    ensures AfterDeliver(r, drop).log == r.log && SessionPast(AfterDeliver(r, drop), m)
  {
  }

  lemma QueryKeeps(r: Replica, leader: PLog, m: Node)
    requires leader.WellFormed() && r.phase.Idle?
    ensures SessionPast(AfterQuery(r, m, leader), m)
  {
  }

  /** No step lowers a node's horizon. */
  lemma HorizonRises(s: Cluster, step: Step, m: Node)
    requires s.Shaped() && m in s.nodes
    ensures m in Exec(s, step).nodes && s.nodes[m].log.first <= Exec(s, step).nodes[m].log.first
  {
    if step.Commit? || step.n != m {
      OthersStand(s, step, m);
    } else {
      OwnHorizonRises(s, step, m);
    }
  }

  lemma OwnHorizonRises(s: Cluster, step: Step, m: Node)
    requires s.Shaped() && m in s.nodes && !step.Commit? && step.n == m
    ensures m in Exec(s, step).nodes && s.nodes[m].log.first <= Exec(s, step).nodes[m].log.first
  {
    hide AfterQuery, AfterSettle, AfterShip, AfterDeliver, ReconcilePass, PLog.Append, PLog.Retain;
    var r := s.nodes[m];
    match step
    case Pass(_, view, rebuilt) =>
      if r.view <= view < |s.history| { PassHorizon(r, s.history[view], s.key, m, view, rebuilt); }
    case LocalAppend(_, x) => AppendHorizon(r.log, x);
    case Settle(_) => if Settles(s, m) { SettleHorizon(r); }
    case Deliver(_, drop) => if Delivers(s, m) { DeliverHorizon(r, drop); }
    case Expire(_, first) => RetainHorizon(r.log, first);
    case _ =>
  }

  lemma PassHorizon(r: Replica, meta: Meta, k: PartitionKey, n: Node, view: nat, rebuilt: bool)
    ensures ReconcilePass(r, meta, k, n, view, rebuilt).log.first == r.log.first
  {
    hide Led, Target;
  }

  lemma AppendHorizon(p: PLog, x: Record)
    ensures p.Append(x).log.first == p.first
  {
  }

  lemma SettleHorizon(r: Replica)
    requires r.log.WellFormed() && r.phase.Answered?
    ensures AfterSettle(r).log.first == r.log.first
  {
  }

  lemma DeliverHorizon(r: Replica, drop: nat)
    requires r.phase.Streaming? && r.phase.wire != []
    ensures AfterDeliver(r, drop).log.first == r.log.first
  {
  }

  lemma RetainHorizon(p: PLog, first: nat)
    requires Sorted(p.hist)
    ensures p.Retain(first).first >= p.first
  {
  }

  /** What a step of the follower does to its log. */
  lemma FollowerStep(s: Cluster, step: Step, n: Node, m: Node)
    requires s.Shaped() && Starved(s, n, m) && !Redirects(s, step, n, m) && !step.Commit? && step.n == n
    ensures n in Exec(s, step).nodes
    ensures var q := Exec(s, step).nodes[n];
      q.log.recs <= s.nodes[n].log.recs && !q.log.leading && SessionPast(q, m) && (q.follow == m || q.follow == "")
  {
    hide AfterQuery, AfterSettle, AfterShip, AfterDeliver, SessionPast, ReconcilePass, PLog.Append, PLog.Retain;
    var r := s.nodes[n];
    PhaseFacts(r, m);
    match step
    case Pass(_, view, rebuilt) =>
      if r.view <= view < |s.history| { PassKeeps(r, s.history[view], s.key, n, m, view, rebuilt); }
    case Query(_) => if Asks(s, n) { QueryKeeps(r, s.nodes[m].log, m); }
    case Settle(_) => if Settles(s, n) { SettleShrinks(r, m); }
    case Ship(_, count) => if Streams(s, n) { ShipsPast(r, s.nodes[m].log, count, m); }
    case Deliver(_, drop) => if Delivers(s, n) { DeliversNothing(r, drop, m); }
    case Expire(_, first) => RetainKeepsSession(r, first, m);
    case _ => IdleKeeps(r, m);
  }

  lemma PhaseFacts(r: Replica, m: Node)
    requires SessionPast(r, m)
    ensures !r.phase.Idle? ==> r.phase.server == m
  {
  }

  lemma RetainKeepsSession(r: Replica, first: nat, m: Node)
    requires SessionPast(r, m) && Sorted(r.log.hist)
    ensures SessionPast(r.(log := r.log.Retain(first)), m) && r.log.Retain(first).recs == r.log.recs
    ensures r.log.Retain(first).leading == r.log.leading
  {
  }

  /** A pass that does not redirect keeps the session or drops it, and the log as it is. */
  lemma PassKeeps(r: Replica, meta: Meta, k: PartitionKey, n: Node, m: Node, view: nat, rebuilt: bool)
    requires SessionPast(r, m) && !r.log.leading && !Led(meta, k, n) && Target(meta, k, n) in {m, ""}
    ensures var q := ReconcilePass(r, meta, k, n, view, rebuilt);
      && q.log.recs == r.log.recs && !q.log.leading && SessionPast(q, m) && (q.follow == m || q.follow == "")
  {
    hide Led, Target;
  }

  lemma IdleKeeps(r: Replica, m: Node)
    ensures SessionPast(r.(phase := Idle), m)
    ensures SessionPast(r.(log := r.log.Resign(), promoted := 0, follow := "", phase := Idle), m)
  {
  }

  lemma StarvedStep(s: Cluster, step: Step, n: Node, m: Node)
    requires s.Shaped() && Starved(s, n, m) && !Redirects(s, step, n, m)
    ensures Starved(Exec(s, step), n, m) && Exec(s, step).nodes[n].log.recs <= s.nodes[n].log.recs
  {
    hide Exec, SessionPast, Redirects;
    HorizonRises(s, step, m);
    if !step.Commit? && step.n == n {
      FollowerStep(s, step, n, m);
    } else {
      OthersStand(s, step, n);
    }
  }

  ghost predicate NeverRedirects(s: Cluster, steps: seq<Step>, n: Node, m: Node)
    requires s.Shaped()
  {
    forall i :: 0 <= i < |steps| ==> !Redirects(Run(s, steps[..i]), steps[i], n, m)
  }

  /** Below the horizon there is no progress: over every run in which no pass redirects it, the follower's log
      gains no record, whatever is committed, shipped, delivered, asked, settled, reconciled or restarted. */
  lemma {:induction false} StarvedForever(s: Cluster, steps: seq<Step>, n: Node, m: Node)
    requires s.Shaped() && Starved(s, n, m) && NeverRedirects(s, steps, n, m)
    ensures Starved(Run(s, steps), n, m) && Run(s, steps).nodes[n].log.recs <= s.nodes[n].log.recs
    decreases |steps|
  {
    hide Exec, Starved, Redirects, Cluster.Shaped;
    InNodes(s, n, m);
    if steps != [] {
      var last := |steps| - 1;
      SoFar(s, steps, n, m, last);
      StarvedForever(s, steps[..last], n, m);
      var mid := Run(s, steps[..last]);
      InNodes(mid, n, m);
      StarvedStep(mid, steps[last], n, m);
    }
  }

  lemma SoFar(s: Cluster, steps: seq<Step>, n: Node, m: Node, k: nat)
    requires s.Shaped() && NeverRedirects(s, steps, n, m) && k <= |steps|
    ensures NeverRedirects(s, steps[..k], n, m)
  {
    hide Run, Redirects, Cluster.Shaped;
    forall i | 0 <= i < k ensures !Redirects(Run(s, steps[..k][..i]), steps[..k][i], n, m) {
      assert steps[..k][..i] == steps[..i];
    }
  }

  /** From version v on, the metadata has the partition led by m or by nobody. */
  predicate LedOnlyBy(history: seq<Meta>, k: PartitionKey, m: Node, v: nat) {
    forall i :: v <= i < |history| && k in history[i].partitions ==> history[i].partitions[k].leader in {m, ""}
  }

  lemma ViewRises(s: Cluster, step: Step, n: Node)
    requires s.Shaped() && n in s.nodes
    ensures n in Exec(s, step).nodes && s.nodes[n].view <= Exec(s, step).nodes[n].view
  {
    hide AfterQuery, AfterSettle, AfterShip, AfterDeliver, PLog.Append, PLog.Retain, Apply, ReconcilePass;
  }

  lemma {:induction false} PrefixFacts(s: Cluster, steps: seq<Step>, k: nat, n: Node)
    requires s.Shaped() && n in s.nodes && k <= |steps|
    ensures Run(s, steps[..k]).history <= Run(s, steps).history
    ensures n in Run(s, steps[..k]).nodes && s.nodes[n].view <= Run(s, steps[..k]).nodes[n].view
    decreases |steps|
  {
    hide Exec, Cluster.Shaped;
    if steps == [] {
      assert steps[..k] == steps;
    } else {
      var last := |steps| - 1;
      var mid := Run(s, steps[..last]);
      ExecKeepsShape(mid, steps[last]);
      PrefixFacts(s, steps[..last], if k <= last then k else last, n);
      if k <= last {
        assert steps[..last][..k] == steps[..k];
      } else {
        assert steps[..k] == steps && steps[..last][..last] == steps[..last];
        ViewRises(mid, steps[last], n);
      }
    }
  }

  /** No pass redirects the follower while the metadata names no leader but m. */
  lemma LedOnlyNeverRedirects(s: Cluster, steps: seq<Step>, n: Node, m: Node)
    requires s.Shaped() && n in s.nodes && n != m
    requires LedOnlyBy(Run(s, steps).history, s.key, m, s.nodes[n].view)
    ensures NeverRedirects(s, steps, n, m)
  {
    hide Run, Cluster.Shaped;
    forall i | 0 <= i < |steps| ensures !Redirects(Run(s, steps[..i]), steps[i], n, m) {
      PrefixFacts(s, steps, i, n);
    }
  }

  /** So a follower below the horizon of the partition's only leader never gains a record, whatever else happens. */
  lemma StarvedUnderLeader(s: Cluster, steps: seq<Step>, n: Node, m: Node)
    requires s.Shaped() && Starved(s, n, m)
    requires LedOnlyBy(Run(s, steps).history, s.key, m, s.nodes[n].view)
    ensures Starved(Run(s, steps), n, m) && Run(s, steps).nodes[n].log.recs <= s.nodes[n].log.recs
  {
    hide LedOnlyBy, NeverRedirects, Run, Cluster.Shaped;
    LedOnlyNeverRedirects(s, steps, n, m);
    StarvedForever(s, steps, n, m);
  }

  lemma InNodes(s: Cluster, n: Node, m: Node)
    requires Starved(s, n, m)
    ensures n in s.nodes && m in s.nodes
  {
  }

  /** The condition is exact: a session at its follower's end, with a record to fetch, gets it in one round
      if and only if the leader still has it. */
  lemma CatchesUpIff(s: Cluster, n: Node, m: Node)
    requires s.Shaped() && n in s.nodes && m in s.nodes && n != m
    requires s.nodes[n].phase == Streaming(m, s.nodes[n].log.Next(), [])
    requires s.nodes[n].log.Next() < s.nodes[m].log.Next()
    requires !Ephemeral(s.nodes[m].log.recs[s.nodes[n].log.Next() - 1])
    ensures var r, l := s.nodes[n].log, s.nodes[m].log;
      Run(s, [Ship(n, 1), Deliver(n, 0)]).nodes[n].log.recs == r.recs + [l.recs[r.Next() - 1]] <==> l.first <= r.Next()
  {
    hide Exec, Cluster.Shaped;
    var r, l := s.nodes[n], s.nodes[m].log;
    var s1 := Exec(s, Ship(n, 1));
    TwoSteps(s, Ship(n, 1), Deliver(n, 0));
    OneRound(s, n, m);
  }

  lemma TwoSteps(s: Cluster, a: Step, b: Step)
    requires s.Shaped()
    ensures Exec(s, a).Shaped() && Run(s, [a, b]) == Exec(Exec(s, a), b)
  {
    hide Exec, Cluster.Shaped;
    ExecKeepsShape(s, a);
    assert [a, b][..1] == [a] && [a][..0] == [];
    assert Run(s, [a]) == Exec(Run(s, []), a);
  }

  lemma OneRound(s: Cluster, n: Node, m: Node)
    requires s.Shaped() && n in s.nodes && m in s.nodes && n != m
    requires s.nodes[n].phase == Streaming(m, s.nodes[n].log.Next(), [])
    requires s.nodes[n].log.Next() < s.nodes[m].log.Next()
    requires !Ephemeral(s.nodes[m].log.recs[s.nodes[n].log.Next() - 1])
    requires Exec(s, Ship(n, 1)).Shaped()
    ensures n in Exec(Exec(s, Ship(n, 1)), Deliver(n, 0)).nodes
    ensures var r, l := s.nodes[n].log, s.nodes[m].log;
      var z := Exec(Exec(s, Ship(n, 1)), Deliver(n, 0)).nodes[n].log.recs;
      if l.first <= r.Next() then z == r.recs + [l.recs[r.Next() - 1]] else z == r.recs
    ensures var z := Exec(Exec(s, Ship(n, 1)), Deliver(n, 0));
      && z.nodes.Keys == s.nodes.Keys && z.nodes[m] == s.nodes[m]
      && (s.nodes[m].log.first <= s.nodes[n].log.Next() ==>
            z.nodes[n].phase == Streaming(m, s.nodes[n].log.Next() + 1, []))
  {
    hide AfterShip, AfterDeliver, Cluster.Shaped, PLog.WellFormed;
    var r, l := s.nodes[n], s.nodes[m].log;
    LogsWellFormed(s, n, m);
    ShipsOne(r, l, m);
    var q := AfterShip(r, l, 1);
    var s1 := s.With(n, q);
    assert Exec(s, Ship(n, 1)) == s1 && s1.nodes[n] == q;
    if l.first <= r.log.Next() {
      assert Delivers(s1, n) && Exec(s1, Deliver(n, 0)) == s1.With(n, AfterDeliver(q, 0));
      TakesOne(q, l.recs[r.log.Next() - 1]);
    } else {
      assert !Delivers(s1, n) && Exec(s1, Deliver(n, 0)) == s1;
    }
  }

  /** The follower's session and log after k records of m's have come over. */
  predicate CaughtTo(s: Cluster, z: Cluster, n: Node, m: Node, k: nat)
    requires n in s.nodes && m in s.nodes && s.nodes[n].log.Next() >= 1
    requires s.nodes[n].log.Next() - 1 + k <= |s.nodes[m].log.recs|
  {
    var r, l := s.nodes[n].log, s.nodes[m].log;
    && z.nodes.Keys == s.nodes.Keys && z.nodes[m] == s.nodes[m]
    && z.nodes[n].log.recs == r.recs + l.recs[r.Next() - 1..r.Next() - 1 + k]
    && z.nodes[n].phase == Streaming(m, z.nodes[n].log.Next(), [])
  }

  /** k rounds of one record each. */
  function RoundsOf(n: Node, k: nat): seq<Step> {
    if k == 0 then [] else RoundsOf(n, k - 1) + [Ship(n, 1), Deliver(n, 0)]
  }

  /** Every record of m's that n lacks can be replicated. */
  predicate Fetchable(s: Cluster, n: Node, m: Node) {
    && n in s.nodes && m in s.nodes && n != m
    && s.nodes[n].phase == Streaming(m, s.nodes[n].log.Next(), [])
    && s.nodes[n].log.Next() < s.nodes[m].log.Next()
    && forall i :: s.nodes[n].log.Next() - 1 <= i < |s.nodes[m].log.recs| ==> !Ephemeral(s.nodes[m].log.recs[i])
  }

  lemma RunTwo(s: Cluster, steps: seq<Step>, a: Step, b: Step)
    requires s.Shaped()
    ensures Exec(Run(s, steps), a).Shaped()
    ensures Run(s, steps + [a, b]) == Exec(Exec(Run(s, steps), a), b)
  {
    hide Exec, Cluster.Shaped;
    var two := steps + [a, b];
    ExecKeepsShape(Run(s, steps), a);
    assert two[..|two| - 1] == steps + [a] && (steps + [a])[..|steps|] == steps;
    assert Run(s, steps + [a]) == Exec(Run(s, steps), a);
  }

  lemma {:induction false} CatchesUp(s: Cluster, n: Node, m: Node, k: nat)
    requires s.Shaped() && Fetchable(s, n, m) && s.nodes[m].log.first <= s.nodes[n].log.Next()
    requires s.nodes[n].log.Next() - 1 + k <= |s.nodes[m].log.recs|
    ensures CaughtTo(s, Run(s, RoundsOf(n, k)), n, m, k)
    decreases k
  {
    hide Exec, Cluster.Shaped, PLog.WellFormed, CaughtTo;
    var r, l := s.nodes[n].log, s.nodes[m].log;
    if k == 0 {
      CaughtNone(s, n, m);
    } else {
      var z := Run(s, RoundsOf(n, k - 1));
      CatchesUp(s, n, m, k - 1);
      RunTwo(s, RoundsOf(n, k - 1), Ship(n, 1), Deliver(n, 0));
      CaughtFacts(s, z, n, m, k - 1);
      OneRound(z, n, m);
      CaughtMore(s, z, Run(s, RoundsOf(n, k)), n, m, k - 1);
    }
  }

  lemma CaughtNone(s: Cluster, n: Node, m: Node)
    requires Fetchable(s, n, m) && s.nodes[n].log.Next() >= 1
    ensures CaughtTo(s, s, n, m, 0)
  {
    var r, l := s.nodes[n].log, s.nodes[m].log;
    assert r.recs + l.recs[r.Next() - 1..r.Next() - 1] == r.recs;
  }

  lemma CaughtFacts(s: Cluster, z: Cluster, n: Node, m: Node, k: nat)
    requires n in s.nodes && m in s.nodes && s.nodes[n].log.Next() >= 1
    requires s.nodes[n].log.Next() - 1 + k <= |s.nodes[m].log.recs| && CaughtTo(s, z, n, m, k)
    ensures n in z.nodes && m in z.nodes && z.nodes[m] == s.nodes[m]
    ensures z.nodes[n].log.Next() == s.nodes[n].log.Next() + k
    ensures z.nodes[n].phase == Streaming(m, z.nodes[n].log.Next(), [])
  {
  }

  lemma CaughtMore(s: Cluster, z: Cluster, y: Cluster, n: Node, m: Node, k: nat)
    requires n in s.nodes && m in s.nodes && s.nodes[n].log.Next() >= 1
    requires s.nodes[n].log.Next() + k <= |s.nodes[m].log.recs| && CaughtTo(s, z, n, m, k)
    requires y.nodes.Keys == z.nodes.Keys && y.nodes[m] == z.nodes[m]
    requires y.nodes[n].log.recs == z.nodes[n].log.recs + [s.nodes[m].log.recs[z.nodes[n].log.Next() - 1]]
    requires y.nodes[n].phase == Streaming(m, z.nodes[n].log.Next() + 1, [])
    ensures CaughtTo(s, y, n, m, k + 1)
  {
    var r, l := s.nodes[n].log, s.nodes[m].log;
    var at := r.Next() - 1 + k;
    assert l.recs[r.Next() - 1..at] + [l.recs[at]] == l.recs[r.Next() - 1..at + 1];
  }

  /** Ships and deliveries of n's session. */
  predicate OnlySession(steps: seq<Step>, n: Node) {
    forall i :: 0 <= i < |steps| ==> (steps[i].Ship? || steps[i].Deliver?) && steps[i].n == n
  }

  lemma {:induction false} RoundsAreSession(n: Node, k: nat)
    ensures OnlySession(RoundsOf(n, k), n)
    decreases k
  {
    if k > 0 { RoundsAreSession(n, k - 1); }
  }

  /** The condition is exact: the session brings the follower to its leader's end if and only if the leader still
      has what the follower needs next. */
  lemma ReachesEndIff(s: Cluster, n: Node, m: Node)
    requires s.Shaped() && Fetchable(s, n, m) && s.nodes[n].follow == m && !s.nodes[n].log.leading
    ensures var r, l := s.nodes[n].log, s.nodes[m].log;
      (exists steps :: OnlySession(steps, n) && Run(s, steps).nodes[n].log.recs == r.recs + l.recs[r.Next() - 1..]) <==>
      l.first <= r.Next()
  {
    hide Exec, Cluster.Shaped, PLog.WellFormed, Run;
    var r, l := s.nodes[n].log, s.nodes[m].log;
    if l.first <= r.Next() {
      var k := |l.recs| - (r.Next() - 1);
      CatchesUp(s, n, m, k);
      RoundsAreSession(n, k);
      assert l.recs[r.Next() - 1..r.Next() - 1 + k] == l.recs[r.Next() - 1..];
      assert OnlySession(RoundsOf(n, k), n);
    } else {
      forall steps | OnlySession(steps, n)
        ensures Run(s, steps).nodes[n].log.recs != r.recs + l.recs[r.Next() - 1..]
      {
        StarvedForever(s, steps, n, m);
      }
    }
  }

  /** A session whose records in transit all lie past the follower's end. */
  predicate Gapped(s: Cluster, n: Node, m: Node) {
    && n in s.nodes && m in s.nodes && n != m && s.nodes[n].phase.Streaming? && s.nodes[n].phase.server == m
    && s.nodes[n].phase.wire != [] && !Ephemeral(s.nodes[n].phase.wire[0])
    && PastEnd(s.nodes[n].phase.wire, s.nodes[n].log.Next())
  }

  /** A gap costs the batch, never the session: the next fetch is from the follower's end. */
  lemma GapRefetches(s: Cluster, n: Node, m: Node)
    requires s.Shaped() && Gapped(s, n, m)
    ensures var r := s.nodes[n];
      Exec(s, Deliver(n, |r.phase.wire| - 1)) == s.With(n, r.(phase := Streaming(m, r.log.Next(), [])))
  {
    hide PLog.WellFormed;
    var p := s.nodes[n].phase;
    assert p.wire[|p.wire|..] == [];
  }

  lemma {:induction false} RunAfter(s: Cluster, a: Step, steps: seq<Step>)
    requires s.Shaped()
    ensures Exec(s, a).Shaped() && Run(s, [a] + steps) == Run(Exec(s, a), steps)
    decreases |steps|
  {
    hide Exec, Cluster.Shaped;
    ExecKeepsShape(s, a);
    var all := [a] + steps;
    if steps == [] {
      assert all == [a] && [a][..0] == [];
    } else {
      RunAfter(s, a, steps[..|steps| - 1]);
      assert all[..|all| - 1] == [a] + steps[..|steps| - 1];
    }
  }

  /** So the condition is the same from a gap: the session reaches its leader's end if and only if the leader still has
      what the follower needs next. */
  lemma GapReachesEndIff(s: Cluster, n: Node, m: Node)
    requires s.Shaped() && Gapped(s, n, m) && s.nodes[n].follow == m && !s.nodes[n].log.leading
    requires Fetchable(s.With(n, s.nodes[n].(phase := Streaming(m, s.nodes[n].log.Next(), []))), n, m)
    ensures var r, l := s.nodes[n].log, s.nodes[m].log;
      (exists steps :: OnlySession(steps, n) && Run(s, steps).nodes[n].log.recs == r.recs + l.recs[r.Next() - 1..]) <==>
      l.first <= r.Next()
  {
    hide Exec, Cluster.Shaped, PLog.WellFormed, Run;
    var r, l := s.nodes[n].log, s.nodes[m].log;
    if l.first <= r.Next() {
      var steps := GapReaches(s, n, m);
    } else {
      forall steps | OnlySession(steps, n)
        ensures Run(s, steps).nodes[n].log.recs != r.recs + l.recs[r.Next() - 1..]
      {
        StarvedForever(s, steps, n, m);
      }
    }
  }

  lemma GapReaches(s: Cluster, n: Node, m: Node) returns (steps: seq<Step>)
    requires s.Shaped() && Gapped(s, n, m) && s.nodes[n].follow == m && !s.nodes[n].log.leading
    requires Fetchable(s.With(n, s.nodes[n].(phase := Streaming(m, s.nodes[n].log.Next(), []))), n, m)
    requires s.nodes[m].log.first <= s.nodes[n].log.Next()
    ensures OnlySession(steps, n) && s.nodes[n].log.Next() - 1 <= |s.nodes[m].log.recs|
    ensures var r, l := s.nodes[n].log, s.nodes[m].log;
      n in Run(s, steps).nodes && Run(s, steps).nodes[n].log.recs == r.recs + l.recs[r.Next() - 1..]
  {
    hide Exec, Cluster.Shaped, PLog.WellFormed, Run, PastEnd;
    var r, l := s.nodes[n].log, s.nodes[m].log;
    var a := Deliver(n, |s.nodes[n].phase.wire| - 1);
    GapRefetches(s, n, m);
    RunAfter(s, a, []);
    var z := Exec(s, a);
    ReachesEndIff(z, n, m);
    var rest :| OnlySession(rest, n) && Run(z, rest).nodes[n].log.recs == r.recs + l.recs[r.Next() - 1..];
    RunAfter(s, a, rest);
    steps := [a] + rest;
  }

  /** The leader still knows a term that the follower's latest one reaches. */
  ghost predicate KnowsTerm(leader: PLog, f: PLog) {
    exists i :: 0 <= i < |leader.hist| && leader.hist[i].epoch <= LatestEpoch(f.hist)
  }

  /** The handshake opens the stream exactly when the follower has nothing to reconcile, or the leader knows its term
      and the end it names lies above what the follower can no longer cut; the stream starts at the follower's end,
      and the only records lost are those at and past the named end. */
  lemma HandshakeIff(s: Cluster, n: Node, m: Node)
    requires s.Shaped() && n in s.nodes && m in s.nodes && m != ""
    requires s.nodes[n].phase.Idle? && s.nodes[n].follow == m
    ensures var z := Run(s, [Query(n), Settle(n)]);
      var f, l, q := s.nodes[n].log, s.nodes[m].log, z.nodes[n];
      var end := l.EndOffsetForEpoch(LatestEpoch(f.hist)).end;
      && (q.phase.Streaming? <==>
            f.Next() <= 1 || f.hist == [] || (KnowsTerm(l, f) && (end > f.first || end >= f.Next())))
      && (q.phase == Streaming(m, q.log.Next(), []) || q.phase == Idle)
      && q.log.recs == if f.Next() > 1 && KnowsTerm(l, f) && f.first < end < f.Next() then f.recs[..end - 1] else f.recs
  {
    hide PLog.WellFormed, Cluster.Shaped, CutFrom, EndOffsetFor, ReconcilePass, AfterShip, AfterDeliver, Apply;
    TwoSteps(s, Query(n), Settle(n));
    LogsWellFormed(s, n, m);
    WellFormedSorted(s.nodes[n].log);
    WellFormedSorted(s.nodes[m].log);
    AnswerIs(s.nodes[m].log.hist, LatestEpoch(s.nodes[n].log.hist), s.nodes[m].log.Next());
  }

  lemma WellFormedSorted(p: PLog)
    requires p.WellFormed()
    ensures Sorted(p.hist) && 1 <= p.first <= p.Next()
  {
  }

  lemma LogsWellFormed(s: Cluster, n: Node, m: Node)
    requires s.Shaped() && n in s.nodes && m in s.nodes
    ensures s.nodes[n].log.WellFormed() && s.nodes[m].log.WellFormed()
  {
  }

  lemma ShipsOne(r: Replica, l: PLog, m: Node)
    requires l.WellFormed() && r.phase == Streaming(m, r.log.Next(), []) && r.log.Next() < l.Next()
    ensures AfterShip(r, l, 1) ==
      if l.first <= r.log.Next() then r.(phase := Streaming(m, r.log.Next() + 1, [l.recs[r.log.Next() - 1]]))
      else r.(phase := Streaming(m, l.first, []))
    ensures l.recs[r.log.Next() - 1].seqno == r.log.Next()
  {
    var k := r.log.Next();
    var none: seq<Record> := [];
    assert none + l.recs[k - 1..k - 1 + 1] == [l.recs[k - 1]];
  }

  lemma TakesOne(r: Replica, x: Record)
    requires r.log.WellFormed() && r.phase.Streaming? && r.phase.wire == [x] && x.seqno == r.log.Next() && !Ephemeral(x)
    ensures AfterDeliver(r, 0).log.recs == r.log.recs + [x]
    ensures AfterDeliver(r, 0).phase == r.phase.(wire := [])
  {
  }

  /** A replica that holds nothing, once the leader's first record is gone. */
  lemma NewReplicaStarves(s: Cluster, steps: seq<Step>, n: Node, m: Node)
    requires s.Shaped() && n in s.nodes && m in s.nodes && n != m
    requires s.nodes[n] == Replica(EMPTY, 0, m, Idle, s.nodes[n].view) && s.nodes[m].log.first > 1
    requires NeverRedirects(s, steps, n, m)
    ensures n in Run(s, steps).nodes && Run(s, steps).nodes[n].log.recs == []
  {
    hide Exec, Cluster.Shaped, Redirects, NeverRedirects;
    StarvedForever(s, steps, n, m);
  }
}
