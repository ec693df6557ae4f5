/** Whom a node follows and what it leads, told from the metadata its last pass has seen, over every cluster run. */
module Sessions {
  import opened Records
  import opened EpochHistory
  import opened PartitionLog
  import opened Metadata
  import opened Replication
  import opened SingleWriter
  import LM = LogMatching

  /** The metadata has n fetch the partition from x: n is a replica, x another node, which leads it and is
      registered, live and reachable. */
  predicate MayFollow(m: Meta, k: PartitionKey, n: Node, x: Node) {
    && k in m.partitions && n in m.partitions[k].replicas && m.partitions[k].leader == x && x != n && x != ""
    && x in m.brokers && !m.brokers[x].fenced && m.brokers[x].streamAddr != ""
  }

  /** The metadata has n lead the partition under term e. */
  predicate MayLead(m: Meta, k: PartitionKey, n: Node, e: nat) {
    k in m.partitions && n != "" && m.partitions[k].leader == n && m.partitions[k].epoch == e && e > 0
  }

  // --- one pass ----------------------------------------------------------

  /** After a pass a node follows x exactly when the metadata has it do so, and otherwise nobody. */
  lemma PassFollowsIff(r: Replica, m: Meta, k: PartitionKey, n: Node, view: nat, rebuilt: bool, x: Node)
    requires x != ""
    ensures ReconcilePass(r, m, k, n, view, rebuilt).follow == x <==> MayFollow(m, k, n, x)
  {
    hide PLog.BecomeLeaderFor;
  }

  /** A session outlives a pass exactly when the node goes on following the same leader for the same partitions;
      otherwise it is closed. */
  lemma PassKeepsSessionIff(r: Replica, m: Meta, k: PartitionKey, n: Node, view: nat, rebuilt: bool)
    requires r.follow != "" && !r.phase.Idle?
    ensures var q := ReconcilePass(r, m, k, n, view, rebuilt);
      && (q.phase == r.phase <==> MayFollow(m, k, n, r.follow) && !rebuilt)
      && (q.phase != r.phase ==> q.phase == Idle)
  {
    hide PLog.BecomeLeaderFor;
  }

  /** What a node's promotion says of its log. */
  predicate Promoted(r: Replica) {
    r.log.WellFormed() && (r.promoted > 0 <==> r.log.leading) && (r.log.leading ==> r.log.cur == r.promoted)
  }

  /** After a pass a node leads exactly when the metadata has it lead under a term no older than the log's, and then
      under that term. */
  lemma PassLeadsIff(r: Replica, m: Meta, k: PartitionKey, n: Node, view: nat, rebuilt: bool)
    requires Promoted(r) && (Led(m, k, n) ==> r.promoted <= EpochIn(m, k))
    ensures var q, e := ReconcilePass(r, m, k, n, view, rebuilt), EpochIn(m, k);
      && (q.log.leading <==> MayLead(m, k, n, e) && r.log.cur <= e)
      && (q.log.leading ==> q.promoted == q.log.cur == e)
      && q.log.recs == r.log.recs
  {
  }

  // --- every run ---------------------------------------------------------

  predicate FollowsRightly(s: Cluster, n: Node)
    requires s.Shaped() && n in s.nodes
  {
    var r := s.nodes[n];
    && (r.follow != "" ==> MayFollow(s.history[r.view], s.key, n, r.follow))
    && (!r.phase.Idle? ==> r.phase.server == r.follow && r.follow != "")
  }

  predicate LeadsRightly(s: Cluster, n: Node)
    requires s.Shaped() && n in s.nodes
  {
    var r := s.nodes[n];
    r.log.leading ==> MayLead(s.history[r.view], s.key, n, r.log.cur) && r.promoted == r.log.cur && r.follow == ""
  }

  lemma PassFollows(s: Cluster, n: Node, view: nat, rebuilt: bool)
    requires s.Shaped() && n in s.nodes && view < |s.history| && FollowsRightly(s, n)
    ensures var q := ReconcilePass(s.nodes[n], s.history[view], s.key, n, view, rebuilt);
      && (q.follow != "" ==> MayFollow(s.history[view], s.key, n, q.follow))
      && (!q.phase.Idle? ==> q.phase.server == q.follow && q.follow != "")
  {
    hide PLog.BecomeLeaderFor, MayFollow;
    var q := ReconcilePass(s.nodes[n], s.history[view], s.key, n, view, rebuilt);
    if q.follow != "" { PassFollowsIff(s.nodes[n], s.history[view], s.key, n, view, rebuilt, q.follow); }
  }

  /** What a step other than a pass does to whom a node follows and what it leads. */
  lemma OtherSteps(s: Cluster, step: Step)
    requires s.Shaped() && !step.Commit? && !step.Pass? && step.n in s.nodes && FollowsRightly(s, step.n)
    ensures step.n in Exec(s, step).nodes
    ensures var r, q := s.nodes[step.n], Exec(s, step).nodes[step.n];
      && q.view == r.view && (q.follow == r.follow || (q.follow == "" && q.phase.Idle?))
      && (!q.phase.Idle? ==> q.phase.server == q.follow && q.follow != "")
  {
    hide AfterSettle, AfterShip, PLog.Append, PLog.Retain, PLog.AppendReplicated, MayFollow;
    var r := s.nodes[step.n];
    match step
    case Settle(n) => if Settles(s, n) { SettleSession(r); }
    case Ship(n, count) => if Streams(s, n) { ShipSession(r, s.nodes[r.phase.server].log, count); }
    case _ =>
  }

  lemma SettleSession(r: Replica)
    requires r.log.WellFormed() && r.phase.Answered?
    ensures var q := AfterSettle(r); q.phase.Idle? || q.phase.server == r.phase.server
  {
  }

  lemma ShipSession(r: Replica, l: PLog, count: nat)
    requires r.phase.Streaming?
    ensures var q := AfterShip(r, l, count); q.phase.Streaming? && q.phase.server == r.phase.server
  {
  }

  lemma StepFollows(s: Cluster, step: Step, n: Node)
    requires s.Shaped() && n in s.nodes && FollowsRightly(s, n) && Exec(s, step).Shaped() && n in Exec(s, step).nodes
    ensures FollowsRightly(Exec(s, step), n)
  {
    hide Exec, ReconcilePass, MayFollow;
    ExecKeepsShape(s, step);
    if step.Commit? || step.n != n {
      OthersStand(s, step, n);
    } else if step.Pass? {
      PassExec(s, step);
      if s.nodes[n].view <= step.view < |s.history| { PassFollows(s, n, step.view, step.rebuilt); }
    } else {
      OtherSteps(s, step);
    }
  }

  lemma PassExec(s: Cluster, step: Step)
    requires s.Shaped() && step.Pass? && step.n in s.nodes
    ensures step.n in Exec(s, step).nodes && Exec(s, step).history == s.history && Exec(s, step).key == s.key
    ensures Exec(s, step).nodes[step.n] ==
      if s.nodes[step.n].view <= step.view < |s.history|
      then ReconcilePass(s.nodes[step.n], s.history[step.view], s.key, step.n, step.view, step.rebuilt)
      else s.nodes[step.n]
  {
    hide ReconcilePass;
  }

  /** In every state of every run, whoever a node follows is the leader that the metadata of its last pass names,
      live and reachable, and the node a replica that does not lead; every session goes to that leader. */
  lemma {:induction false} RunFollows(s: Cluster, steps: seq<Step>, n: Node)
    requires Init(s) && n in s.nodes
    ensures FollowsRightly(Run(s, steps), n)
    decreases |steps|
  {
    hide Exec, Cluster.Shaped, MayFollow;
    if steps == [] {
      StartsIdle(s, n);
    } else {
      var last := |steps| - 1;
      RunFollows(s, steps[..last], n);
      ExecKeepsShape(Run(s, steps[..last]), steps[last]);
      StepFollows(Run(s, steps[..last]), steps[last], n);
    }
  }

  lemma StartsIdle(s: Cluster, n: Node)
    requires Init(s) && n in s.nodes
    ensures FollowsRightly(s, n) && LeadsRightly(s, n)
  {
    assert s.nodes[n] == Replica(EMPTY, 0, "", Idle, 0);
  }

  lemma LeadsStep(s: Cluster, T: Terms, step: Step, n: Node)
    requires s.Shaped() && Writers(s, T) && n in s.nodes && LeadsRightly(s, n)
    requires Exec(s, step).Shaped() && n in Exec(s, step).nodes
    ensures LeadsRightly(Exec(s, step), n)
  {
    hide Exec, ReconcilePass, Writers, HoldsTerm, MayLead;
    ExecKeepsShape(s, step);
    if step.Commit? || step.n != n {
      OthersStand(s, step, n);
    } else if step.Pass? {
      PassExec(s, step);
      if s.nodes[n].view <= step.view < |s.history| { PassLeads(s, T, n, step.view, step.rebuilt); }
    } else {
      OtherLeads(s, T, step);
    }
  }

  lemma PassLeads(s: Cluster, T: Terms, n: Node, view: nat, rebuilt: bool)
    requires s.Shaped() && Writers(s, T) && n in s.nodes && s.nodes[n].view <= view < |s.history|
    ensures var q := ReconcilePass(s.nodes[n], s.history[view], s.key, n, view, rebuilt);
      q.log.leading ==> MayLead(s.history[view], s.key, n, q.log.cur) && q.promoted == q.log.cur && q.follow == ""
  {
    hide ReconcilePass, Writers, Cluster.Shaped, PLog.WellFormed;
    LM.PassGives(s, T, n, view, rebuilt);
  }

  lemma OtherLeads(s: Cluster, T: Terms, step: Step)
    requires s.Shaped() && Writers(s, T) && !step.Commit? && !step.Pass? && step.n in s.nodes
    ensures step.n in Exec(s, step).nodes
    ensures var r, q := s.nodes[step.n], Exec(s, step).nodes[step.n];
      q.log.leading ==> r.log.leading && q.log.cur == r.log.cur && q.promoted == r.promoted && q.view == r.view
                        && q.follow == r.follow
  {
    hide Writers;
    NodeFact(s, T, step.n);
  }

  /** In every state of every run, whatever a node leads is what the metadata of its last pass has it lead, under the
      term granted there, and it follows nobody. */
  lemma {:induction false} RunLeads(s: Cluster, steps: seq<Step>, n: Node)
    requires Init(s) && n in s.nodes
    ensures LeadsRightly(Run(s, steps), n)
    decreases |steps|
  {
    hide Exec, Cluster.Shaped, MayLead, Writers, NextTerms;
    if steps == [] {
      StartsIdle(s, n);
    } else {
      var last := |steps| - 1;
      RunLeads(s, steps[..last], n);
      RunOk(s, steps[..last]);
      ExecKeepsShape(Run(s, steps[..last]), steps[last]);
      LeadsStep(Run(s, steps[..last]), TermsAfter(s, steps[..last]), steps[last], n);
    }
  }
}
