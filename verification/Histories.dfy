/** When a node's epoch history agrees with its log, over whole cluster runs: as long as no record of a term older
    than the receiver's is applied, and not after. Nothing else can break it. */
module Histories {
  import opened Records
  import opened EpochHistory
  import opened PartitionLog
  import opened Metadata
  import opened Replication

  ghost predicate AllAgree(s: Cluster) {
    forall n :: n in s.nodes ==> s.nodes[n].log.WellFormed() && s.nodes[n].log.HistoryAgrees()
  }

  /** The delivery applies a record of an older term than the receiver's current one. */
  predicate Backdates(s: Cluster, step: Step) {
    step.Deliver? && Delivers(s, step.n) && Backdated(s.nodes[step.n].log, Replicate(s.nodes[step.n].phase.wire[0]))
  }

  lemma PassAgrees(r: Replica, m: Meta, k: PartitionKey, n: Node, view: nat, rebuilt: bool)
    requires r.log.WellFormed() && r.log.HistoryAgrees()
    ensures var q := ReconcilePass(r, m, k, n, view, rebuilt).log; q.WellFormed() && q.HistoryAgrees()
  {
    hide PLog.HistoryAgrees, PLog.WellFormed, Led, Target, PLog.BecomeLeaderFor;
    PassKeepsWellFormed(r, m, k, n, view, rebuilt);
    SortedHist(r.log);
    SameLogAgrees(r.log, r.log.Resign());
    var r1 := PassResign(r, Led(m, k, n));
    ResignWellFormed(r.log);
    LeadAgrees(r1.log, EpochIn(m, k));
  }

  lemma SortedHist(p: PLog)
    requires p.WellFormed()
    ensures Sorted(p.hist)
  {
  }

  lemma ResignWellFormed(p: PLog)
    requires p.WellFormed()
    ensures p.Resign().WellFormed()
  {
  }

  lemma LeadAgrees(p: PLog, e: nat)
    requires p.WellFormed() && p.HistoryAgrees()
    ensures p.BecomeLeaderFor(e).log.WellFormed() && p.BecomeLeaderFor(e).log.HistoryAgrees()
  {
    hide PLog.HistoryAgrees;
    PromoteKeepsWellFormed(p, e);
    PromoteAgrees(p, e);
    if p.BecomeLeaderFor(e).log != p.BecomeLeader(e).log { SameLogAgrees(p, p.BecomeLeaderFor(e).log); }
  }

  lemma SettleAgrees(r: Replica)
    requires r.log.WellFormed() && r.log.HistoryAgrees() && r.phase.Answered?
    ensures AfterSettle(r).log.WellFormed() && AfterSettle(r).log.HistoryAgrees()
  {
    hide PLog.HistoryAgrees;
    SettleKeepsWellFormed(r);
    TruncateAgrees(r.log, r.phase.end);
  }

  lemma DeliverAgreesIff(r: Replica, drop: nat)
    requires r.log.WellFormed() && r.log.HistoryAgrees() && r.phase.Streaming? && r.phase.wire != []
    ensures AfterDeliver(r, drop).log.WellFormed()
    ensures AfterDeliver(r, drop).log.HistoryAgrees() <==> !Backdated(r.log, Replicate(r.phase.wire[0]))
  {
    hide PLog.HistoryAgrees, PLog.WellFormed;
    ReplicateAgreesIff(r.log, r.phase.wire[0]);
    BackdatedLands(r.log, r.phase.wire[0]);
  }

  lemma BackdatedLands(p: PLog, r: Record)
    ensures Backdated(p, Replicate(r)) ==> p.AppendReplicated(r).outcome == Ok
    ensures p.AppendReplicated(r).outcome != Ok ==> p.AppendReplicated(r).log == p
  {
  }

  /** One node's step, and its log after. */
  lemma NodeStepAgrees(s: Cluster, step: Step)
    requires s.Shaped() && AllAgree(s) && !step.Commit? && step.n in s.nodes && step.n in Exec(s, step).nodes
    ensures var p := Exec(s, step).nodes[step.n].log;
      p.WellFormed() && (p.HistoryAgrees() <==> !Backdates(s, step))
  {
    hide ReconcilePass, AfterQuery, AfterSettle, AfterShip, AfterDeliver, PLog.Append, PLog.Retain, PLog.HistoryAgrees,
      PLog.WellFormed, Backdated, Cluster.Shaped;
    var r := s.nodes[step.n];
    match step
    case Pass(n, view, rebuilt) =>
      if r.view <= view < |s.history| { PassAgrees(r, s.history[view], s.key, n, view, rebuilt); }
    case LocalAppend(_, x) => AppendAgrees(r.log, x);
    case Settle(n) => if Settles(s, n) { SettleAgrees(r); }
    case Deliver(n, drop) => if Delivers(s, n) { DeliverAgreesIff(r, drop); }
    case Restart(_) =>
      ResignWellFormed(r.log);
      SameLogAgrees(r.log, r.log.Resign());
    case Expire(_, first) =>
      RetainKeepsWellFormed(r.log, first);
      RetainAgrees(r.log, first);
    case _ =>
  }

  /** A step keeps every history in agreement with its log exactly when it does not backdate a record. */
  lemma StepAgreesIff(s: Cluster, step: Step)
    requires s.Shaped() && AllAgree(s)
    ensures AllAgree(Exec(s, step)) <==> !Backdates(s, step)
  {
    hide Exec, PLog.HistoryAgrees, PLog.WellFormed, Backdates;
    ExecKeepsShape(s, step);
    forall m | m in s.nodes && (step.Commit? || step.n != m)
      ensures m in Exec(s, step).nodes && Exec(s, step).nodes[m] == s.nodes[m]
    {
      OthersStand(s, step, m);
    }
    if Backdates(s, step) { BackdatesHere(s, step); }
    if !step.Commit? && step.n in s.nodes { NodeStepAgrees(s, step); }
  }

  lemma BackdatesHere(s: Cluster, step: Step)
    requires Backdates(s, step)
    ensures !step.Commit? && step.n in s.nodes
  {
  }

  ghost predicate NeverBackdates(s: Cluster, steps: seq<Step>)
    requires s.Shaped()
  {
    forall i :: 0 <= i < |steps| ==> !Backdates(Run(s, steps[..i]), steps[i])
  }

  /** Without a backdated delivery every history agrees with its log at every point of the run. */
  lemma {:induction false} RunAgrees(s: Cluster, steps: seq<Step>, k: nat)
    requires s.Shaped() && AllAgree(s) && NeverBackdates(s, steps) && k <= |steps|
    ensures AllAgree(Run(s, steps[..k]))
    decreases k
  {
    hide Exec, AllAgree, Backdates, Cluster.Shaped;
    if k > 0 {
      RunAgrees(s, steps, k - 1);
      assert steps[..k][..k - 1] == steps[..k - 1];
      StepAgreesIff(Run(s, steps[..k - 1]), steps[k - 1]);
    }
  }

  /** Exactly those runs keep it throughout, whatever else happens in them. */
  lemma RunAgreesIff(s: Cluster, steps: seq<Step>)
    requires s.Shaped() && AllAgree(s)
    ensures (forall k :: 0 <= k <= |steps| ==> AllAgree(Run(s, steps[..k]))) <==> NeverBackdates(s, steps)
  {
    hide Exec, AllAgree, Backdates, Cluster.Shaped;
    if NeverBackdates(s, steps) {
      forall k | 0 <= k <= |steps| ensures AllAgree(Run(s, steps[..k])) { RunAgrees(s, steps, k); }
    }
    if forall k :: 0 <= k <= |steps| ==> AllAgree(Run(s, steps[..k])) {
      forall i | 0 <= i < |steps| ensures !Backdates(Run(s, steps[..i]), steps[i]) {
        assert AllAgree(Run(s, steps[..i])) && AllAgree(Run(s, steps[..i + 1]));
        assert steps[..i + 1][..i] == steps[..i];
        StepAgreesIff(Run(s, steps[..i]), steps[i]);
      }
    }
  }

  /** From empty logs. */
  lemma HistoriesAgreeIff(s: Cluster, steps: seq<Step>)
    requires Init(s)
    ensures (forall k :: 0 <= k <= |steps| ==> AllAgree(Run(s, steps[..k]))) <==> NeverBackdates(s, steps)
  {
    hide Run, NeverBackdates;
    RunAgreesIff(s, steps);
  }
}
