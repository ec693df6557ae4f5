/** A run in which a history stops agreeing with its log, while log matching holds throughout.

    Node a leads term 1 and writes one record, which c copies. Node b, still empty, opens term 2 and writes
    nothing. Node c opens term 3. Node b follows c; with an empty log it asks nothing, and applies c's record of
    term 1 under the term 2 it had opened at that sequence. */
module Backdating {
  import opened Records
  import opened EpochHistory
  import opened PartitionLog
  import opened Metadata
  import opened Replication
  import opened LogMatching
  import opened OwnEpoch
  import opened Histories
  import D = Divergence

  const B2 := Replica(D.Log([], [Entry(2, 1)], false), 0, "c", Idle, 3)
  const B3 := B2.(phase := Streaming("c", 1, []))
  const B4 := B2.(phase := Streaming("c", 2, [D.R1]))
  const B5 := B2.(log := D.Log([D.R1], [Entry(2, 1)], false), phase := Streaming("c", 2, []))

  const H1 := [D.M0, D.M1]
  const H2 := [D.M0, D.M1, D.M2]
  const H3 := [D.M0, D.M1, D.M2, D.M3]

  const STEPS := [
    Commit(AssignLeader(D.K, "a", 1, None)), Pass("a", 1, false), LocalAppend("a", D.BY_A),
    Pass("c", 1, false), Query("c"), Ship("c", 1), Deliver("c", 0),
    Commit(AssignLeader(D.K, "b", 2, None)), Pass("b", 2, false),
    Commit(AssignLeader(D.K, "c", 3, None)), Pass("c", 3, false),
    Pass("b", 3, false), Query("b"), Ship("b", 1), Deliver("b", 0)]

  /** The state before each step of the run. */
  function Trace(i: nat): Cluster
    requires i <= 15
  {
    if i <= 8 then D.Trace(i)
    else if i == 9 then D.State(H2, D.A2, D.B1, D.C4)
    else if i == 10 then D.State(H3, D.A2, D.B1, D.C4)
    else if i == 11 then D.State(H3, D.A2, D.B1, D.C5)
    else if i == 12 then D.State(H3, D.A2, B2, D.C5)
    else if i == 13 then D.State(H3, D.A2, B3, D.C5)
    else if i == 14 then D.State(H3, D.A2, B4, D.C5)
    else D.State(H3, D.A2, B5, D.C5)
  }

  lemma Follows()
    ensures ReconcilePass(D.B1, D.M3, D.K, "b", 3, false) == B2
  {
  }

  lemma BAsksNothing()
    ensures D.C5.log.WellFormed() && AfterQuery(B2, "c", D.C5.log) == B3
  {
    hide FirstStartAbove, FirstEpochAbove;
  }

  lemma CShips()
    ensures AfterShip(B3, D.C5.log, 1) == B4
  {
    assert [] + D.C5.log.recs[0..1] == [D.R1];
  }

  lemma BApplies()
    ensures AfterDeliver(B4, 0) == B5
  {
    hide FirstStartAbove, FirstEpochAbove;
    assert B4.phase.wire[1..] == [];
    assert B4.log.AppendReplicated(D.R1) == Result(B5.log, Ok);
  }

  lemma EarlySteps(i: nat)
    requires i < 8 && Trace(i).Shaped()
    ensures Exec(Trace(i), STEPS[i]) == Trace(i + 1)
  {
    hide Exec, D.Trace, Cluster.Shaped, D.Grant, D.Log;
    D.TraceStep(i);
    assert STEPS[i] == D.STEPS[i];
  }

  lemma MiddleSteps(i: nat)
    requires 8 <= i <= 10 && Trace(i).Shaped()
    ensures Exec(Trace(i), STEPS[i]) == Trace(i + 1)
  {
    hide Exec, D.Grant, D.Log, Cluster.Shaped, Apply;
    D.Commits();
    if i == 8 { D.BOpensTerm(D.A2, D.C4); }
    else if i == 9 { D.CommitStep(H2, D.A2, D.B1, D.C4, STEPS[i].c, D.M3); }
    else { D.COpensTerm(D.A2, D.B1); }
  }

  lemma LateSteps(i: nat)
    requires 11 <= i <= 14 && Trace(i).Shaped()
    ensures Exec(Trace(i), STEPS[i]) == Trace(i + 1)
  {
    hide Exec, D.Grant, D.Log, Cluster.Shaped, ReconcilePass, AfterQuery, AfterShip, AfterDeliver;
    Follows();
    BAsksNothing();
    CShips();
    BApplies();
    if i == 11 { D.StepOfB(H3, D.A2, D.B1, D.C5, STEPS[i], B2); }
    else if i == 12 { D.StepOfB(H3, D.A2, B2, D.C5, STEPS[i], B3); }
    else if i == 13 { D.StepOfB(H3, D.A2, B3, D.C5, STEPS[i], B4); }
    else { D.StepOfB(H3, D.A2, B4, D.C5, STEPS[i], B5); }
  }

  lemma {:induction false} RunIsTrace(i: nat)
    requires i <= 15
    ensures D.START.Shaped() && Run(D.START, STEPS[..i]) == Trace(i)
  {
    hide Trace, Exec, Cluster.Shaped;
    Starts();
    if i > 0 {
      RunIsTrace(i - 1);
      assert STEPS[..i][..i - 1] == STEPS[..i - 1];
      assert Run(D.START, STEPS[..i]) == Exec(Run(D.START, STEPS[..i - 1]), STEPS[i - 1]);
      if i <= 8 { EarlySteps(i - 1); } else if i <= 11 { MiddleSteps(i - 1); } else { LateSteps(i - 1); }
    }
  }

  lemma Starts()
    ensures Init(D.START) && Trace(0) == D.START
  {
    D.StartsFresh();
  }

  /** Every step meets the conditions under which logs match. */
  lemma StepIsOwn(i: nat)
    requires i < 15 && Trace(i).Shaped()
    ensures Own(Trace(i), STEPS[i])
  {
    hide D.Grant, Cluster.Shaped;
    if i == 4 { D.CopyByC(); }
    if i == 12 { BAsksNothing(); }
  }

  /** Only the last one backdates. */
  lemma StepBackdates(i: nat)
    requires i < 15
    ensures Backdates(Trace(i), STEPS[i]) <==> i == 14
  {
    hide D.Grant;
    if i == 6 { assert D.C3.log.cur == 0; }
    if i == 14 { assert B4.log.cur == 2; }
  }

  lemma Disagrees()
    ensures Sorted(B5.log.hist) && !B5.log.HistoryAgrees()
    ensures Trace(15).nodes["b"] == B5 && Trace(15).nodes["c"] == D.C5
    ensures B5.log.recs == D.C5.log.recs == [D.R1]
  {
    LatestCovers(B5.log.hist, 1);
    assert !B5.log.Placed(0);
  }

  /** An own-epoch run, so that logs match throughout, at whose end b holds its leader's record and its history
      gives that record another term. The last delivery is the one backdated step. */
  lemma RecordlessTermDisagrees()
    ensures Init(D.START) && OwnRun(D.START, STEPS) && FaithfulRun(D.START, STEPS)
    ensures forall i :: 0 <= i < 15 ==> (Backdates(Run(D.START, STEPS[..i]), STEPS[i]) <==> i == 14)
    ensures var z := Run(D.START, STEPS).nodes;
      && "b" in z && "c" in z && z["b"].log.recs == z["c"].log.recs == [D.R1]
      && Sorted(z["b"].log.hist) && !z["b"].log.HistoryAgrees()
  {
    hide Exec, Run, Cluster.Shaped, Init, D.Log, Trace, Own, Backdates, FaithfulRun, PLog.HistoryAgrees;
    Starts();
    forall i | 0 <= i < 15
      ensures Own(Run(D.START, STEPS[..i]), STEPS[i])
      ensures Backdates(Run(D.START, STEPS[..i]), STEPS[i]) <==> i == 14
    {
      RunIsTrace(i);
      StepIsOwn(i);
      StepBackdates(i);
    }
    OwnRunsAreFaithful(D.START, STEPS);
    RunIsTrace(15);
    assert STEPS[..15] == STEPS;
    Disagrees();
  }
}
