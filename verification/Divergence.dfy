/** Why the answered epoch matters: a run in which one query is answered with a term other
    than the follower's own, and two logs end up different below a record they share.

    Node a leads term 1 and writes one record, which c copies. Node b, still empty, leads
    term 2 and writes a record at the same sequence. Node c leads term 3 and writes the next
    one. When b asks c where term 2 ended, c has never seen it and answers for term 1; the
    end it names is past b's last record, so b keeps its own and fetches on top of it. */
module Divergence {
  import opened Records
  import opened EpochHistory
  import opened PartitionLog
  import opened Metadata
  import opened Replication
  import opened LogMatching
  import opened OwnEpoch

  const K := PartitionKey("t", 0)

  function Grant(leader: Node, epoch: nat): Meta {
    var up := (n: Node) => Broker(n, "addr", "", 1, false);
    Meta(map["a" := up("a"), "b" := up("b"), "c" := up("c")], map["t" := TopicMeta(1, 3)],
         map[K := Assignment(leader, epoch, ["a", "b", "c"], ["a", "b", "c"], 1 + epoch)], epoch)
  }

  function Rec(seqno: nat, tag: byte, epoch: nat): Record {
    Record(seqno, 0, [], map[], [tag], 0, epoch)
  }

  const BY_A := Rec(0, 1, 0)
  const BY_B := Rec(0, 2, 0)
  const BY_C := Rec(0, 3, 0)

  function Log(recs: seq<Record>, hist: seq<Entry>, leading: bool): PLog {
    PLog(recs, 1, hist, LatestEpoch(hist), leading)
  }

  function Fresh(): Replica {
    Replica(EMPTY, 0, "", Idle, 0)
  }

  function State(h: seq<Meta>, a: Replica, b: Replica, c: Replica): Cluster {
    Cluster(K, h, map["a" := a, "b" := b, "c" := c])
  }

  const M0 := Grant("", 0)
  const M1 := Grant("a", 1)
  const M2 := Grant("b", 2)
  const M3 := Grant("c", 3)

  const R1 := Rec(1, 1, 1)
  const X1 := Rec(1, 2, 2)
  const Y2 := Rec(2, 3, 3)

  const A1 := Replica(Log([], [Entry(1, 1)], true), 1, "", Idle, 1)
  const A2 := Replica(Log([R1], [Entry(1, 1)], true), 1, "", Idle, 1)
  const C1 := Replica(EMPTY, 0, "a", Idle, 1)
  const C2 := C1.(phase := Streaming("a", 1, []))
  const C3 := C1.(phase := Streaming("a", 2, [R1]))
  const C4 := C1.(log := Log([R1], [Entry(1, 1)], false), phase := Streaming("a", 2, []))
  const B1 := Replica(Log([], [Entry(2, 1)], true), 2, "", Idle, 2)
  const B2 := Replica(Log([X1], [Entry(2, 1)], true), 2, "", Idle, 2)
  const C5 := Replica(Log([R1], [Entry(1, 1), Entry(3, 2)], true), 3, "", Idle, 3)
  const C6 := Replica(Log([R1, Y2], [Entry(1, 1), Entry(3, 2)], true), 3, "", Idle, 3)
  const B3 := Replica(Log([X1], [Entry(2, 1)], false), 0, "c", Idle, 3)
  const B4 := B3.(phase := Answered("c", 1, 2))
  const B5 := B3.(phase := Streaming("c", 2, []))
  const B6 := B3.(phase := Streaming("c", 3, [Y2]))
  const B7 := B3.(log := Log([X1, Y2], [Entry(2, 1), Entry(3, 2)], false), phase := Streaming("c", 3, []))

  const START := State([M0], Fresh(), Fresh(), Fresh())

  lemma Commits()
    ensures Apply(M0, AssignLeader(K, "a", 1, None)).meta == M1
    ensures Apply(M1, AssignLeader(K, "b", 2, None)).meta == M2
    ensures Apply(M2, AssignLeader(K, "c", 3, None)).meta == M3
  {
  }

  lemma Passes()
    ensures ReconcilePass(Fresh(), M1, K, "a", 1, false) == A1
    ensures ReconcilePass(Fresh(), M1, K, "c", 1, false) == C1
    ensures ReconcilePass(Fresh(), M2, K, "b", 2, false) == B1
    ensures ReconcilePass(C4, M3, K, "c", 3, false) == C5
    ensures ReconcilePass(B2, M3, K, "b", 3, false) == B3
  {
  }

  lemma Writes()
    ensures A1.log.leading && B1.log.leading && C5.log.leading && !Ephemeral(BY_A)
    ensures !Ephemeral(BY_B) && !Ephemeral(BY_C)
    ensures A1.log.Append(BY_A).log == A2.log
    ensures B1.log.Append(BY_B).log == B2.log
    ensures C5.log.Append(BY_C).log == C6.log
  {
  }

  lemma CopyByC()
    ensures A2.log.WellFormed() && AfterQuery(C1, "a", A2.log) == C2
    ensures AfterShip(C2, A2.log, 1) == C3
    ensures AfterDeliver(C3, 0) == C4
  {
    assert [] + A2.log.recs[0..1] == [R1];
    assert C3.phase.wire[1..] == [];
    assert C3.log.AppendReplicated(R1) == Result(C4.log, Ok);
  }

  lemma CopyByB()
    ensures C6.log.WellFormed() && AfterQuery(B3, "c", C6.log) == B4
    ensures B4.log.WellFormed() && AfterSettle(B4) == B5
  {
    assert FirstEpochAbove(C6.log.hist, 2) == 1;
  }

  lemma FetchByB()
    ensures AfterShip(B5, C6.log, 1) == B6
    ensures AfterDeliver(B6, 0) == B7
  {
    assert [] + C6.log.recs[1..2] == [Y2];
    assert B6.phase.wire[1..] == [];
    assert B6.log.AppendReplicated(Y2) == Result(B7.log, Ok);
  }

  const STEPS := [
    Commit(AssignLeader(K, "a", 1, None)), Pass("a", 1, false), LocalAppend("a", BY_A),
    Pass("c", 1, false), Query("c"), Ship("c", 1), Deliver("c", 0),
    Commit(AssignLeader(K, "b", 2, None)), Pass("b", 2, false), LocalAppend("b", BY_B),
    Commit(AssignLeader(K, "c", 3, None)), Pass("c", 3, false), LocalAppend("c", BY_C),
    Pass("b", 3, false), Query("b"), Settle("b"), Ship("b", 1), Deliver("b", 0)]

  /** The state before each step of the run. */
  function Trace(i: nat): Cluster
    requires i <= 18
  {
    match i
    case 0 => START
    case 1 => State([M0, M1], Fresh(), Fresh(), Fresh())
    case 2 => State([M0, M1], A1, Fresh(), Fresh())
    case 3 => State([M0, M1], A2, Fresh(), Fresh())
    case 4 => State([M0, M1], A2, Fresh(), C1)
    case 5 => State([M0, M1], A2, Fresh(), C2)
    case 6 => State([M0, M1], A2, Fresh(), C3)
    case 7 => State([M0, M1], A2, Fresh(), C4)
    case 8 => State([M0, M1, M2], A2, Fresh(), C4)
    case 9 => State([M0, M1, M2], A2, B1, C4)
    case 10 => State([M0, M1, M2], A2, B2, C4)
    case 11 => State([M0, M1, M2, M3], A2, B2, C4)
    case 12 => State([M0, M1, M2, M3], A2, B2, C5)
    case 13 => State([M0, M1, M2, M3], A2, B2, C6)
    case 14 => State([M0, M1, M2, M3], A2, B3, C6)
    case 15 => State([M0, M1, M2, M3], A2, B4, C6)
    case 16 => State([M0, M1, M2, M3], A2, B5, C6)
    case 17 => State([M0, M1, M2, M3], A2, B6, C6)
    case 18 => State([M0, M1, M2, M3], A2, B7, C6)
  }

  lemma CommitStep(h: seq<Meta>, a: Replica, b: Replica, c: Replica, cmd: Command, m: Meta)
    requires State(h, a, b, c).Shaped() && Apply(h[|h| - 1], cmd).meta == m
    ensures Exec(State(h, a, b, c), Commit(cmd)) == State(h + [m], a, b, c)
  {
    hide Apply, Cluster.Shaped;
  }

  /** What a step does to its node when it is enabled. */
  predicate Yields(s: Cluster, step: Step, q: Replica)
    requires s.Shaped()
  {
    match step
    case Pass(n, view, rebuilt) =>
      && n in s.nodes && s.nodes[n].view <= view < |s.history|
      && q == ReconcilePass(s.nodes[n], s.history[view], s.key, n, view, rebuilt)
    case LocalAppend(n, r) => Appends(s, step) && q == s.nodes[n].(log := s.nodes[n].log.Append(r).log)
    case Query(n) => Asks(s, n) && q == AfterQuery(s.nodes[n], s.nodes[n].follow, s.nodes[s.nodes[n].follow].log)
    case Settle(n) => Settles(s, n) && q == AfterSettle(s.nodes[n])
    case Ship(n, count) => Streams(s, n) && q == AfterShip(s.nodes[n], s.nodes[s.nodes[n].phase.server].log, count)
    case Deliver(n, drop) => Delivers(s, n) && q == AfterDeliver(s.nodes[n], drop)
    case _ => false
  }

  lemma StepYields(s: Cluster, step: Step, q: Replica)
    requires s.Shaped() && Yields(s, step, q)
    ensures Exec(s, step) == s.With(step.n, q)
  {
    hide ReconcilePass, AfterQuery, AfterShip, AfterSettle, AfterDeliver, PLog.Append, Cluster.Shaped;
  }

  lemma StepOfA(h: seq<Meta>, a: Replica, b: Replica, c: Replica, step: Step, q: Replica)
    requires State(h, a, b, c).Shaped() && Yields(State(h, a, b, c), step, q) && !step.Commit? && step.n == "a"
    ensures Exec(State(h, a, b, c), step) == State(h, q, b, c)
  {
    hide Exec, Yields, Cluster.Shaped;
    StepYields(State(h, a, b, c), step, q);
  }

  lemma StepOfB(h: seq<Meta>, a: Replica, b: Replica, c: Replica, step: Step, q: Replica)
    requires State(h, a, b, c).Shaped() && Yields(State(h, a, b, c), step, q) && !step.Commit? && step.n == "b"
    ensures Exec(State(h, a, b, c), step) == State(h, a, q, c)
  {
    hide Exec, Yields, Cluster.Shaped;
    StepYields(State(h, a, b, c), step, q);
  }

  lemma StepOfC(h: seq<Meta>, a: Replica, b: Replica, c: Replica, step: Step, q: Replica)
    requires State(h, a, b, c).Shaped() && Yields(State(h, a, b, c), step, q) && !step.Commit? && step.n == "c"
    ensures Exec(State(h, a, b, c), step) == State(h, a, b, q)
  {
    hide Exec, Yields, Cluster.Shaped;
    StepYields(State(h, a, b, c), step, q);
  }

  lemma AOpensTerm(b: Replica, c: Replica)
    requires State([M0, M1], Fresh(), b, c).Shaped()
    ensures Exec(State([M0, M1], Fresh(), b, c), Pass("a", 1, false)) == State([M0, M1], A1, b, c)
  {
    hide Cluster.Shaped, Exec, Grant, Log, ReconcilePass;
    Passes();
    StepOfA([M0, M1], Fresh(), b, c, Pass("a", 1, false), A1);
  }

  lemma AWrites(h: seq<Meta>, b: Replica, c: Replica)
    requires State(h, A1, b, c).Shaped()
    ensures Exec(State(h, A1, b, c), LocalAppend("a", BY_A)) == State(h, A2, b, c)
  {
    hide Cluster.Shaped, Exec, Grant, Log, PLog.Append;
    Writes();
    StepOfA(h, A1, b, c, LocalAppend("a", BY_A), A2);
  }

  lemma CFollowsA(a: Replica, b: Replica)
    requires State([M0, M1], a, b, Fresh()).Shaped()
    ensures Exec(State([M0, M1], a, b, Fresh()), Pass("c", 1, false)) == State([M0, M1], a, b, C1)
  {
    hide Cluster.Shaped, Exec, Grant, Log, ReconcilePass;
    Passes();
    StepOfC([M0, M1], a, b, Fresh(), Pass("c", 1, false), C1);
  }

  lemma CAsksA(h: seq<Meta>, b: Replica)
    requires State(h, A2, b, C1).Shaped()
    ensures Exec(State(h, A2, b, C1), Query("c")) == State(h, A2, b, C2)
  {
    hide Cluster.Shaped, Exec, Grant, Log, AfterQuery;
    CopyByC();
    StepOfC(h, A2, b, C1, Query("c"), C2);
  }

  lemma AShips(h: seq<Meta>, b: Replica)
    requires State(h, A2, b, C2).Shaped()
    ensures Exec(State(h, A2, b, C2), Ship("c", 1)) == State(h, A2, b, C3)
  {
    hide Cluster.Shaped, Exec, Grant, Log, AfterShip;
    CopyByC();
    StepOfC(h, A2, b, C2, Ship("c", 1), C3);
  }

  lemma CApplies(h: seq<Meta>, b: Replica)
    requires State(h, A2, b, C3).Shaped()
    ensures Exec(State(h, A2, b, C3), Deliver("c", 0)) == State(h, A2, b, C4)
  {
    hide Cluster.Shaped, Exec, Grant, Log, AfterDeliver;
    CopyByC();
    StepOfC(h, A2, b, C3, Deliver("c", 0), C4);
  }

  lemma BOpensTerm(a: Replica, c: Replica)
    requires State([M0, M1, M2], a, Fresh(), c).Shaped()
    ensures Exec(State([M0, M1, M2], a, Fresh(), c), Pass("b", 2, false)) == State([M0, M1, M2], a, B1, c)
  {
    hide Cluster.Shaped, Exec, Grant, Log, ReconcilePass;
    Passes();
    StepOfB([M0, M1, M2], a, Fresh(), c, Pass("b", 2, false), B1);
  }

  lemma BWrites(h: seq<Meta>, a: Replica, c: Replica)
    requires State(h, a, B1, c).Shaped()
    ensures Exec(State(h, a, B1, c), LocalAppend("b", BY_B)) == State(h, a, B2, c)
  {
    hide Cluster.Shaped, Exec, Grant, Log, PLog.Append;
    Writes();
    StepOfB(h, a, B1, c, LocalAppend("b", BY_B), B2);
  }

  lemma COpensTerm(a: Replica, b: Replica)
    requires State([M0, M1, M2, M3], a, b, C4).Shaped()
    ensures Exec(State([M0, M1, M2, M3], a, b, C4), Pass("c", 3, false)) == State([M0, M1, M2, M3], a, b, C5)
  {
    hide Cluster.Shaped, Exec, Grant, Log, ReconcilePass;
    Passes();
    StepOfC([M0, M1, M2, M3], a, b, C4, Pass("c", 3, false), C5);
  }

  lemma CWrites(h: seq<Meta>, a: Replica, b: Replica)
    requires State(h, a, b, C5).Shaped()
    ensures Exec(State(h, a, b, C5), LocalAppend("c", BY_C)) == State(h, a, b, C6)
  {
    hide Cluster.Shaped, Exec, Grant, Log, PLog.Append;
    Writes();
    StepOfC(h, a, b, C5, LocalAppend("c", BY_C), C6);
  }

  lemma BFollowsC(a: Replica, c: Replica)
    requires State([M0, M1, M2, M3], a, B2, c).Shaped()
    ensures Exec(State([M0, M1, M2, M3], a, B2, c), Pass("b", 3, false)) == State([M0, M1, M2, M3], a, B3, c)
  {
    hide Cluster.Shaped, Exec, Grant, Log, ReconcilePass;
    Passes();
    StepOfB([M0, M1, M2, M3], a, B2, c, Pass("b", 3, false), B3);
  }

  lemma BAsksC(h: seq<Meta>, a: Replica)
    requires State(h, a, B3, C6).Shaped()
    ensures Exec(State(h, a, B3, C6), Query("b")) == State(h, a, B4, C6)
  {
    hide Cluster.Shaped, Exec, Grant, Log, AfterQuery;
    CopyByB();
    StepOfB(h, a, B3, C6, Query("b"), B4);
  }

  lemma BKeepsAll(h: seq<Meta>, a: Replica)
    requires State(h, a, B4, C6).Shaped()
    ensures Exec(State(h, a, B4, C6), Settle("b")) == State(h, a, B5, C6)
  {
    hide Cluster.Shaped, Exec, Grant, Log, AfterSettle;
    CopyByB();
    StepOfB(h, a, B4, C6, Settle("b"), B5);
  }

  lemma CShips(h: seq<Meta>, a: Replica)
    requires State(h, a, B5, C6).Shaped()
    ensures Exec(State(h, a, B5, C6), Ship("b", 1)) == State(h, a, B6, C6)
  {
    hide Cluster.Shaped, Exec, Grant, Log, AfterShip;
    FetchByB();
    StepOfB(h, a, B5, C6, Ship("b", 1), B6);
  }

  lemma BApplies(h: seq<Meta>, a: Replica)
    requires State(h, a, B6, C6).Shaped()
    ensures Exec(State(h, a, B6, C6), Deliver("b", 0)) == State(h, a, B7, C6)
  {
    hide Cluster.Shaped, Exec, Grant, Log, AfterDeliver;
    FetchByB();
    StepOfB(h, a, B6, C6, Deliver("b", 0), B7);
  }

  lemma GrantSteps(i: nat)
    requires (i == 0 || i == 7 || i == 10) && Trace(i).Shaped()
    ensures Exec(Trace(i), STEPS[i]) == Trace(i + 1)
  {
    hide Grant, Apply, Log, Exec, Cluster.Shaped;
    Commits();
    if i == 0 { CommitStep([M0], Fresh(), Fresh(), Fresh(), STEPS[i].c, M1); }
    else if i == 7 { CommitStep([M0, M1], A2, Fresh(), C4, STEPS[i].c, M2); }
    else { CommitStep([M0, M1, M2], A2, B2, C4, STEPS[i].c, M3); }
  }

  lemma EarlySteps(i: nat)
    requires 1 <= i <= 6 && Trace(i).Shaped()
    ensures Exec(Trace(i), STEPS[i]) == Trace(i + 1)
  {
    hide Exec, Grant, Log, Cluster.Shaped;
    if i == 1 { AOpensTerm(Fresh(), Fresh()); }
    else if i == 2 { AWrites([M0, M1], Fresh(), Fresh()); }
    else if i == 3 { CFollowsA(A2, Fresh()); }
    else if i == 4 { CAsksA([M0, M1], Fresh()); }
    else if i == 5 { AShips([M0, M1], Fresh()); }
    else { CApplies([M0, M1], Fresh()); }
  }

  lemma MiddleSteps(i: nat)
    requires (i == 8 || i == 9 || i == 11 || i == 12) && Trace(i).Shaped()
    ensures Exec(Trace(i), STEPS[i]) == Trace(i + 1)
  {
    hide Exec, Grant, Log, Cluster.Shaped;
    if i == 8 { BOpensTerm(A2, C4); }
    else if i == 9 { BWrites([M0, M1, M2], A2, C4); }
    else if i == 11 { COpensTerm(A2, B2); }
    else { CWrites([M0, M1, M2, M3], A2, B2); }
  }

  lemma LateSteps(i: nat)
    requires 13 <= i <= 17 && Trace(i).Shaped()
    ensures Exec(Trace(i), STEPS[i]) == Trace(i + 1)
  {
    hide Exec, Grant, Log, Cluster.Shaped;
    var h := [M0, M1, M2, M3];
    if i == 13 { BFollowsC(A2, C6); }
    else if i == 14 { BAsksC(h, A2); }
    else if i == 15 { BKeepsAll(h, A2); }
    else if i == 16 { CShips(h, A2); }
    else { BApplies(h, A2); }
  }

  lemma TraceStep(i: nat)
    requires i < 18 && Trace(i).Shaped()
    ensures Exec(Trace(i), STEPS[i]) == Trace(i + 1)
  {
    hide Trace, Exec, Cluster.Shaped;
    if i == 0 || i == 7 || i == 10 { GrantSteps(i); }
    else if i < 7 { EarlySteps(i); }
    else if i < 13 { MiddleSteps(i); }
    else { LateSteps(i); }
  }

  lemma {:induction false} RunIsTrace(i: nat)
    requires i <= 18
    ensures START.Shaped() && Run(START, STEPS[..i]) == Trace(i)
  {
    hide Trace, Exec, Cluster.Shaped;
    StartsFresh();
    if i > 0 {
      RunIsTrace(i - 1);
      RunOneMore(i - 1);
      TraceStep(i - 1);
    }
  }

  lemma StartsFresh()
    ensures Init(START) && Trace(0) == START
  {
  }

  lemma RunOneMore(i: nat)
    requires i < 18 && START.Shaped()
    ensures Run(START, STEPS[..i + 1]) == Exec(Run(START, STEPS[..i]), STEPS[i])
  {
    hide Exec, Cluster.Shaped;
    assert STEPS[..i + 1][..i] == STEPS[..i];
  }

  /** Every step but query 14 meets the conditions on a run. */
  lemma OthersAreOwn(i: nat)
    requires i < 18 && i != 14 && Trace(i).Shaped()
    ensures Own(Trace(i), STEPS[i])
  {
    hide Grant, Cluster.Shaped;
    if i == 4 { CopyByC(); }
    if i == 15 { assert !Truncates(B4); }
  }

  /** Query 14 is answered with term 1 where b asked about term 2. Nothing else in the run is amiss, and at
      the end b and c hold the same term-3 record at sequence 2 on top of different records at sequence 1. */
  lemma ForeignAnswerDiverges()
    ensures Init(START) && Asks(Run(START, STEPS[..14]), "b") && STEPS[14] == Query("b")
    ensures forall i :: 0 <= i < 18 ==> (Own(Run(START, STEPS[..i]), STEPS[i]) <==> i != 14)
    ensures Run(START, STEPS).nodes["b"].log.recs == [X1, Y2]
    ensures Run(START, STEPS).nodes["c"].log.recs == [R1, Y2]
    ensures X1.payload != R1.payload
  {
    hide Exec, Run, Cluster.Shaped, Init, Log, AfterQuery, Trace, Own;
    StartsFresh();
    forall i | 0 <= i < 18 ensures Own(Run(START, STEPS[..i]), STEPS[i]) <==> i != 14 {
      RunIsTrace(i);
      if i != 14 { OthersAreOwn(i); } else { QueryIsForeign(); }
    }
    RunIsTrace(14);
    RunIsTrace(18);
    assert STEPS[..18] == STEPS;
    Ends();
  }

  lemma QueryIsForeign()
    requires Trace(14).Shaped()
    ensures !Own(Trace(14), STEPS[14])
  {
    hide Cluster.Shaped, AfterQuery;
    CopyByB();
    Ends();
  }

  lemma Ends()
    ensures B7.log.recs == [X1, Y2] && C6.log.recs == [R1, Y2] && LatestEpoch(B3.log.hist) == 2
    ensures Trace(18).nodes["b"] == B7 && Trace(18).nodes["c"] == C6 && Asks(Trace(14), "b")
  {
  }
}
