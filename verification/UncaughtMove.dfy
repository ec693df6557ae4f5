/** How a move can drop its source while the destination is behind: a run from an empty cluster.

    Brokers a, b and c register and topic t gets five partitions, placed as the planner places them. The
    controller elects their leaders. Broker d joins, and the planner moves t/0 from a to d. A pass finds d in
    sync and the move enters its last phase, but the hand-over election is refused. Then a reports an ISR
    without d and c. The next pass is still in the last phase, does not look at the ISR again, hands
    leadership to b and removes a. */
module UncaughtMove {
  import opened Metadata
  import opened Planner
  import PL = Placement
  import opened Controllers

  const K := PartitionKey("t", 0)
  const MV := Move(K, "a", "d")
  const THREE := ["a", "b", "c"]
  const FOUR := ["a", "b", "c", "d"]

  // --- the cluster -------------------------------------------------------

  function Listening(id: Node, session: nat): Broker {
    Broker(id, id, "", session, false)
  }

  const A: map<Node, Broker> := map["a" := Listening("a", 1)]
  const AB := A["b" := Listening("b", 1)]
  const ABC := AB["c" := Listening("c", 1)]
  const ABCD := ABC["d" := Listening("d", 1)]

  const PLACEMENTS := [THREE, ["b", "c", "a"], ["c", "a", "b"], ["a", "c", "b"], ["b", "a", "c"]]
  const TOPICS: map<string, TopicMeta> := map["t" := TopicMeta(5, 3)]
  const SIZES: map<PartitionKey, nat> := map i: nat | i < 5 :: PartitionKey("t", i) := 3

  function LedOnce(i: nat): Assignment
    requires i < 5
  {
    Assignment(PLACEMENTS[i][0], 1, PLACEMENTS[i], PLACEMENTS[i], 2)
  }

  /** The partitions other than t/0, the first j of them led. */
  function Rest(j: nat): map<PartitionKey, Assignment> {
    map i: nat | 1 <= i < 5 :: PartitionKey("t", i) := if i <= j then LedOnce(i) else NewAssignment(PLACEMENTS[i])
  }

  function At(brokers: map<Node, Broker>, j: nat, a: Assignment, version: nat,
              moves: map<PartitionKey, MoveState>): Ctl {
    Ctl(Meta(brokers, TOPICS, Rest(j)[K := a], version), moves, SIZES)
  }

  function Registered(brokers: map<Node, Broker>, version: nat): Ctl {
    Ctl(Meta(brokers, map[], map[], version), map[], map[])
  }

  const NO_MOVES: map<PartitionKey, MoveState> := map[]
  const COPY: map<PartitionKey, MoveState> := map[K := MoveState(MV, Expand, 0)]
  const CUT: map<PartitionKey, MoveState> := map[K := MoveState(MV, Shrink, 0)]

  /** The states of the run. */
  function Trace(i: nat): Ctl
    requires i <= 17
  {
    if i == 0 then NOTHING
    else if i == 1 then Registered(A, 1)
    else if i == 2 then Registered(AB, 2)
    else if i == 3 then Registered(ABC, 3)
    else if i == 4 then At(ABC, 0, NewAssignment(THREE), 4, NO_MOVES)
    else if i <= 9 then At(ABC, i - 5, LedOnce(0), i, NO_MOVES)
    else if i == 10 then At(ABCD, 4, LedOnce(0), 10, NO_MOVES)
    else if i == 11 then At(ABCD, 4, Assignment("a", 1, FOUR, THREE, 3), 11, COPY)
    else if i == 12 then At(ABCD, 4, Assignment("a", 1, FOUR, FOUR, 4), 12, COPY)
    else if i == 13 then At(ABCD, 4, Assignment("a", 1, FOUR, FOUR, 4), 12, CUT)
    else if i <= 15 then At(ABCD, 4, Assignment("a", 1, FOUR, ["a", "b"], 5), 13, CUT)
    else if i == 16 then At(ABCD, 4, Assignment("b", 2, FOUR, ["a", "b"], 6), 14, CUT)
    else At(ABCD, 4, Assignment("b", 2, ["b", "c", "d"], ["b"], 7), 15, NO_MOVES)
  }

  function Register(id: Node): Event {
    Outside(RegisterBroker(Listening(id, 0)))
  }

  function Events(timeout: int): (es: seq<Event>)
    ensures |es| == 17
  {
    [Register("a"), Register("b"), Register("c"), Outside(CreateTopic("t", TopicMeta(5, 3), PLACEMENTS)),
     Elect(K, "a", 1), Elect(PartitionKey("t", 1), "b", 1), Elect(PartitionKey("t", 2), "c", 1),
     Elect(PartitionKey("t", 3), "a", 1), Elect(PartitionKey("t", 4), "b", 1), Register("d"),
     Begin(MV, 0, true), Outside(UpdateISR(K, 1, FOUR)), Notice(K, 0, timeout),
     Outside(UpdateISR(K, 1, ["a", "b"])), Notice(K, 0, timeout), Elect(K, "b", 2), Remove(K)]
  }

  // --- lists -------------------------------------------------------------

  lemma Lists()
    ensures THREE + ["d"] == FOUR && Without(FOUR, "a") == ["b", "c", "d"]
    ensures Only(THREE, FOUR) == THREE && Only(["a", "b"], ["b", "c", "d"]) == ["b"]
    ensures OtherInSync(["a", "b"], "a") == Some("b")
  {
    assert FOUR[1..] == ["b", "c", "d"];
    WithoutNone(["b", "c", "d"], "a");
    assert THREE[1..] == ["b", "c"] && ["b", "c"][1..] == ["c"] && ["c"][1..] == [];
    assert Only(["c"], FOUR) == ["c"];
    assert Only(["b", "c"], FOUR) == ["b"] + Only(["c"], FOUR);
    assert Only(THREE, FOUR) == ["a"] + Only(["b", "c"], FOUR);
    assert ["a", "b"][1..] == ["b"] && ["b"][1..] == [];
    assert Only(["b"], ["b", "c", "d"]) == ["b"];
  }

  lemma Reports()
    ensures CleanISR(FOUR, FOUR, []) == Some(FOUR) && CleanISR(["a", "b"], FOUR, []) == Some(["a", "b"])
  {
    assert FOUR[1..] == ["b", "c", "d"] && ["b", "c", "d"][1..] == ["c", "d"];
    assert ["c", "d"][1..] == ["d"] && ["d"][1..] == [];
    assert [] + ["a"] == ["a"] && ["a"] + ["b"] == ["a", "b"] && ["a", "b"] + ["c"] == THREE && THREE + ["d"] == FOUR;
    assert CleanISR(["d"], FOUR, THREE) == Some(FOUR);
    assert CleanISR(["c", "d"], FOUR, ["a", "b"]) == CleanISR(["d"], FOUR, THREE);
    assert CleanISR(["b", "c", "d"], FOUR, ["a"]) == CleanISR(["c", "d"], FOUR, ["a", "b"]);
    assert ["a", "b"][1..] == ["b"] && ["b"][1..] == [];
    assert CleanISR(["b"], FOUR, ["a"]) == Some(["a", "b"]);
  }

  // --- the steps ---------------------------------------------------------

  lemma SizesStay(j: nat, a: Assignment)
    ensures NewSizes(SIZES, Rest(j)[K := a]) == SIZES
    ensures K !in Rest(j)
  {
    hide LedOnce;
    var sizes := NewSizes(SIZES, Rest(j)[K := a]);
    forall k ensures k in sizes <==> k in SIZES {
      assert K == PartitionKey("t", 0);
    }
  }

  lemma Replaced(j: nat, a: Assignment, b: Assignment)
    ensures Rest(j)[K := a][K := b] == Rest(j)[K := b]
  {
    hide Rest;
  }

  lemma Registers()
    ensures Step(Trace(0), Register("a")) == Trace(1) && Step(Trace(1), Register("b")) == Trace(2)
    ensures Step(Trace(2), Register("c")) == Trace(3)
  {
    hide At, Rest, LedOnce;
    assert NewSizes(map[], map[]) == map[];
    assert "b" !in A && "c" !in AB;
  }

  lemma Joins()
    ensures Step(Trace(9), Register("d")) == Trace(10)
  {
    hide Rest, LedOnce, NewSizes;
    SizesStay(4, LedOnce(0));
    assert "d" !in ABC;
  }

  lemma AllPlaced()
    ensures NewPartitions("t", PLACEMENTS) == Rest(0)[K := NewAssignment(THREE)]
  {
    hide LedOnce, NewAssignment;
    var ps, all := NewPartitions("t", PLACEMENTS), Rest(0)[K := NewAssignment(THREE)];
    forall k ensures k in ps <==> k in all {
      if k in ps { assert k == PartitionKey("t", k.id); }
      if k in all { assert k == PartitionKey("t", k.id); }
    }
    forall k | k in ps ensures ps[k] == all[k] {
      assert k == PartitionKey("t", k.id);
    }
  }

  lemma FirstSizes()
    ensures NewSizes(map[], NewPartitions("t", PLACEMENTS)) == SIZES
  {
    var ps := NewPartitions("t", PLACEMENTS);
    var sizes := NewSizes(map[], ps);
    forall k ensures k in sizes <==> k in SIZES {
      if k in SIZES { assert k == PartitionKey("t", k.id); }
      if k in ps { assert k == PartitionKey("t", k.id); }
    }
    forall k | k in ps ensures |ps[k].replicas| == 3 {
      assert k == PartitionKey("t", k.id);
    }
  }

  lemma Creates()
    ensures Step(Trace(3), Outside(CreateTopic("t", TopicMeta(5, 3), PLACEMENTS))) == Trace(4)
  {
    hide LedOnce, Rest, NewPartitions, NewSizes, NewAssignment;
    AllPlaced();
    FirstSizes();
    var ps := NewPartitions("t", PLACEMENTS);
    assert map[] + ps == ps;
    assert map[]["t" := TopicMeta(5, 3)] == TOPICS;
  }

  lemma FirstElection()
    ensures Step(Trace(4), Elect(K, "a", 1)) == Trace(5)
  {
    hide Rest, NewSizes;
    SizesStay(0, LedOnce(0));
    Replaced(0, NewAssignment(THREE), LedOnce(0));
  }

  /** The other partitions are led one by one. */
  lemma RestElection(j: nat)
    requires 1 <= j < 5
    ensures Step(Trace(4 + j), Elect(PartitionKey("t", j), PLACEMENTS[j][0], 1)) == Trace(5 + j)
  {
    hide NewSizes, Rest;
    SizesStay(j, LedOnce(0));
    RestGrows(j);
  }

  lemma RestGrows(j: nat)
    requires 1 <= j < 5
    ensures var was, k := Rest(j - 1)[K := LedOnce(0)], PartitionKey("t", j);
      && k in was && was[k] == NewAssignment(PLACEMENTS[j])
      && was[k := LedOnce(j)] == Rest(j)[K := LedOnce(0)]
  {
    hide LedOnce, NewAssignment;
    var was, now, k := Rest(j - 1)[K := LedOnce(0)], Rest(j)[K := LedOnce(0)], PartitionKey("t", j);
    forall x ensures x in was[k := LedOnce(j)] <==> x in now {
      if x in was || x in now { assert x == PartitionKey("t", x.id); }
    }
    forall x | x in now ensures now[x] == was[k := LedOnce(j)][x] {
      assert x == PartitionKey("t", x.id);
    }
  }

  lemma OneStep(j: nat, a: Assignment, b: Assignment, version: nat, moves: map<PartitionKey, MoveState>)
    ensures var s := At(ABCD, j, a, version, moves);
      Ctl(s.meta.(partitions := s.meta.partitions[K := b], version := version + 1), moves,
          NewSizes(SIZES, s.meta.partitions[K := b])) == At(ABCD, j, b, version + 1, moves)
  {
    hide Rest, NewSizes;
    SizesStay(j, b);
    Replaced(j, a, b);
  }

  lemma Begins()
    ensures Step(Trace(10), Begin(MV, 0, true)) == Trace(11)
  {
    hide Only, Without, Rest, NewSizes;
    Lists();
    OneStep(4, LedOnce(0), Assignment("a", 1, FOUR, THREE, 3), 10, NO_MOVES);
  }

  lemma IsrReports()
    ensures Step(Trace(11), Outside(UpdateISR(K, 1, FOUR))) == Trace(12)
    ensures Step(Trace(13), Outside(UpdateISR(K, 1, ["a", "b"]))) == Trace(14)
  {
    hide CleanISR, Rest, NewSizes;
    Reports();
    OneStep(4, Assignment("a", 1, FOUR, THREE, 3), Assignment("a", 1, FOUR, FOUR, 4), 11, COPY);
    OneStep(4, Assignment("a", 1, FOUR, FOUR, 4), Assignment("a", 1, FOUR, ["a", "b"], 5), 12, CUT);
  }

  lemma Notices(timeout: int)
    ensures Step(Trace(12), Notice(K, 0, timeout)) == Trace(13)
    ensures Step(Trace(14), Notice(K, 0, timeout)) == Trace(15)
  {
    hide Rest;
  }

  lemma HandsOver()
    ensures Step(Trace(15), Elect(K, "b", 2)) == Trace(16)
  {
    hide Rest, NewSizes;
    OneStep(4, Assignment("a", 1, FOUR, ["a", "b"], 5), Assignment("b", 2, FOUR, ["a", "b"], 6), 13, CUT);
  }

  lemma Removes()
    ensures Step(Trace(16), Remove(K)) == Trace(17)
  {
    hide Only, Without, Rest, NewSizes;
    Lists();
    OneStep(4, Assignment("b", 2, FOUR, ["a", "b"], 6), Assignment("b", 2, ["b", "c", "d"], ["b"], 7), 14, CUT);
    assert CUT - {K} == NO_MOVES;
  }

  /** The two passes as the controller makes them: refused the first time, carried out the second. */
  lemma Passes(timeout: int)
    ensures AdvanceMove(Trace(12), K, 0, timeout, false, true) == Trace(13)
    ensures AdvanceMove(Trace(14), K, 0, timeout, true, true) == Trace(17)
  {
    hide NoticeMove, After, Without, Only, Finish, Rest;
    Notices(timeout);
    HandsOver();
    Removes();
    Lists();
    assert OtherInSync(FOUR, "a") == Some("b") by { assert FOUR[1..] == ["b", "c", "d"]; }
  }

  // --- the run -----------------------------------------------------------

  lemma TraceStep(timeout: int, i: nat)
    requires i < 17
    ensures Step(Trace(i), Events(timeout)[i]) == Trace(i + 1)
  {
    hide Step, Trace;
    Registers();
    Creates();
    FirstElection();
    if 5 <= i < 9 { RestElection(i - 4); }
    Joins();
    Begins();
    IsrReports();
    Notices(timeout);
    HandsOver();
    Removes();
  }

  lemma TraceAllowed(timeout: int, i: nat)
    requires i < 17
    ensures Allowed(Trace(i), Events(timeout)[i])
  {
    hide Trace, DistinctNodes;
    DistinctPlacements();
    if 4 <= i < 9 || i == 15 { ElectAllowed(i, timeout); }
    if i == 16 { RemoveAllowed(); }
  }

  lemma ElectAllowed(i: nat, timeout: int)
    requires 4 <= i < 9 || i == 15
    ensures Allowed(Trace(i), Events(timeout)[i])
  {
    hide Rest, LedOnce, Allowed;
    if 5 <= i < 9 {
      RestElectAllowed(i - 4, i);
    } else if i == 4 {
      KElectAllowed(ABC, 0, NewAssignment(THREE), 4, NO_MOVES, "a", 1);
    } else {
      KElectAllowed(ABCD, 4, Assignment("a", 1, FOUR, ["a", "b"], 5), 13, CUT, "b", 2);
    }
  }

  lemma RestElectAllowed(j: nat, version: nat)
    requires 1 <= j < 5
    ensures Allowed(At(ABC, j - 1, LedOnce(0), version, NO_MOVES), Elect(PartitionKey("t", j), PLACEMENTS[j][0], 1))
  {
    hide Rest, LedOnce;
    RestGrows(j);
  }

  lemma KElectAllowed(brokers: map<Node, Broker>, j: nat, a: Assignment, version: nat,
                      moves: map<PartitionKey, MoveState>, n: Node, epoch: nat)
    requires n in a.replicas
    ensures Allowed(At(brokers, j, a, version, moves), Elect(K, n, epoch))
  {
    hide Rest;
  }

  lemma RemoveAllowed()
    ensures Allowed(Trace(16), Remove(K))
  {
    hide Rest;
  }

  lemma DistinctPlacements()
    ensures forall i :: 0 <= i < 5 ==> DistinctNodes(PLACEMENTS[i])
  {
  }

  lemma {:induction false} RunIsTrace(timeout: int, i: nat)
    requires i <= 17
    ensures AllowedRun(NOTHING, Events(timeout)[..i]) && Run(NOTHING, Events(timeout)[..i]) == Trace(i)
    decreases i
  {
    hide Step, Allowed, Trace, Events;
    if i == 0 {
      RunNone(NOTHING);
      StartsAtNothing();
    } else {
      RunIsTrace(timeout, i - 1);
      TraceStep(timeout, i - 1);
      TraceAllowed(timeout, i - 1);
      RunSnoc(NOTHING, Events(timeout)[..i - 1], Events(timeout)[i - 1]);
      assert Events(timeout)[..i] == Events(timeout)[..i - 1] + [Events(timeout)[i - 1]];
    }
  }

  lemma StartsAtNothing()
    ensures Trace(0) == NOTHING
  {
  }

  /** The source is gone, the destination is not in sync, and one in-sync copy is left of three. */
  lemma DropsSourceUncaught(timeout: int)
    ensures AllowedRun(NOTHING, Events(timeout)) && Safe(Run(NOTHING, Events(timeout)))
    ensures var ps := Run(NOTHING, Events(timeout)).meta.partitions;
      K in ps && ps[K] == Assignment("b", 2, ["b", "c", "d"], ["b"], 7) && MV.to !in ps[K].isr
  {
    hide Safe, Step, Allowed, Run;
    RunIsTrace(timeout, 17);
    assert Events(timeout)[..17] == Events(timeout);
    ReachedSafe(Events(timeout));
  }

  // --- the controller makes it -------------------------------------------

  /** The partitions are placed as the planner places them on a, b and c. */
  lemma PlacedByPlanner(i: nat)
    requires i < 5
    ensures PL.PlaceList(THREE, i, 3) == PLACEMENTS[i]
  {
    hide PL.PlaceList, PL.FirstFree;
    PL.FirstPlaced(THREE, i);
    Offsets(i);
    PL.TakenAtOnce(THREE, i, 2);
    PL.TakenAtOnce(THREE, i, 3);
  }

  lemma Offsets(i: nat)
    requires i < 5
    ensures var s, p := PL.Step(i, 3), PLACEMENTS[i];
      p == [THREE[i % 3], THREE[(i % 3 + 1 * s) % 3], THREE[(i % 3 + 2 * s) % 3]] && DistinctNodes(p)
  {
    assert PL.Step(i, 3) == if i < 3 then 1 else 2;
  }

  /** Every first election of the run is the one the controller makes of the metadata, whatever its settings. */
  lemma ElectedByController(i: nat, preferred: bool, unclean: bool, timeout: int)
    requires i < 5
    ensures var m, k := Trace(4 + i).meta, PartitionKey("t", i);
      && k in m.partitions
      && Events(timeout)[4 + i] == Elect(k, ElectLeader(m.partitions[k], Live(m.brokers), preferred, unclean), 1)
  {
    hide Rest, LedOnce, ElectLeader;
    FirstElected(i, preferred, unclean);
    if i > 0 { RestGrows(i); }
  }

  lemma FirstElected(i: nat, preferred: bool, unclean: bool)
    requires i < 5
    ensures ElectLeader(NewAssignment(PLACEMENTS[i]), Live(ABC), preferred, unclean) == PLACEMENTS[i][0]
  {
    assert PLACEMENTS[i][0] in Live(ABC);
  }

  const JOINED := [Listening("a", 1), Listening("b", 1), Listening("c", 1), Listening("d", 1)]

  function SlotsTo(k: nat): (slots: seq<Slot>)
    requires k <= 5
    ensures |slots| == k
  {
    seq(k, i requires 0 <= i < k => Slot(PartitionKey("t", i), PLACEMENTS[i]))
  }

  lemma {:induction false} HeldTo(k: nat)
    requires k <= 5
    ensures var m := Held(SlotsTo(k)); |m| == 3 * k && m["a"] == k && m["d"] == 0
    decreases k
  {
    hide Held;
    if k == 0 {
      HeldNone();
    } else {
      HeldTo(k - 1);
      assert SlotsTo(k)[..k - 1] == SlotsTo(k - 1) && SlotsTo(k)[..k] == SlotsTo(k);
      HeldSnoc(SlotsTo(k), k - 1);
      OneOfEach(k - 1);
    }
  }

  lemma HeldNone()
    ensures Held(SlotsTo(0)) == multiset{}
  {
  }

  lemma OneOfEach(i: nat)
    requires i < 5
    ensures |PLACEMENTS[i]| == 3 && multiset(PLACEMENTS[i])["a"] == 1 && multiset(PLACEMENTS[i])["d"] == 0
  {
    DistinctPlacements();
    HeldOnce(PLACEMENTS[i], "a");
    HeldOnce(PLACEMENTS[i], "d");
  }

  /** With d there, a holds five of fifteen replicas over four brokers: one more than the ceiling. */
  lemma MoveIsWorthwhile()
    ensures var us, slots := Ids(Usable(JOINED)), SlotsTo(5);
      && us == FOUR && Ceiling(slots, 4, 1) == 4 && Worthwhile(us, slots[0], Held(slots), 4, "a", "d")
  {
    hide Held, Usable;
    AllUsable(JOINED);
    assert Ids(JOINED) == FOUR;
    HeldTo(5);
  }

  lemma SlotsAreSound()
    ensures Sound(SlotsTo(5)) && SlotsOf(SlotsTo(5), Trace(10).meta.partitions)
  {
    hide DistinctNodes, Rest, LedOnce;
    DistinctPlacements();
    var slots, ps := SlotsTo(5), Trace(10).meta.partitions;
    forall i | 0 <= i < 5 ensures slots[i].key in ps && ps[slots[i].key].replicas == PLACEMENTS[i] { LedParts(i); }
    forall k | k in ps ensures exists i :: 0 <= i < |slots| && slots[i].key == k {
      PartsOf(k);
      assert slots[k.id].key == k;
    }
  }

  lemma LedParts(i: nat)
    requires i < 5
    ensures var ps, k := Rest(4)[K := LedOnce(0)], PartitionKey("t", i); k in ps && ps[k] == LedOnce(i)
    ensures LedOnce(i).replicas == LedOnce(i).isr == PLACEMENTS[i]
  {
  }

  lemma PartsOf(k: PartitionKey)
    requires k in Rest(4)[K := LedOnce(0)]
    ensures k.topic == "t" && k.id < 5
  {
  }

  lemma JoinedBrokers()
    ensures BrokersOf(JOINED, Trace(10).meta.brokers)
  {
    hide Rest;
    assert JOINED[0] in JOINED && JOINED[1] in JOINED && JOINED[2] in JOINED && JOINED[3] in JOINED;
  }

  /** What a sweep finds before the move: everyone is in sync, and these are the brokers and placements. */
  lemma SweepFinds()
    ensures var m := Trace(10).meta;
      Quiet(m.partitions) && BrokersOf(JOINED, m.brokers) && Sound(SlotsTo(5)) && SlotsOf(SlotsTo(5), m.partitions)
  {
    hide Trace, Sound, SlotsOf, BrokersOf, Quiet;
    AllInSync();
    JoinedBrokers();
    SlotsAreSound();
  }

  /** The first slot is ready, with one replica to go first and one place to go. */
  lemma FirstChoice(load: map<Node, nat>, i: nat, mv: Move)
    requires load == LoadTable(FOUR, Held(SlotsTo(5))) && i < 5 && NothingReady(SlotsTo(5), load, 4, i)
    requires mv.key == SlotsTo(5)[i].key && Ready(SlotsTo(5)[i], load, 4, mv.from, mv.to)
    requires FirstReady(SlotsTo(5)[i], load, 4, mv.from)
    ensures mv == MV
  {
    hide Held;
    HeldTo(5);
    var s := SlotsTo(5)[0];
    assert Ready(s, load, 4, "a", "d");
  }

  /** The planner, capped at one move, returns exactly this one. */
  method PlannerReturns() returns (plan: seq<Move>)
    ensures plan == [MV]
  {
    hide Held, Usable, Planned, Ceiling, Worthwhile, Settled, Sound, DistinctBrokers, BestTarget, FirstReady, Ready,
      NothingReady, LoadTable, ApplyPlan;
    MoveIsWorthwhile();
    SlotsAreSound();
    JoinedDistinct();
    plan := Rebalance(SlotsTo(5), JOINED, 1, 1);
    if plan == [] { NotSettled(); }
    assert ChosenFor(SlotsTo(5), JOINED, 4, plan, 0);
    ghost var i :| 0 <= i < 5 && ChosenAt(SlotsTo(5), JOINED, 4, plan, 0, i);
    NoMoves(SlotsTo(5), plan[..0]);
    FirstChoice(LoadTable(FOUR, Held(SlotsTo(5))), i, plan[0]);
  }

  lemma NotSettled()
    ensures !Settled(FOUR, SlotsTo(5), 4)
  {
    hide Held, Usable, Ceiling, Worthwhile;
    MoveIsWorthwhile();
  }

  lemma JoinedDistinct()
    ensures DistinctBrokers(JOINED) && Usable(JOINED) == JOINED
  {
    hide Usable;
    AllUsable(JOINED);
  }

  lemma AllInSync()
    ensures Quiet(Trace(10).meta.partitions)
  {
    hide Rest, LedOnce;
    var ps := Trace(10).meta.partitions;
    forall k | k in ps ensures |ps[k].isr| >= |ps[k].replicas| {
      PartsOf(k);
      LedParts(k.id);
    }
  }
}
