/** The rebalancer: which replicas to move, and why planning again and again comes to an end. */
module Planner {
  import opened Metadata

  /** What the planner reads of an assignment. */
  datatype Slot = Slot(key: PartitionKey, replicas: seq<Node>)

  datatype Move = Move(key: PartitionKey, from: Node, to: Node)

  predicate DistinctNodes(s: seq<Node>) {
    forall i, j :: 0 <= i < j < |s| ==> s[i] != s[j]
  }

  /** One slot per partition, each with distinct replicas. */
  predicate Sound(slots: seq<Slot>) {
    && (forall i, j :: 0 <= i < j < |slots| ==> slots[i].key != slots[j].key)
    && (forall i :: 0 <= i < |slots| ==> DistinctNodes(slots[i].replicas))
  }

  // --- load --------------------------------------------------------------

  /** Every replica held anywhere: the load of broker b is its multiplicity. */
  ghost function Held(slots: seq<Slot>): multiset<Node> {
    if slots == [] then multiset{} else Held(slots[..|slots| - 1]) + multiset(slots[|slots| - 1].replicas)
  }

  /** Replicas on the given brokers. */
  ghost function OnLive(us: seq<Node>, m: multiset<Node>): nat {
    if us == [] then 0 else OnLive(us[..|us| - 1], m) + m[us[|us| - 1]]
  }

  ghost function SumSquares(us: seq<Node>, m: multiset<Node>): nat {
    if us == [] then 0 else
      var b := us[|us| - 1];
      SumSquares(us[..|us| - 1], m) + m[b] * m[b]
  }

  lemma {:induction false} OnLiveUpdate(us: seq<Node>, m: multiset<Node>, x: Node, k: nat)
    requires DistinctNodes(us)
    ensures OnLive(us, m[x := k]) == OnLive(us, m) + if x in us then k - m[x] else 0
    decreases |us|
  {
    if us != [] {
      var n := |us| - 1;
      OnLiveUpdate(us[..n], m, x, k);
      assert us == us[..n] + [us[n]];
    }
  }

  lemma {:induction false} SumSquaresUpdate(us: seq<Node>, m: multiset<Node>, x: Node, k: nat)
    requires DistinctNodes(us)
    ensures SumSquares(us, m[x := k]) == SumSquares(us, m) + if x in us then k * k - m[x] * m[x] else 0
    decreases |us|
  {
    if us != [] {
      var n := |us| - 1;
      SumSquaresUpdate(us[..n], m, x, k);
      assert us == us[..n] + [us[n]];
    }
  }

  lemma {:induction false} OnLiveBounded(us: seq<Node>, m: multiset<Node>)
    requires DistinctNodes(us)
    ensures OnLive(us, m) <= |m|
    decreases |us|
  {
    if us != [] {
      var b := us[|us| - 1];
      var rest := us[..|us| - 1];
      OnLiveBounded(rest, m[b := 0]);
      OnLiveUpdate(rest, m, b, 0);
      assert b !in rest;
      assert m == m[b := 0] + multiset{b}[b := m[b]];
    }
  }

  /** Replicas on brokers that are gone. */
  ghost function Stranded(us: seq<Node>, m: multiset<Node>): int {
    |m| - OnLive(us, m)
  }

  ghost function Hop(m: multiset<Node>, from: Node, to: Node): multiset<Node> {
    m - multiset{from} + multiset{to}
  }

  /** The measure that every move lowers: first the stranded replicas, then the sum of squared loads. */
  ghost predicate Lower(us: seq<Node>, m': multiset<Node>, m: multiset<Node>) {
    || Stranded(us, m') < Stranded(us, m)
    || (Stranded(us, m') == Stranded(us, m) && SumSquares(us, m') < SumSquares(us, m))
  }

  lemma HopUpdates(m: multiset<Node>, from: Node, to: Node)
    requires from in m && from != to
    ensures Hop(m, from, to) == m[from := m[from] - 1][to := m[to] + 1]
    ensures |Hop(m, from, to)| == |m|
  {
  }

  /** A worthwhile move lowers the measure. */
  lemma HopLowers(us: seq<Node>, m: multiset<Node>, from: Node, to: Node, ceiling: nat)
    requires DistinctNodes(us) && from in m && to in us && from != to
    requires from !in us || m[from] > ceiling
    requires m[to] < ceiling
    ensures Lower(us, Hop(m, from, to), m)
  {
    HopUpdates(m, from, to);
    var m1 := m[from := m[from] - 1];
    OnLiveUpdate(us, m, from, m[from] - 1);
    OnLiveUpdate(us, m1, to, m[to] + 1);
    SumSquaresUpdate(us, m, from, m[from] - 1);
    SumSquaresUpdate(us, m1, to, m[to] + 1);
    if from in us { Squares(m[from], m[to]); }
  }

  lemma Squares(a: nat, b: nat)
    requires a > b + 1
    ensures (a - 1) * (a - 1) - a * a + (b + 1) * (b + 1) - b * b < 0
  {
    assert (a - 1) * (a - 1) == a * a - 2 * a + 1;
    assert (b + 1) * (b + 1) == b * b + 2 * b + 1;
  }

  lemma LowerTransitive(us: seq<Node>, a: multiset<Node>, b: multiset<Node>, c: multiset<Node>)
    requires Lower(us, a, b) && Lower(us, b, c)
    ensures Lower(us, a, c)
  {
  }

  // --- applying a plan ---------------------------------------------------

  /** The move once it is complete: the new replica added, the old one removed. */
  function Moved(s: Slot, mv: Move): Slot {
    s.(replicas := Without(s.replicas, mv.from) + [mv.to])
  }

  function ApplyMove(slots: seq<Slot>, mv: Move): (r: seq<Slot>)
    ensures |r| == |slots|
  {
    seq(|slots|, i requires 0 <= i < |slots| => if slots[i].key == mv.key then Moved(slots[i], mv) else slots[i])
  }

  function ApplyPlan(slots: seq<Slot>, moves: seq<Move>): (r: seq<Slot>)
    ensures |r| == |slots|
  {
    if moves == [] then slots else ApplyMove(ApplyPlan(slots, moves[..|moves| - 1]), moves[|moves| - 1])
  }

  lemma WithoutOne(s: seq<Node>, n: Node)
    requires DistinctNodes(s) && n in s
    ensures DistinctNodes(Without(s, n)) && |Without(s, n)| == |s| - 1
    ensures multiset(Without(s, n)) == multiset(s) - multiset{n}
  {
    WithoutDistinct(s, n);
    WithoutCounts(s, n);
    assert |multiset(Without(s, n))| == |multiset(s)| - 1;
  }

  lemma {:induction false} WithoutDistinct(s: seq<Node>, n: Node)
    requires DistinctNodes(s)
    ensures DistinctNodes(Without(s, n))
    decreases |s|
  {
    if s != [] {
      WithoutDistinct(s[1..], n);
      assert s[0] !in s[1..];
    }
  }

  lemma {:induction false} WithoutCounts(s: seq<Node>, n: Node)
    requires DistinctNodes(s) && n in s
    ensures multiset(Without(s, n)) == multiset(s) - multiset{n}
    decreases |s|
  {
    assert s == [s[0]] + s[1..];
    if s[0] == n {
      WithoutNone(s[1..], n);
    } else {
      WithoutCounts(s[1..], n);
    }
  }

  lemma {:induction false} WithoutNone(s: seq<Node>, n: Node)
    requires n !in s
    ensures Without(s, n) == s
    decreases |s|
  {
    if s != [] { WithoutNone(s[1..], n); }
  }

  lemma MovedKeeps(s: Slot, mv: Move)
    requires DistinctNodes(s.replicas) && mv.from in s.replicas && mv.to !in s.replicas
    ensures var r := Moved(s, mv).replicas;
      && DistinctNodes(r) && |r| == |s.replicas|
      && multiset(r) == multiset(s.replicas) - multiset{mv.from} + multiset{mv.to}
  {
    WithoutOne(s.replicas, mv.from);
  }

  lemma {:induction false} HeldUpdate(slots: seq<Slot>, i: nat, s': Slot)
    requires i < |slots|
    ensures multiset(slots[i].replicas) <= Held(slots)
    ensures Held(slots[i := s']) == Held(slots) - multiset(slots[i].replicas) + multiset(s'.replicas)
    decreases |slots|
  {
    var n := |slots| - 1;
    if i < n {
      HeldUpdate(slots[..n], i, s');
      assert slots[i := s'][..n] == slots[..n][i := s'];
    } else {
      assert slots[i := s'][..n] == slots[..n];
    }
  }

  lemma ApplyAt(slots: seq<Slot>, mv: Move, i: nat)
    requires Sound(slots) && i < |slots| && slots[i].key == mv.key
    ensures ApplyMove(slots, mv) == slots[i := Moved(slots[i], mv)]
  {
  }

  /** Same partitions, in order, with as many replicas each. */
  predicate SameShape(a: seq<Slot>, b: seq<Slot>) {
    |a| == |b| && forall i :: 0 <= i < |a| ==> a[i].key == b[i].key && |a[i].replicas| == |b[i].replicas|
  }

  lemma ReplaceKeeps(slots: seq<Slot>, i: nat, s': Slot)
    requires Sound(slots) && i < |slots| && s'.key == slots[i].key && DistinctNodes(s'.replicas)
    requires |s'.replicas| == |slots[i].replicas|
    ensures Sound(slots[i := s']) && SameShape(slots, slots[i := s'])
  {
    hide DistinctNodes;
  }

  lemma ApplyMoveKeeps(slots: seq<Slot>, mv: Move, i: nat)
    requires Sound(slots) && i < |slots| && slots[i].key == mv.key
    requires mv.from in slots[i].replicas && mv.to !in slots[i].replicas
    ensures var r := ApplyMove(slots, mv);
      Sound(r) && SameShape(slots, r) && Held(r) == Hop(Held(slots), mv.from, mv.to)
    ensures mv.from in Held(slots)
  {
    hide Held, ApplyMove, DistinctNodes, Without, SameShape;
    ApplyAt(slots, mv, i);
    assert DistinctNodes(slots[i].replicas);
    MovedKeeps(slots[i], mv);
    ReplaceKeeps(slots, i, Moved(slots[i], mv));
    HeldUpdate(slots, i, Moved(slots[i], mv));
    HopWithin(Held(slots), multiset(slots[i].replicas), mv.from, mv.to);
  }

  lemma HopWithin(m: multiset<Node>, part: multiset<Node>, from: Node, to: Node)
    requires part <= m && from in part
    ensures from in m && m - part + (part - multiset{from} + multiset{to}) == Hop(m, from, to)
  {
  }

  function Max(a: nat, b: nat): nat {
    if a < b then b else a
  }

  ghost predicate UnderCeiling(us: seq<Node>, now: multiset<Node>, was: multiset<Node>, ceiling: nat) {
    forall b :: b in us ==> now[b] <= Max(was[b], ceiling)
  }

  /** What holds of a plan under construction. */
  ghost predicate Planned(us: seq<Node>, slots: seq<Slot>, moves: seq<Move>, ceiling: nat) {
    var cur := ApplyPlan(slots, moves);
    && Sound(cur) && SameShape(slots, cur)
    && (moves != [] ==> Lower(us, Held(cur), Held(slots)))
    && UnderCeiling(us, Held(cur), Held(slots), ceiling)
  }

  /** A move worth making: off a broker that is gone or too loaded, onto one with room that lacks the partition. */
  ghost predicate Worthwhile(us: seq<Node>, s: Slot, m: multiset<Node>, ceiling: nat, from: Node, to: Node) {
    && from in s.replicas && (from !in us || m[from] > ceiling)
    && to in us && to !in s.replicas && m[to] < ceiling
  }

  lemma PlanNone(us: seq<Node>, slots: seq<Slot>, ceiling: nat)
    requires Sound(slots)
    ensures Planned(us, slots, [], ceiling) && ApplyPlan(slots, []) == slots
  {
  }

  lemma PlanSnoc(slots: seq<Slot>, moves: seq<Move>, mv: Move)
    ensures ApplyPlan(slots, moves + [mv]) == ApplyMove(ApplyPlan(slots, moves), mv)
  {
    assert (moves + [mv])[..|moves|] == moves;
  }

  lemma PlanStep(us: seq<Node>, slots: seq<Slot>, moves: seq<Move>, ceiling: nat, i: nat, mv: Move)
    requires DistinctNodes(us) && Planned(us, slots, moves, ceiling) && i < |slots| && mv.key == slots[i].key
    requires var cur := ApplyPlan(slots, moves); Worthwhile(us, cur[i], Held(cur), ceiling, mv.from, mv.to)
    ensures Planned(us, slots, moves + [mv], ceiling)
    ensures Held(ApplyPlan(slots, moves + [mv])) == Hop(Held(ApplyPlan(slots, moves)), mv.from, mv.to)
  {
    hide Held, ApplyMove, ApplyPlan, Lower, Stranded, SumSquares;
    var cur := ApplyPlan(slots, moves);
    PlanSnoc(slots, moves, mv);
    ApplyMoveKeeps(cur, mv, i);
    HopLowers(us, Held(cur), mv.from, mv.to, ceiling);
    if moves != [] {
      LowerTransitive(us, Hop(Held(cur), mv.from, mv.to), Held(cur), Held(slots));
    } else {
      NoMoves(slots, moves);
    }
  }

  lemma NoMoves(slots: seq<Slot>, moves: seq<Move>)
    requires moves == []
    ensures ApplyPlan(slots, moves) == slots
  {
  }

  // --- planning ----------------------------------------------------------

  function Ids(us: seq<Broker>): (r: seq<Node>)
    ensures |r| == |us|
  {
    seq(|us|, i requires 0 <= i < |us| => us[i].id)
  }

  /** The rack of a broker, blank for one that is gone. */
  function RackOf(racks: map<Node, string>, n: Node): string {
    if n in racks then racks[n] else ""
  }

  /** The racks of the other replicas. */
  method RacksInUse(replicas: seq<Node>, from: Node, racks: map<Node, string>) returns (used: set<string>)
    ensures forall r :: r in used <==> exists n :: n in replicas && n != from && RackOf(racks, n) == r
  {
    used := {};
    for i := 0 to |replicas|
      invariant forall r :: r in used <==> exists n :: n in replicas[..i] && n != from && RackOf(racks, n) == r
    {
      assert replicas[..i + 1] == replicas[..i] + [replicas[i]];
      if replicas[i] != from { used := used + {RackOf(racks, replicas[i])}; }
    }
    assert replicas[..|replicas|] == replicas;
  }

  function Score(load: nat, clash: bool): nat {
    2 * load + if clash then 1 else 0
  }

  /** Load first; a rack already in use loses between brokers of equal load, and only there. */
  lemma ScoreOrders(l: nat, c: bool, l': nat, c': bool)
    ensures Score(l, c) <= Score(l', c') <==> l < l' || (l == l' && (c ==> c'))
  {
  }

  predicate Candidate(s: Slot, n: Node, load: map<Node, nat>, ceiling: nat)
    requires n in load
  {
    n !in s.replicas && load[n] < ceiling
  }

  /** The best broker to receive a replica, or "" when there is none. */
  method PickTarget(s: Slot, from: Node, us: seq<Broker>, load: map<Node, nat>, racks: map<Node, string>, ceiling: nat)
    returns (best: Node, ghost used: set<string>)
    requires forall i :: 0 <= i < |us| ==> us[i].id != "" && us[i].id in load
    ensures forall r :: r in used <==> exists n :: n in s.replicas && n != from && RackOf(racks, n) == r
    ensures best == "" <==> forall i :: 0 <= i < |us| ==> !Candidate(s, us[i].id, load, ceiling)
    ensures best != "" ==> best in Ids(us) && best in load && Candidate(s, best, load, ceiling)
    ensures best != "" ==> forall i :: 0 <= i < |us| && Candidate(s, us[i].id, load, ceiling) ==>
      Score(load[best], RackOf(racks, best) in used) <= Score(load[us[i].id], RackOf(racks, us[i].id) in used)
  {
    hide RackOf, Score;
    var inUse := RacksInUse(s.replicas, from, racks);
    used := inUse;
    best := "";
    var bestScore := 0;
    for k := 0 to |us|
      invariant best == "" <==> forall i :: 0 <= i < k ==> !Candidate(s, us[i].id, load, ceiling)
      invariant best != "" ==> best in Ids(us) && best in load && Candidate(s, best, load, ceiling)
      invariant best != "" ==> bestScore == Score(load[best], RackOf(racks, best) in inUse)
      invariant best != "" ==> forall i :: 0 <= i < k && Candidate(s, us[i].id, load, ceiling) ==>
        bestScore <= Score(load[us[i].id], RackOf(racks, us[i].id) in inUse)
    {
      var b := us[k].id;
      assert Ids(us)[k] == b;
      if b !in s.replicas && load[b] < ceiling {
        var score := Score(load[b], RackOf(racks, b) in inUse);
        if best == "" || score < bestScore { best, bestScore := b, score; }
      }
    }
  }

  /** `from` is the first replica that should go and has somewhere to go. */
  ghost predicate FirstReady(s: Slot, load: map<Node, nat>, ceiling: nat, from: Node) {
    exists k :: 0 <= k < |s.replicas| && s.replicas[k] == from && NoneReady(s, load, ceiling, k)
  }

  ghost predicate NoneReady(s: Slot, load: map<Node, nat>, ceiling: nat, k: nat) {
    forall i, to :: 0 <= i < k && i < |s.replicas| ==> !Ready(s, load, ceiling, s.replicas[i], to)
  }

  /** No candidate scores better than `to`. */
  ghost predicate BestTarget(s: Slot, us: seq<Broker>, load: map<Node, nat>, racks: map<Node, string>, ceiling: nat,
                             from: Node, to: Node)
    requires to in load && forall i :: 0 <= i < |us| ==> us[i].id in load
  {
    forall i :: 0 <= i < |us| && Candidate(s, us[i].id, load, ceiling) ==>
      Score(load[to], RackUsed(s, from, racks, to)) <= Score(load[us[i].id], RackUsed(s, from, racks, us[i].id))
  }

  /** Another replica of the partition is in n's rack. */
  ghost predicate RackUsed(s: Slot, from: Node, racks: map<Node, string>, n: Node) {
    exists x :: x in s.replicas && x != from && RackOf(racks, x) == RackOf(racks, n)
  }

  /** The move a plan makes of one partition. */
  ghost predicate Chosen(s: Slot, us: seq<Broker>, load: map<Node, nat>, racks: map<Node, string>, ceiling: nat,
                         mv: Move)
    requires forall i :: 0 <= i < |us| ==> us[i].id in load
  {
    && mv.key == s.key && Ready(s, load, ceiling, mv.from, mv.to) && FirstReady(s, load, ceiling, mv.from)
    && BestTarget(s, us, load, racks, ceiling, mv.from, mv.to)
  }

  /** At most one move for a partition: its first replica that should go and has somewhere to go. */
  method PlanSlot(s: Slot, us: seq<Broker>, load: map<Node, nat>, racks: map<Node, string>, ceiling: nat)
    returns (mv: Option<Move>)
    requires forall i :: 0 <= i < |us| ==> us[i].id != "" && us[i].id in load
    requires load.Keys == set n | n in Ids(us)
    ensures mv.Some? ==> Chosen(s, us, load, racks, ceiling, mv.value)
    ensures mv.None? ==> forall from, to :: !Ready(s, load, ceiling, from, to)
  {
    hide Score, RackOf;
    for k := 0 to |s.replicas|
      invariant NoneReady(s, load, ceiling, k)
    {
      var from := s.replicas[k];
      if from !in load || load[from] > ceiling {
        var to, used := PickTarget(s, from, us, load, racks, ceiling);
        if to != "" {
          UsedRacks(s, us, load, racks, ceiling, from, to, used);
          return Some(Move(s.key, from, to));
        }
        forall t ensures !Ready(s, load, ceiling, from, t) {
          if t in load {
            var i :| 0 <= i < |us| && Ids(us)[i] == t;
            assert !Candidate(s, us[i].id, load, ceiling);
          }
        }
      }
    }
    mv := None;
  }

  lemma UsedRacks(s: Slot, us: seq<Broker>, load: map<Node, nat>, racks: map<Node, string>, ceiling: nat, from: Node,
                  to: Node, used: set<string>)
    requires to in load && forall i :: 0 <= i < |us| ==> us[i].id in load
    requires forall r :: r in used <==> exists n :: n in s.replicas && n != from && RackOf(racks, n) == r
    requires forall i :: 0 <= i < |us| && Candidate(s, us[i].id, load, ceiling) ==>
      Score(load[to], RackOf(racks, to) in used) <= Score(load[us[i].id], RackOf(racks, us[i].id) in used)
    ensures BestTarget(s, us, load, racks, ceiling, from, to)
  {
    hide Score, RackOf;
  }

  /** Worthwhile, as the planner's own load table has it. */
  predicate Ready(s: Slot, load: map<Node, nat>, ceiling: nat, from: Node, to: Node) {
    && from in s.replicas && (from !in load || load[from] > ceiling)
    && to in load && to !in s.replicas && load[to] < ceiling
  }

  /** Brokers that can host a partition: unfenced and with a replication listener. */
  function Usable(brokers: seq<Broker>): seq<Broker> {
    if brokers == [] then [] else
      var n := |brokers| - 1;
      Usable(brokers[..n]) + if !brokers[n].fenced && brokers[n].streamAddr != "" then [brokers[n]] else []
  }

  /** A broker that can host a partition: not fenced, and with an address to replicate from. */
  predicate Hosts(b: Broker) {
    !b.fenced && b.streamAddr != ""
  }

  /** Exactly the listed brokers that can host a partition are usable. */
  lemma {:induction false} UsableIff(brokers: seq<Broker>, b: Broker)
    ensures b in Usable(brokers) <==> b in brokers && Hosts(b)
    decreases |brokers|
  {
    if brokers != [] {
      var n := |brokers| - 1;
      assert brokers == brokers[..n] + [brokers[n]];
      UsableIff(brokers[..n], b);
    }
  }

  /** A node name stands for a listed broker that can host a partition. */
  ghost predicate CanHost(brokers: seq<Broker>, n: Node) {
    exists b :: b in brokers && b.id == n && Hosts(b)
  }

  lemma UsableIdIff(brokers: seq<Broker>, n: Node)
    ensures n in Ids(Usable(brokers)) <==> CanHost(brokers, n)
  {
    hide Usable, Hosts;
    var us := Usable(brokers);
    if n in Ids(us) {
      var i :| 0 <= i < |us| && Ids(us)[i] == n;
      UsableIff(brokers, us[i]);
    }
    if CanHost(brokers, n) {
      var b :| b in brokers && b.id == n && Hosts(b);
      UsableIff(brokers, b);
      var i :| 0 <= i < |us| && us[i] == b;
      assert Ids(us)[i] == n;
    }
  }

  lemma {:induction false} AllUsable(bs: seq<Broker>)
    requires forall k :: 0 <= k < |bs| ==> !bs[k].fenced && bs[k].streamAddr != ""
    ensures Usable(bs) == bs
    decreases |bs|
  {
    if bs != [] { AllUsable(bs[..|bs| - 1]); }
  }

  method LiveBrokers(brokers: seq<Broker>) returns (us: seq<Broker>)
    ensures us == Usable(brokers)
  {
    us := [];
    for i := 0 to |brokers|
      invariant us == Usable(brokers[..i])
    {
      assert brokers[..i + 1][..i] == brokers[..i];
      if !brokers[i].fenced && brokers[i].streamAddr != "" { us := us + [brokers[i]]; }
    }
    assert brokers[..|brokers|] == brokers;
  }

  predicate DistinctBrokers(bs: seq<Broker>) {
    && (forall i, j :: 0 <= i < j < |bs| ==> bs[i].id != bs[j].id)
    && (forall i :: 0 <= i < |bs| ==> bs[i].id != "")
  }

  lemma {:induction false} UsableKeeps(brokers: seq<Broker>)
    requires DistinctBrokers(brokers)
    ensures DistinctBrokers(Usable(brokers)) && forall b :: b in Usable(brokers) ==> b in brokers
    decreases |brokers|
  {
    hide DistinctBrokers;
    if brokers == [] {
      assert DistinctBrokers(Usable(brokers));
    } else {
      var n := |brokers| - 1;
      DistinctFront(brokers);
      UsableKeeps(brokers[..n]);
      var front := Usable(brokers[..n]);
      DistinctSnoc(front, brokers[n]);
      assert front + [] == front;
    }
  }

  lemma DistinctFront(bs: seq<Broker>)
    requires DistinctBrokers(bs) && bs != []
    ensures DistinctBrokers(bs[..|bs| - 1]) && bs[|bs| - 1].id != ""
    ensures forall b :: b in bs[..|bs| - 1] ==> b in bs && b.id != bs[|bs| - 1].id
  {
  }

  lemma DistinctSnoc(bs: seq<Broker>, b: Broker)
    requires DistinctBrokers(bs) && b.id != "" && forall x :: x in bs ==> x.id != b.id
    ensures DistinctBrokers(bs + [b])
  {
  }

  /** The planner's load table is the loads of these brokers. */
  ghost predicate LoadsOf(load: map<Node, nat>, us: seq<Node>, m: multiset<Node>) {
    && (forall n :: n in load <==> n in us)
    && (forall n :: n in us ==> load[n] == m[n])
  }

  method CountSlot(load0: map<Node, nat>, rs: seq<Node>, ghost us: seq<Node>, ghost m: multiset<Node>)
    returns (load: map<Node, nat>)
    requires LoadsOf(load0, us, m)
    ensures LoadsOf(load, us, m + multiset(rs))
  {
    load := load0;
    assert m + multiset(rs[..0]) == m;
    for j := 0 to |rs|
      invariant LoadsOf(load, us, m + multiset(rs[..j]))
    {
      assert rs[..j + 1] == rs[..j] + [rs[j]];
      if rs[j] in load { load := load[rs[j] := load[rs[j]] + 1]; }
    }
    assert rs[..|rs|] == rs;
  }

  method CountLoad(slots: seq<Slot>, us: seq<Broker>) returns (load: map<Node, nat>, total: nat)
    ensures LoadsOf(load, Ids(us), Held(slots)) && total == |Held(slots)|
  {
    hide LoadsOf, Held, Ids;
    load := map n | n in Ids(us) :: 0;
    total := 0;
    NoLoads(Ids(us));
    assert slots[..0] == [];
    for i := 0 to |slots|
      invariant LoadsOf(load, Ids(us), Held(slots[..i])) && total == |Held(slots[..i])|
    {
      HeldSnoc(slots, i);
      load := CountSlot(load, slots[i].replicas, Ids(us), Held(slots[..i]));
      total := total + |slots[i].replicas|;
    }
    assert slots[..|slots|] == slots;
  }

  lemma NoLoads(us: seq<Node>)
    ensures LoadsOf(map n | n in us :: 0, us, Held([])) && |Held([])| == 0
  {
  }

  lemma HeldSnoc(slots: seq<Slot>, i: nat)
    requires i < |slots|
    ensures Held(slots[..i + 1]) == Held(slots[..i]) + multiset(slots[i].replicas)
    ensures |Held(slots[..i + 1])| == |Held(slots[..i])| + |slots[i].replicas|
  {
    assert slots[..i + 1][..i] == slots[..i];
  }

  function Average(total: nat, n: nat): (avg: nat)
    requires n > 0
    ensures avg * n <= total < (avg + 1) * n
  {
    total / n
  }

  ghost function Ceiling(slots: seq<Slot>, n: nat, tolerance: nat): nat
    requires n > 0
  {
    Average(|Held(slots)|, n) + tolerance
  }

  function Racks(us: seq<Broker>): map<Node, string>
    requires DistinctBrokers(us)
  {
    map i | 0 <= i < |us| :: us[i].id := us[i].rack
  }

  /** The rack of x, blank for an unlabelled broker and for one that is not usable. */
  ghost predicate SitsIn(us: seq<Broker>, x: Node, rack: string) {
    if exists b :: b in us && b.id == x then exists b :: b in us && b.id == x && b.rack == rack else rack == ""
  }

  lemma RackSits(us: seq<Broker>, x: Node, rack: string)
    requires DistinctBrokers(us)
    ensures SitsIn(us, x, rack) <==> RackOf(Racks(us), x) == rack
  {
    if b :| b in us && b.id == x {
      var i :| 0 <= i < |us| && us[i] == b;
      assert x in Racks(us);
      forall c | c in us && c.id == x ensures c == b {
        var j :| 0 <= j < |us| && us[j] == c;
        assert us[i].id == us[j].id;
      }
    }
  }

  /** Another replica of the partition is in that rack. */
  ghost predicate Shares(s: Slot, us: seq<Broker>, from: Node, rack: string) {
    exists x :: x in s.replicas && x != from && SitsIn(us, x, rack)
  }

  /** Told of the brokers: every other broker that could take the replica holds more, or as many and in a rack that is
      no better. Unlabelled brokers count as one rack here. */
  lemma TargetBest(s: Slot, us: seq<Broker>, load: map<Node, nat>, ceiling: nat, mv: Move, t: Broker, b: Broker)
    requires DistinctBrokers(us) && forall i :: 0 <= i < |us| ==> us[i].id in load
    requires Chosen(s, us, load, Racks(us), ceiling, mv) && t in us && t.id == mv.to
    requires b in us && b.id !in s.replicas && load[b.id] < ceiling
    ensures
      || load[t.id] < load[b.id]
      || (load[t.id] == load[b.id] && (Shares(s, us, mv.from, t.rack) ==> Shares(s, us, mv.from, b.rack)))
  {
    hide FirstReady, Score, Racks, RackOf;
    var i :| 0 <= i < |us| && us[i] == b;
    assert Candidate(s, us[i].id, load, ceiling);
    SharesIff(s, us, mv.from, t);
    SharesIff(s, us, mv.from, b);
    ScoreOrders(load[t.id], RackUsed(s, mv.from, Racks(us), t.id), load[b.id], RackUsed(s, mv.from, Racks(us), b.id));
  }

  lemma SharesIff(s: Slot, us: seq<Broker>, from: Node, b: Broker)
    requires DistinctBrokers(us) && b in us
    ensures Shares(s, us, from, b.rack) <==> RackUsed(s, from, Racks(us), b.id)
  {
    hide Racks, RackOf, DistinctBrokers;
    assert SitsIn(us, b.id, b.rack);
    RackSits(us, b.id, b.rack);
    forall x ensures SitsIn(us, x, b.rack) <==> RackOf(Racks(us), x) == b.rack { RackSits(us, x, b.rack); }
  }

  /** No replica is worth moving. */
  ghost predicate Settled(us: seq<Node>, slots: seq<Slot>, ceiling: nat) {
    forall i, from, to :: 0 <= i < |slots| ==> !Worthwhile(us, slots[i], Held(slots), ceiling, from, to)
  }

  /** The state of the planning loop before slot i. */
  ghost predicate Underway(us: seq<Node>, slots: seq<Slot>, moves: seq<Move>, load: map<Node, nat>, ceiling: nat,
                           i: nat) {
    var cur := ApplyPlan(slots, moves);
    && Planned(us, slots, moves, ceiling) && LoadsOf(load, us, Held(cur)) && Untouched(slots, cur, moves, i)
    && (forall a, b :: 0 <= a < b < |moves| ==> moves[a].key != moves[b].key)
    && (moves == [] ==> NothingReady(slots, load, ceiling, i))
  }

  lemma StartPlan(us: seq<Node>, slots: seq<Slot>, load: map<Node, nat>, ceiling: nat)
    requires Sound(slots) && LoadsOf(load, us, Held(slots))
    ensures Underway(us, slots, [], load, ceiling, 0)
  {
    PlanNone(us, slots, ceiling);
  }

  lemma EndPlan(us: seq<Node>, slots: seq<Slot>, moves: seq<Move>, load: map<Node, nat>, ceiling: nat, i: nat)
    requires Underway(us, slots, moves, load, ceiling, i)
    ensures Planned(us, slots, moves, ceiling) && forall a, b :: 0 <= a < b < |moves| ==> moves[a].key != moves[b].key
    ensures moves == [] && i == |slots| ==> Settled(us, slots, ceiling)
  {
    hide Planned, Held, LoadsOf, Settled, ApplyPlan;
    if moves == [] && i == |slots| {
      NoMoves(slots, moves);
      NoneWorthwhile(us, slots, load, ceiling);
    }
  }

  /** The plan for one more slot. */
  method PlanOne(slots: seq<Slot>, us: seq<Broker>, moves0: seq<Move>, load0: map<Node, nat>, racks: map<Node, string>,
                 ceiling: nat, i: nat)
    returns (moves: seq<Move>, load: map<Node, nat>)
    requires Sound(slots) && i < |slots| && DistinctBrokers(us)
    requires Underway(Ids(us), slots, moves0, load0, ceiling, i)
    ensures Underway(Ids(us), slots, moves, load, ceiling, i + 1) && |moves| <= |moves0| + 1
    ensures forall k :: 0 <= k < |us| ==> us[k].id in load0
    ensures if |moves| == |moves0| then moves == moves0 && load == load0
            else |moves| == |moves0| + 1 && moves[..|moves0|] == moves0
                 && Chosen(slots[i], us, load0, racks, ceiling, moves[|moves0|])
  {
    hide Planned, Held, ApplyPlan, LoadsOf, Ready, Worthwhile, Hop, FirstReady, BestTarget;
    ghost var cur := ApplyPlan(slots, moves0);
    moves, load := moves0, load0;
    LoadKeys(load, us, Held(cur));
    var mv := PlanSlot(slots[i], us, load, racks, ceiling);
    if mv.Some? {
      var from, to := mv.value.from, mv.value.to;
      ReadyIsWorthwhile(Ids(us), slots[i], load, Held(cur), ceiling, from, to);
      PlanStep(Ids(us), slots, moves, ceiling, i, mv.value);
      StaysUntouched(slots, moves, mv.value, i);
      FromHeld(Ids(us), slots, cur, i, load, ceiling, from, to);
      LoadsHop(load, Ids(us), Held(cur), from, to);
      if from in load { load := load[from := load[from] - 1]; }
      load := load[to := load[to] + 1];
      moves := moves + [mv.value];
    }
  }

  lemma LoadKeys(load: map<Node, nat>, us: seq<Broker>, m: multiset<Node>)
    requires LoadsOf(load, Ids(us), m)
    ensures load.Keys == set n | n in Ids(us)
    ensures forall i :: 0 <= i < |us| ==> us[i].id in load
  {
    forall i | 0 <= i < |us| ensures us[i].id in load { assert Ids(us)[i] in Ids(us); }
  }

  lemma FromHeld(us: seq<Node>, slots: seq<Slot>, cur: seq<Slot>, i: nat, load: map<Node, nat>, ceiling: nat,
                 from: Node, to: Node)
    requires i < |slots| == |cur| && cur[i] == slots[i] && LoadsOf(load, us, Held(cur))
    requires Ready(slots[i], load, ceiling, from, to)
    ensures from in Held(cur) && from != to && to in us && (from in load ==> load[from] > 0)
  {
    HeldUpdate(cur, i, cur[i]);
    assert from in multiset(cur[i].replicas);
  }

  ghost function LoadTable(us: seq<Node>, m: multiset<Node>): map<Node, nat> {
    map n | n in us :: m[n]
  }

  /** Move a of the plan is the one chosen for slot i under the loads that the moves before it leave, and no
      earlier slot is ready when the plan begins. */
  ghost predicate ChosenAt(slots: seq<Slot>, us: seq<Broker>, ceiling: nat, moves: seq<Move>, a: nat, i: nat)
    requires DistinctBrokers(us) && a < |moves| && i < |slots|
  {
    var load := LoadTable(Ids(us), Held(ApplyPlan(slots, moves[..a])));
    && (forall k :: 0 <= k < |us| ==> us[k].id in load)
    && Chosen(slots[i], us, load, Racks(us), ceiling, moves[a])
    && (a == 0 ==> NothingReady(slots, load, ceiling, i))
  }

  ghost predicate PlanMade(slots: seq<Slot>, us: seq<Broker>, ceiling: nat, moves: seq<Move>)
    requires DistinctBrokers(us)
  {
    forall a :: 0 <= a < |moves| ==> ChosenFor(slots, us, ceiling, moves, a)
  }

  ghost predicate ChosenFor(slots: seq<Slot>, us: seq<Broker>, ceiling: nat, moves: seq<Move>, a: nat)
    requires DistinctBrokers(us) && a < |moves|
  {
    exists i :: 0 <= i < |slots| && ChosenAt(slots, us, ceiling, moves, a, i)
  }

  lemma UnderwayLoads(us: seq<Node>, slots: seq<Slot>, moves: seq<Move>, load: map<Node, nat>, ceiling: nat, i: nat)
    requires Underway(us, slots, moves, load, ceiling, i)
    ensures load == LoadTable(us, Held(ApplyPlan(slots, moves)))
    ensures moves == [] ==> NothingReady(slots, load, ceiling, i)
  {
    hide Planned, Held, ApplyPlan;
  }

  lemma OneMoreChosen(slots: seq<Slot>, us: seq<Broker>, ceiling: nat, moves: seq<Move>, mv: Move, i: nat)
    requires DistinctBrokers(us) && i < |slots| && PlanMade(slots, us, ceiling, moves)
    requires ChosenAt(slots, us, ceiling, moves + [mv], |moves|, i)
    ensures PlanMade(slots, us, ceiling, moves + [mv])
  {
    hide ChosenAt, DistinctBrokers;
    forall a | 0 <= a < |moves| + 1 ensures ChosenFor(slots, us, ceiling, moves + [mv], a) {
      if a < |moves| {
        assert ChosenFor(slots, us, ceiling, moves, a);
        var k :| 0 <= k < |slots| && ChosenAt(slots, us, ceiling, moves, a, k);
        SameChoice(slots, us, ceiling, moves, mv, a, k);
      }
    }
  }

  lemma SameChoice(slots: seq<Slot>, us: seq<Broker>, ceiling: nat, moves: seq<Move>, mv: Move, a: nat, k: nat)
    requires DistinctBrokers(us) && a < |moves| && k < |slots| && ChosenAt(slots, us, ceiling, moves, a, k)
    ensures ChosenAt(slots, us, ceiling, moves + [mv], a, k)
  {
    hide Chosen, DistinctBrokers, Held, ApplyPlan, NothingReady;
    assert (moves + [mv])[..a] == moves[..a];
  }

  /** The moves that would even out the load, at most one per partition. */
  method Rebalance(slots: seq<Slot>, brokers: seq<Broker>, tolerance: nat, maxMoves: nat) returns (moves: seq<Move>)
    requires Sound(slots) && DistinctBrokers(brokers)
    ensures |moves| <= maxMoves && forall a, b :: 0 <= a < b < |moves| ==> moves[a].key != moves[b].key
    ensures var us := Ids(Usable(brokers));
      if |us| < 2 then moves == []
      else
        && Planned(us, slots, moves, Ceiling(slots, |us|, tolerance))
        && (moves == [] && maxMoves > 0 ==> Settled(us, slots, Ceiling(slots, |us|, tolerance)))
        && DistinctBrokers(Usable(brokers))
        && PlanMade(slots, Usable(brokers), Ceiling(slots, |us|, tolerance), moves)
    ensures forall a :: 0 <= a < |moves| ==> CanHost(brokers, moves[a].to)
  {
    hide Planned, Held, ApplyPlan, Usable, Underway, LoadsOf, Settled, Average, Racks, DistinctBrokers, PlanMade;
    hide Chosen, NothingReady, LoadTable, CanHost;
    var us := LiveBrokers(brokers);
    UsableKeeps(brokers);
    moves := [];
    if |us| < 2 { return; }
    ghost var ids := Ids(us);
    var load, total := CountLoad(slots, us);
    var ceiling := Average(total, |us|) + tolerance;
    var racks := Racks(us);
    StartPlan(ids, slots, load, ceiling);
    NoneMade(slots, us, ceiling);
    var i := 0;
    while i < |slots| && |moves| < maxMoves
      invariant 0 <= i <= |slots| && |moves| <= maxMoves && Underway(ids, slots, moves, load, ceiling, i)
      invariant PlanMade(slots, us, ceiling, moves)
    {
      ghost var was := moves;
      UnderwayLoads(ids, slots, moves, load, ceiling, i);
      moves, load := PlanOne(slots, us, moves, load, racks, ceiling, i);
      if moves != was {
        assert moves == was + [moves[|was|]];
        OneMoreChosen(slots, us, ceiling, was, moves[|was|], i);
      }
      i := i + 1;
    }
    EndPlan(ids, slots, moves, load, ceiling, i);
    PlanTargets(slots, brokers, ceiling, moves);
  }

  /** Every move of a plan goes to a broker that can host it. */
  lemma PlanTargets(slots: seq<Slot>, brokers: seq<Broker>, ceiling: nat, moves: seq<Move>)
    requires DistinctBrokers(Usable(brokers)) && PlanMade(slots, Usable(brokers), ceiling, moves)
    ensures forall a :: 0 <= a < |moves| ==> CanHost(brokers, moves[a].to)
  {
    hide Usable, Held, ApplyPlan, DistinctBrokers, FirstReady, BestTarget, CanHost, NothingReady;
    forall a | 0 <= a < |moves| ensures CanHost(brokers, moves[a].to) {
      assert ChosenFor(slots, Usable(brokers), ceiling, moves, a);
      UsableIdIff(brokers, moves[a].to);
    }
  }

  /** What is worth moving, told of the brokers: a replica on a broker that cannot host it, fenced ones included, or
      that holds more than the ceiling; to one that can host it, lacks it and is below the ceiling. */
  lemma WorthwhileIff(brokers: seq<Broker>, s: Slot, m: multiset<Node>, ceiling: nat, from: Node, to: Node)
    ensures Worthwhile(Ids(Usable(brokers)), s, m, ceiling, from, to) <==>
      && from in s.replicas && (!CanHost(brokers, from) || m[from] > ceiling)
      && CanHost(brokers, to) && to !in s.replicas && m[to] < ceiling
  {
    hide Usable, CanHost;
    UsableIdIff(brokers, from);
    UsableIdIff(brokers, to);
  }

  lemma NoneMade(slots: seq<Slot>, us: seq<Broker>, ceiling: nat)
    requires DistinctBrokers(us)
    ensures PlanMade(slots, us, ceiling, [])
  {
  }

  /** Slots from i on are as they were, and no move concerns them. */
  ghost predicate Untouched(slots: seq<Slot>, cur: seq<Slot>, moves: seq<Move>, i: nat) {
    && |cur| == |slots| && (forall k :: i <= k < |slots| ==> cur[k] == slots[k])
    && (forall a, k :: 0 <= a < |moves| && i <= k < |slots| ==> moves[a].key != slots[k].key)
  }

  ghost predicate NothingReady(slots: seq<Slot>, load: map<Node, nat>, ceiling: nat, i: nat) {
    forall k, from, to :: 0 <= k < i && k < |slots| ==> !Ready(slots[k], load, ceiling, from, to)
  }

  lemma ReadyIsWorthwhile(us: seq<Node>, s: Slot, load: map<Node, nat>, m: multiset<Node>, ceiling: nat, from: Node,
                          to: Node)
    requires LoadsOf(load, us, m)
    ensures Ready(s, load, ceiling, from, to) <==> Worthwhile(us, s, m, ceiling, from, to)
  {
  }

  lemma NoneWorthwhile(us: seq<Node>, slots: seq<Slot>, load: map<Node, nat>, ceiling: nat)
    requires LoadsOf(load, us, Held(slots)) && NothingReady(slots, load, ceiling, |slots|)
    ensures Settled(us, slots, ceiling)
  {
    hide Ready, Worthwhile, LoadsOf, Held;
    forall i, from, to | 0 <= i < |slots| ensures !Worthwhile(us, slots[i], Held(slots), ceiling, from, to) {
      ReadyIsWorthwhile(us, slots[i], load, Held(slots), ceiling, from, to);
    }
  }

  lemma StaysUntouched(slots: seq<Slot>, moves: seq<Move>, mv: Move, i: nat)
    requires Sound(slots) && i < |slots| && mv.key == slots[i].key
    requires Untouched(slots, ApplyPlan(slots, moves), moves, i)
    ensures Untouched(slots, ApplyPlan(slots, moves + [mv]), moves + [mv], i + 1)
    ensures forall a :: 0 <= a < |moves| ==> moves[a].key != mv.key
  {
    hide ApplyPlan;
    PlanSnoc(slots, moves, mv);
  }

  lemma LoadsHop(load: map<Node, nat>, us: seq<Node>, m: multiset<Node>, from: Node, to: Node)
    requires LoadsOf(load, us, m) && to in us && from in m && from != to
    ensures var l1 := if from in load then load[from := load[from] - 1] else load;
      to in l1 && LoadsOf(l1[to := l1[to] + 1], us, Hop(m, from, to))
  {
  }

  // --- convergence -------------------------------------------------------

  lemma {:induction false} ShapeTotal(a: seq<Slot>, b: seq<Slot>)
    requires SameShape(a, b)
    ensures |Held(a)| == |Held(b)|
    decreases |a|
  {
    if a != [] {
      var n := |a| - 1;
      ShapeTotal(a[..n], b[..n]);
    }
  }

  lemma ShapeTransitive(a: seq<Slot>, b: seq<Slot>, c: seq<Slot>)
    requires SameShape(a, b) && SameShape(b, c)
    ensures SameShape(a, c)
  {
  }

  lemma UnderTransitive(us: seq<Node>, a: multiset<Node>, b: multiset<Node>, c: multiset<Node>, ceiling: nat)
    requires UnderCeiling(us, a, b, ceiling) && UnderCeiling(us, b, c, ceiling)
    ensures UnderCeiling(us, a, c, ceiling)
  {
  }

  lemma PlanFacts(us: seq<Node>, slots: seq<Slot>, moves: seq<Move>, ceiling: nat)
    requires Planned(us, slots, moves, ceiling)
    ensures var cur := ApplyPlan(slots, moves);
      && Sound(cur) && SameShape(slots, cur) && UnderCeiling(us, Held(cur), Held(slots), ceiling)
      && (moves != [] ==> Lower(us, Held(cur), Held(slots)))
  {
  }

  // --- what a settled layout looks like ----------------------------------

  lemma {:induction false} AllAtLeast(us: seq<Node>, m: multiset<Node>, c: nat)
    requires forall b :: b in us ==> m[b] >= c
    ensures OnLive(us, m) >= |us| * c
    decreases |us|
  {
    if us != [] {
      AllAtLeast(us[..|us| - 1], m, c);
      assert us[|us| - 1] in us;
      assert |us| * c == (|us| - 1) * c + c;
    }
  }

  /** Some usable broker is below any ceiling above the average. */
  lemma SomeoneBelow(us: seq<Node>, m: multiset<Node>, tolerance: nat) returns (t: Node)
    requires DistinctNodes(us) && us != [] && tolerance > 0
    ensures t in us && m[t] < Average(|m|, |us|) + tolerance
  {
    var c := Average(|m|, |us|) + tolerance;
    if forall b :: b in us ==> m[b] >= c {
      AllAtLeast(us, m, c);
      OnLiveBounded(us, m);
      AboveAverage(|m|, |us|, c);
    }
    t :| t in us && m[t] < c;
  }

  lemma AboveAverage(total: nat, n: nat, c: nat)
    requires n > 0 && c > total / n
    ensures n * c > total
  {
    assert total == n * (total / n) + total % n;
    assert n * c >= n * (total / n + 1) == n * (total / n) + n;
  }

  /** A broker that holds more than another holds a partition the other does not. */
  lemma {:induction false} HoldsAlone(slots: seq<Slot>, b: Node, t: Node) returns (i: nat)
    requires (forall k :: 0 <= k < |slots| ==> DistinctNodes(slots[k].replicas)) && Held(slots)[b] > Held(slots)[t]
    ensures i < |slots| && b in slots[i].replicas && t !in slots[i].replicas
    decreases |slots|
  {
    var n := |slots| - 1;
    var rs := slots[n].replicas;
    if b in rs && t !in rs {
      i := n;
    } else {
      HeldOnce(rs, b);
      HeldOnce(rs, t);
      i := HoldsAlone(slots[..n], b, t);
    }
  }

  lemma {:induction false} HeldOnce(rs: seq<Node>, b: Node)
    requires DistinctNodes(rs)
    ensures multiset(rs)[b] == if b in rs then 1 else 0
    decreases |rs|
  {
    if rs != [] {
      var n := |rs| - 1;
      HeldOnce(rs[..n], b);
      assert rs == rs[..n] + [rs[n]];
    }
  }

  lemma CanBeRelieved(us: seq<Node>, slots: seq<Slot>, tolerance: nat, b: Node) returns (i: nat, t: Node)
    requires DistinctNodes(us) && b in us && Sound(slots) && tolerance > 0
    requires Held(slots)[b] > Ceiling(slots, |us|, tolerance)
    ensures i < |slots| && Worthwhile(us, slots[i], Held(slots), Ceiling(slots, |us|, tolerance), b, t)
  {
    hide Held, Average;
    t := SomeoneBelow(us, Held(slots), tolerance);
    i := HoldsAlone(slots, b, t);
  }

  /** Where nothing is worth moving, no usable broker is over the ceiling. */
  lemma SettledBalanced(us: seq<Node>, slots: seq<Slot>, tolerance: nat)
    requires DistinctNodes(us) && us != [] && Sound(slots) && tolerance > 0
    requires Settled(us, slots, Ceiling(slots, |us|, tolerance))
    ensures forall b :: b in us ==> Held(slots)[b] <= Ceiling(slots, |us|, tolerance)
  {
    hide Held, Average;
    var m, ceiling := Held(slots), Ceiling(slots, |us|, tolerance);
    forall b | b in us ensures m[b] <= ceiling {
      if m[b] > ceiling { var i, t := CanBeRelieved(us, slots, tolerance, b); }
    }
  }

  /** Planning and carrying out the plan, sweep after sweep, reaches a layout with nothing left to move. */
  method Settle(slots0: seq<Slot>, brokers: seq<Broker>, tolerance: nat, maxMoves: nat) returns (slots: seq<Slot>)
    requires Sound(slots0) && DistinctBrokers(brokers) && maxMoves > 0
    ensures Sound(slots) && SameShape(slots0, slots)
    ensures var us := Ids(Usable(brokers)); |us| >= 2 ==>
      var ceiling := Ceiling(slots0, |us|, tolerance);
      && Settled(us, slots, ceiling) && UnderCeiling(us, Held(slots), Held(slots0), ceiling)
      && (tolerance > 0 ==> forall b :: b in us ==> Held(slots)[b] <= ceiling)
  {
    hide Planned, Held, ApplyPlan, Usable, Settled, Average, SameShape, Sound, UnderCeiling, Lower, Stranded,
      SumSquares, OnLive;
    slots := slots0;
    ghost var us := Ids(Usable(brokers));
    SameAsItself(us, slots, if |us| > 0 then Ceiling(slots, |us|, tolerance) else 0);
    while true
      invariant Sound(slots) && SameShape(slots0, slots)
      invariant |us| >= 2 ==> UnderCeiling(us, Held(slots), Held(slots0), Ceiling(slots0, |us|, tolerance))
      decreases StrandedNat(us, Held(slots)), SumSquares(us, Held(slots))
    {
      var moves := Rebalance(slots, brokers, tolerance, maxMoves);
      ShapeTotal(slots0, slots);
      if |moves| == 0 {
        UsableKeeps(brokers);
        if |us| >= 2 && tolerance > 0 { SettledBalanced(us, slots, tolerance); }
        return;
      }
      ghost var ceiling := Ceiling(slots0, |us|, tolerance);
      PlanFacts(us, slots, moves, ceiling);
      var next := ApplyPlan(slots, moves);
      ShapeTransitive(slots0, slots, next);
      UnderTransitive(us, Held(next), Held(slots), Held(slots0), ceiling);
      UsableKeeps(brokers);
      LowerDecreases(us, Held(next), Held(slots));
      slots := next;
    }
  }

  ghost function StrandedNat(us: seq<Node>, m: multiset<Node>): nat {
    if Stranded(us, m) < 0 then 0 else Stranded(us, m)
  }

  lemma LowerDecreases(us: seq<Node>, m': multiset<Node>, m: multiset<Node>)
    requires DistinctNodes(us) && Lower(us, m', m)
    ensures StrandedNat(us, m') < StrandedNat(us, m) ||
      (StrandedNat(us, m') == StrandedNat(us, m) && SumSquares(us, m') < SumSquares(us, m))
  {
    OnLiveBounded(us, m');
    OnLiveBounded(us, m);
  }

  lemma SameAsItself(us: seq<Node>, slots: seq<Slot>, ceiling: nat)
    ensures SameShape(slots, slots) && UnderCeiling(us, Held(slots), Held(slots), ceiling)
  {
  }
}
