/** Where a new topic's replicas go. */
module Placement {
  import opened Metadata
  import opened Planner

  // --- rack interleaving -------------------------------------------------

  /** An unlabelled broker is its own rack. */
  function RackName(b: Broker): string {
    if b.rack == "" then [0 as char] + b.id else b.rack
  }

  /** Two brokers are in one rack exactly when they carry the same label, or are the same unlabelled broker, or one is
      labelled with the name that marks the other as unlabelled. */
  lemma SameRackIff(a: Broker, b: Broker)
    ensures RackName(a) == RackName(b) <==>
      || (a.rack == b.rack && (a.rack == "" ==> a.id == b.id))
      || (a.rack == "" && b.rack == [0 as char] + a.id)
      || (b.rack == "" && a.rack == [0 as char] + b.id)
  {
    assert ([0 as char] + a.id)[1..] == a.id && ([0 as char] + b.id)[1..] == b.id;
  }

  function Least(a: nat, b: nat): (r: nat)
    ensures r <= a && r <= b
  {
    if a < b then a else b
  }

  /** The brokers the first i rounds take from the named racks. */
  ghost function Taken(names: seq<string>, groups: map<string, seq<Broker>>, i: nat): multiset<Broker>
    requires forall r :: r in names ==> r in groups
  {
    if names == [] then multiset{}
    else
      var g := groups[names[|names| - 1]];
      Taken(names[..|names| - 1], groups, i) + multiset(g[..Least(i, |g|)])
  }

  ghost function Grouped(names: seq<string>, groups: map<string, seq<Broker>>): multiset<Broker>
    requires forall r :: r in names ==> r in groups
  {
    if names == [] then multiset{}
    else Grouped(names[..|names| - 1], groups) + multiset(groups[names[|names| - 1]])
  }

  /** Replacing one group changes the union by the difference. */
  lemma {:induction false} GroupedUpdate(names: seq<string>, groups: map<string, seq<Broker>>, r: string, b: Broker)
    requires (forall x :: x in names ==> x in groups) && r in groups
    requires forall i, j :: 0 <= i < j < |names| ==> names[i] != names[j]
    ensures Grouped(names, groups[r := groups[r] + [b]]) ==
      if r in names then Grouped(names, groups) + multiset{b} else Grouped(names, groups)
    decreases |names|
  {
    if names != [] {
      var n := |names| - 1;
      assert names == names[..n] + [names[n]];
      GroupedUpdate(names[..n], groups, r, b);
    }
  }

  lemma {:induction false} GroupedExtend(names: seq<string>, groups: map<string, seq<Broker>>, r: string,
                                         g: seq<Broker>)
    requires (forall x :: x in names ==> x in groups) && r !in names
    ensures Grouped(names, groups[r := g]) == Grouped(names, groups)
    decreases |names|
  {
    if names != [] {
      var n := |names| - 1;
      assert names == names[..n] + [names[n]];
      GroupedExtend(names[..n], groups, r, g);
    }
  }

  /** The groups so far hold exactly the brokers seen, each rack named once. */
  ghost predicate Grouping(names: seq<string>, groups: map<string, seq<Broker>>, seen: multiset<Broker>) {
    && (forall r :: r in names <==> r in groups)
    && (forall i, j :: 0 <= i < j < |names| ==> names[i] != names[j])
    && Grouped(names, groups) == seen
  }

  lemma NewRack(names: seq<string>, groups: map<string, seq<Broker>>, seen: multiset<Broker>, r: string)
    requires Grouping(names, groups, seen) && r !in groups
    ensures Grouping(names + [r], groups[r := []], seen)
  {
    GroupedExtend(names, groups, r, []);
    assert (names + [r])[..|names|] == names;
  }

  lemma JoinRack(names: seq<string>, groups: map<string, seq<Broker>>, seen: multiset<Broker>, r: string, b: Broker)
    requires Grouping(names, groups, seen) && r in groups
    ensures Grouping(names, groups[r := groups[r] + [b]], seen + multiset{b})
  {
    GroupedUpdate(names, groups, r, b);
  }

  /** Every broker is in the group of its own rack. */
  ghost predicate Shelved(groups: map<string, seq<Broker>>) {
    forall r, k :: r in groups && 0 <= k < |groups[r]| ==> RackName(groups[r][k]) == r
  }

  /** The brokers of one rack, in order. */
  function OfRack(brokers: seq<Broker>, r: string): (g: seq<Broker>)
    ensures |g| <= |brokers|
  {
    if brokers == [] then [] else
      var n := |brokers| - 1;
      OfRack(brokers[..n], r) + if RackName(brokers[n]) == r then [brokers[n]] else []
  }

  lemma OfRackSnoc(brokers: seq<Broker>, b: Broker, r: string)
    ensures OfRack(brokers + [b], r) == OfRack(brokers, r) + if RackName(b) == r then [b] else []
  {
    assert (brokers + [b])[..|brokers|] == brokers;
  }

  /** There is one group for every rack that has brokers, and it holds them in order. */
  ghost predicate ByRack(groups: map<string, seq<Broker>>, brokers: seq<Broker>) {
    forall r :: if r in groups then groups[r] == OfRack(brokers, r) && groups[r] != [] else OfRack(brokers, r) == []
  }

  lemma NoneByRack()
    ensures ByRack(map[], [])
  {
  }

  lemma OneMoreByRack(groups: map<string, seq<Broker>>, brokers: seq<Broker>, b: Broker)
    requires ByRack(groups, brokers)
    ensures var r := RackName(b);
      ByRack(groups[r := (if r in groups then groups[r] else []) + [b]], brokers + [b])
  {
    hide RackName, OfRack;
    forall r ensures OfRack(brokers + [b], r) == OfRack(brokers, r) + if RackName(b) == r then [b] else [] {
      OfRackSnoc(brokers, b, r);
    }
  }

  method GroupByRack(brokers: seq<Broker>) returns (names: seq<string>, groups: map<string, seq<Broker>>)
    ensures Grouping(names, groups, multiset(brokers)) && Shelved(groups) && ByRack(groups, brokers)
  {
    hide Grouped, Grouping, RackName, ByRack;
    names, groups := [], map[];
    NoGroups();
    NoneByRack();
    for k := 0 to |brokers|
      invariant Grouping(names, groups, multiset(brokers[..k])) && Shelved(groups) && ByRack(groups, brokers[..k])
    {
      ghost var was := groups;
      OneMoreByRack(groups, brokers[..k], brokers[k]);
      var b := brokers[k];
      var r := RackName(b);
      assert brokers[..k + 1] == brokers[..k] + [b];
      if r !in groups {
        NewRack(names, groups, multiset(brokers[..k]), r);
        names, groups := names + [r], groups[r := []];
      }
      JoinRack(names, groups, multiset(brokers[..k]), r, b);
      groups := groups[r := groups[r] + [b]];
      assert groups == was[r := (if r in was then was[r] else []) + [b]];
    }
    assert brokers[..|brokers|] == brokers;
  }

  lemma NoGroups()
    ensures Grouping([], map[], multiset([]))
  {
  }

  lemma TakenSnoc(names: seq<string>, groups: map<string, seq<Broker>>, i: nat, k: nat)
    requires (forall r :: r in names ==> r in groups) && k < |names|
    ensures var g := groups[names[k]];
      && Taken(names[..k + 1], groups, i) == Taken(names[..k], groups, i) + multiset(g[..Least(i, |g|)])
      && |Taken(names[..k + 1], groups, i)| == |Taken(names[..k], groups, i)| + Least(i, |g|)
  {
    assert names[..k + 1][..k] == names[..k];
  }

  /** A round takes something, unless every rack is exhausted. */
  lemma {:induction false} RoundTakes(names: seq<string>, groups: map<string, seq<Broker>>, i: nat, k: nat)
    requires (forall r :: r in names ==> r in groups) && k <= |names|
    ensures |Taken(names[..k], groups, i)| <= |Taken(names[..k], groups, i + 1)|
    ensures |Taken(names[..k], groups, i + 1)| == |Taken(names[..k], groups, i)| ==>
      forall j :: 0 <= j < k ==> |groups[names[j]]| <= i
    decreases k
  {
    hide Taken;
    if k == 0 {
      NothingTaken(groups, i);
      assert names[..k] == [];
    } else {
      TakenSnoc(names, groups, i, k - 1);
      TakenSnoc(names, groups, i + 1, k - 1);
      RoundTakes(names, groups, i, k - 1);
    }
  }

  lemma {:induction false} TakenAll(names: seq<string>, groups: map<string, seq<Broker>>, i: nat)
    requires forall r :: r in names ==> r in groups && |groups[r]| <= i
    ensures Taken(names, groups, i) == Grouped(names, groups)
    decreases |names|
  {
    if names != [] {
      var n := |names| - 1;
      TakenAll(names[..n], groups, i);
      assert groups[names[n]][..|groups[names[n]]|] == groups[names[n]];
    }
  }

  lemma {:induction false} TakenWithin(names: seq<string>, groups: map<string, seq<Broker>>, i: nat)
    requires forall r :: r in names ==> r in groups
    ensures Taken(names, groups, i) <= Grouped(names, groups)
    ensures i == 0 ==> Taken(names, groups, i) == multiset{}
    decreases |names|
  {
    if names != [] {
      var n := |names| - 1;
      TakenWithin(names[..n], groups, i);
      var g := groups[names[n]];
      assert g == g[..Least(i, |g|)] + g[Least(i, |g|)..];
    }
  }

  lemma PrefixStep(g: seq<Broker>, i: nat)
    ensures multiset(g[..Least(i + 1, |g|)]) ==
      multiset(g[..Least(i, |g|)]) + if i < |g| then multiset{g[i]} else multiset{}
  {
    if i < |g| { assert g[..i + 1] == g[..i] + [g[i]]; }
  }

  lemma Rebase(o: multiset<Broker>, o0: multiset<Broker>, a: multiset<Broker>, b: multiset<Broker>,
               x: multiset<Broker>, y: multiset<Broker>)
    requires o + a == o0 + b
    ensures (o + y) + (a + x) == o0 + (b + (x + y))
  {
    var left, right := (o + y) + (a + x), o0 + (b + (x + y));
    forall z: Broker ensures left[z] == right[z] {
      assert (o + a)[z] == (o0 + b)[z];
    }
    assert left == right;
  }

  lemma Cancel(o: multiset<Broker>, a: multiset<Broker>, b: multiset<Broker>)
    requires o + a == a + b
    ensures o == b
  {
    forall z: Broker ensures o[z] == b[z] {
      assert (o + a)[z] == (a + b)[z];
    }
  }

  /** What round i takes: the i-th broker of each rack that still has one, rack by rack. */
  ghost function RoundOf(names: seq<string>, groups: map<string, seq<Broker>>, i: nat): seq<Broker>
    requires forall r :: r in names ==> r in groups
  {
    if names == [] then [] else
      var g := groups[names[|names| - 1]];
      RoundOf(names[..|names| - 1], groups, i) + if i < |g| then [g[i]] else []
  }

  ghost function Rounds(names: seq<string>, groups: map<string, seq<Broker>>, k: nat): seq<Broker>
    requires forall r :: r in names ==> r in groups
  {
    if k == 0 then [] else Rounds(names, groups, k - 1) + RoundOf(names, groups, k - 1)
  }

  lemma RoundOfNone(groups: map<string, seq<Broker>>, i: nat)
    ensures RoundOf([], groups, i) == []
  {
  }

  lemma RoundSnoc(names: seq<string>, groups: map<string, seq<Broker>>, i: nat, k: nat)
    requires (forall r :: r in names ==> r in groups) && k < |names|
    ensures var g := groups[names[k]];
      RoundOf(names[..k + 1], groups, i) == RoundOf(names[..k], groups, i) + if i < |g| then [g[i]] else []
  {
    assert names[..k + 1][..k] == names[..k];
  }

  /** One round over the racks: the next broker of each that still has one. */
  method Round(names: seq<string>, groups: map<string, seq<Broker>>, i: nat, out0: seq<Broker>)
    returns (out: seq<Broker>)
    requires forall r :: r in names ==> r in groups
    requires multiset(out0) == Taken(names, groups, i)
    ensures multiset(out) == Taken(names, groups, i + 1) && out == out0 + RoundOf(names, groups, i)
  {
    hide Taken, RoundOf, Least;
    out := out0;
    RoundOfNone(groups, i);
    NothingTaken(groups, i);
    assert names[..0] == [];
    for k := 0 to |names|
      invariant multiset(out) + Taken(names[..k], groups, i) == multiset(out0) + Taken(names[..k], groups, i + 1)
      invariant out == out0 + RoundOf(names[..k], groups, i)
    {
      var g := groups[names[k]];
      RoundSnoc(names, groups, i, k);
      TakenSnoc(names, groups, i, k);
      TakenSnoc(names, groups, i + 1, k);
      PrefixStep(g, i);
      Rebase(multiset(out), multiset(out0), Taken(names[..k], groups, i), Taken(names[..k], groups, i + 1),
             multiset(g[..Least(i, |g|)]), if i < |g| then multiset{g[i]} else multiset{});
      if i < |g| {
        assert multiset(out + [g[i]]) == multiset(out) + multiset{g[i]};
        out := out + [g[i]];
      }
    }
    assert names[..|names|] == names;
    Cancel(multiset(out), Taken(names, groups, i), Taken(names, groups, i + 1));
  }

  lemma NothingTaken(groups: map<string, seq<Broker>>, i: nat)
    ensures Taken([], groups, i) == multiset{} && Taken([], groups, i + 1) == multiset{}
  {
  }

  lemma GroupingFacts(names: seq<string>, groups: map<string, seq<Broker>>, seen: multiset<Broker>)
    requires Grouping(names, groups, seen)
    ensures (forall r :: r in names <==> r in groups) && Grouped(names, groups) == seen
    ensures forall i, j :: 0 <= i < j < |names| ==> names[i] != names[j]
  {
  }

  /** Every round but the last leaves something for the next. */
  lemma MoreTaken(names: seq<string>, groups: map<string, seq<Broker>>, seen: multiset<Broker>, i: nat)
    requires Grouping(names, groups, seen) && |Taken(names, groups, i)| < |seen|
    ensures |Taken(names, groups, i)| < |Taken(names, groups, i + 1)|
  {
    hide Taken, Grouped;
    RoundTakes(names, groups, i, |names|);
    assert names[..|names|] == names;
    if |Taken(names, groups, i)| == |Taken(names, groups, i + 1)| { TakenAll(names, groups, i); }
  }

  /** `out` takes one broker of every rack that still has one, round after round, until all are taken. */
  ghost predicate Interleaved(out: seq<Broker>, names: seq<string>, groups: map<string, seq<Broker>>) {
    && (forall r :: r in names <==> r in groups) && Shelved(groups)
    && (forall i, j :: 0 <= i < j < |names| ==> names[i] != names[j])
    && exists k: nat :: out == Rounds(names, groups, k) && NoneLonger(groups, k)
  }

  /** After k rounds nothing is left. */
  ghost predicate NoneLonger(groups: map<string, seq<Broker>>, k: nat) {
    forall r :: r in groups ==> |groups[r]| <= k
  }

  lemma AllTaken(names: seq<string>, groups: map<string, seq<Broker>>, seen: multiset<Broker>, i: nat)
    requires Grouping(names, groups, seen) && |Taken(names, groups, i)| == |seen|
    ensures NoneLonger(groups, i)
  {
    hide Taken, Grouped;
    TakenWithin(names, groups, i + 1);
    WithinSize(Taken(names, groups, i + 1), seen);
    RoundTakes(names, groups, i, |names|);
    assert names[..|names|] == names;
    forall r | r in groups ensures |groups[r]| <= i { var j :| 0 <= j < |names| && names[j] == r; }
  }

  lemma WithinSize(a: multiset<Broker>, b: multiset<Broker>)
    requires a <= b
    ensures |a| <= |b|
  {
    assert b == a + (b - a);
  }

  /** Round-robin across racks: a permutation of its input. */
  method InterleaveByRack(brokers: seq<Broker>)
    returns (out: seq<Broker>, ghost names: seq<string>, ghost groups: map<string, seq<Broker>>)
    ensures multiset(out) == multiset(brokers)
    ensures Interleaved(out, names, groups) && Grouping(names, groups, multiset(brokers)) && ByRack(groups, brokers)
  {
    hide Taken, Grouped, Grouping, RoundOf, Shelved, ByRack, NoneLonger;
    var racks, byRack := GroupByRack(brokers);
    names, groups := racks, byRack;
    GroupingFacts(names, groups, multiset(brokers));
    out := [];
    var i := 0;
    TakenWithin(names, groups, 0);
    while |out| < |brokers|
      invariant i >= 0 && multiset(out) == Taken(names, groups, i) && |multiset(out)| == |out|
      invariant out == Rounds(names, groups, i)
      decreases |brokers| - |out|
    {
      MoreTaken(names, groups, multiset(brokers), i);
      out := Round(racks, byRack, i, out);
      i := i + 1;
    }
    TakenWithin(names, groups, i);
    SameSize(multiset(out), multiset(brokers));
    AllTaken(names, groups, multiset(brokers), i);
  }

  lemma SameSize(a: multiset<Broker>, b: multiset<Broker>)
    requires a <= b && |a| >= |b|
    ensures a == b
  {
    assert b == a + (b - a);
    assert |b - a| == 0;
  }

  // --- placement ---------------------------------------------------------

  /** `Panics`: the stride is taken modulo n - 1, which is zero for a single broker. */
  datatype Placing = Refused | Panics | Placed(replicas: seq<seq<Node>>)

  /** Steps from i forward to t around a circle of n. */
  function Ahead(i: nat, t: nat, n: nat): nat
    requires i < n && t < n
  {
    if i <= t then t - i else t + n - i
  }

  lemma NextIndex(i: nat, n: nat)
    requires i < n
    ensures (i + 1) % n == if i + 1 == n then 0 else i + 1
  {
  }

  /** Fewer replicas than brokers leaves a broker unused. */
  lemma Unused(ordered: seq<Node>, replicas: seq<Node>) returns (t: nat)
    requires DistinctNodes(ordered) && |replicas| < |ordered|
    ensures t < |ordered| && ordered[t] !in replicas
  {
    var all, used := set n | n in ordered, set n | n in replicas;
    DistinctCount(ordered);
    SetCount(replicas);
    if all <= used { CardinalitySubset(all, used); }
    var n :| n in all && n !in used;
    t :| 0 <= t < |ordered| && ordered[t] == n;
  }

  lemma {:induction false} DistinctCount(s: seq<Node>)
    requires DistinctNodes(s)
    ensures |set n | n in s| == |s|
    decreases |s|
  {
    if s != [] {
      var k := |s| - 1;
      DistinctCount(s[..k]);
      assert (set n | n in s) == (set n | n in s[..k]) + {s[k]};
    }
  }

  lemma {:induction false} SetCount(s: seq<Node>)
    ensures |set n | n in s| <= |s|
    decreases |s|
  {
    if s != [] {
      var k := |s| - 1;
      SetCount(s[..k]);
      assert (set n | n in s) == (set n | n in s[..k]) + {s[k]};
    }
  }

  lemma CardinalitySubset(a: set<Node>, b: set<Node>)
    requires a <= b
    ensures |a| <= |b|
  {
    assert b == a + (b - a);
  }

  /** The first of the n positions from i on, around the circle, that is not yet used. */
  function FirstFree(ordered: seq<Node>, used: seq<Node>, i: nat, n: nat): (j: nat)
    requires i < |ordered|
    ensures j < |ordered|
    decreases n
  {
    if n == 0 || ordered[i] !in used then i else FirstFree(ordered, used, (i + 1) % |ordered|, n - 1)
  }

  /** Walks forward from i to the first broker not yet used. */
  method NextFree(ordered: seq<Node>, replicas: seq<Node>, i: nat) returns (j: nat)
    requires DistinctNodes(ordered) && |replicas| < |ordered| && i < |ordered|
    ensures j < |ordered| && ordered[j] !in replicas && j == FirstFree(ordered, replicas, i, |ordered|)
  {
    ghost var t := Unused(ordered, replicas);
    ghost var left := |ordered|;
    j := i;
    while ordered[j] in replicas
      invariant j < |ordered| && Ahead(j, t, |ordered|) < left
      invariant FirstFree(ordered, replicas, i, |ordered|) == FirstFree(ordered, replicas, j, left)
      decreases Ahead(j, t, |ordered|)
    {
      NextIndex(j, |ordered|);
      j, left := (j + 1) % |ordered|, left - 1;
    }
  }

  ghost predicate GoodList(replicas: seq<Node>, ordered: seq<Node>) {
    DistinctNodes(replicas) && forall r :: r in replicas ==> r in ordered
  }

  /** How far apart partition i's replicas are sought; it grows by one each time the placement wraps. */
  function Step(i: nat, n: nat): nat
    requires n >= 2
  {
    1 + i / n % (n - 1)
  }

  /** The replicas of partition i: offset i, then each `Step` further along, or at the next unused broker. */
  function PlaceList(ordered: seq<Node>, i: nat, rf: nat): (l: seq<Node>)
    requires |ordered| >= 2
    ensures |l| == rf
  {
    if rf == 0 then [] else
      var l := PlaceList(ordered, i, rf - 1);
      var n := |ordered|;
      l + [ordered[FirstFree(ordered, l, (i % n + (rf - 1) * Step(i, n)) % n, n)]]
  }

  lemma StepOnce(i: nat, n: nat, j: nat)
    requires n >= 2
    ensures j * Step(i, n) == j + (i / n % (n - 1)) * j
  {
  }

  lemma FirstPlaced(ordered: seq<Node>, i: nat)
    requires |ordered| >= 2
    ensures PlaceList(ordered, i, 1) == [ordered[i % |ordered|]]
  {
    assert PlaceList(ordered, i, 0) == [];
    ModOnce(i, |ordered|);
  }

  /** Where the broker sought is unused, it is taken. */
  lemma TakenAtOnce(ordered: seq<Node>, i: nat, rf: nat)
    requires |ordered| >= 2 && rf > 0
    requires var n := |ordered|; ordered[(i % n + (rf - 1) * Step(i, n)) % n] !in PlaceList(ordered, i, rf - 1)
    ensures var n := |ordered|;
      PlaceList(ordered, i, rf) == PlaceList(ordered, i, rf - 1) + [ordered[(i % n + (rf - 1) * Step(i, n)) % n]]
  {
  }

  lemma ModOnce(i: nat, n: nat)
    requires n > 0
    ensures i % n % n == i % n
  {
  }

  /** The replicas of partition i: preferred leader at offset i, followers by a stride that shifts as it wraps. */
  method PlaceOne(ordered: seq<Node>, i: nat, rf: nat) returns (replicas: seq<Node>)
    requires DistinctNodes(ordered) && 1 <= rf <= |ordered| && |ordered| >= 2
    ensures |replicas| == rf && GoodList(replicas, ordered) && replicas[0] == ordered[i % |ordered|]
    ensures replicas == PlaceList(ordered, i, rf)
  {
    hide DistinctNodes, FirstFree, Step;
    var n := |ordered|;
    var start := i % n;
    var stride := i / n % (n - 1);
    replicas := [ordered[start]];
    OneNode(ordered[start]);
    FirstPlaced(ordered, i);
    for j := 1 to rf
      invariant |replicas| == j && GoodList(replicas, ordered) && replicas[0] == ordered[start]
      invariant replicas == PlaceList(ordered, i, j)
    {
      StepOnce(i, n, j);
      var idx := NextFree(ordered, replicas, (start + j + stride * j) % n);
      OneMore(replicas, ordered[idx]);
      replicas := replicas + [ordered[idx]];
    }
  }

  lemma OneNode(n: Node)
    ensures DistinctNodes([n])
  {
  }

  lemma OneMore(s: seq<Node>, n: Node)
    requires DistinctNodes(s) && n !in s
    ensures DistinctNodes(s + [n])
  {
  }

  /** How many partitions prefer b as leader. */
  ghost function Leads(lists: seq<seq<Node>>, b: Node): nat {
    if lists == [] then 0 else
      var last := lists[|lists| - 1];
      Leads(lists[..|lists| - 1], b) + if |last| > 0 && last[0] == b then 1 else 0
  }

  /** Full turns of the placement after p partitions, and the offset reached. */
  ghost function Turns(p: nat, n: nat): (t: (nat, nat))
    requires n > 0
    ensures t.1 < n
  {
    if p == 0 then (0, 0) else
      var t := Turns(p - 1, n);
      if t.1 + 1 == n then (t.0 + 1, 0) else (t.0, t.1 + 1)
  }

  lemma {:induction false} OffsetIsMod(p: nat, n: nat)
    requires n > 0
    ensures Turns(p, n).1 == p % n
    decreases p
  {
    if p > 0 {
      OffsetIsMod(p - 1, n);
      ModStep(p - 1, n);
    }
  }

  lemma ModStep(p: nat, n: nat)
    requires n > 0
    ensures (p + 1) % n == if p % n + 1 == n then 0 else p % n + 1
  {
    var q, r := p / n, p % n;
    assert p == q * n + r;
    if r + 1 == n {
      assert p + 1 == (q + 1) * n;
      Multiple(q + 1, n, 0);
    } else {
      assert p + 1 == q * n + (r + 1);
      Multiple(q, n, r + 1);
    }
  }

  lemma Multiple(q: nat, n: nat, r: nat)
    requires r < n
    ensures (q * n + r) % n == r
  {
    var x := q * n + r;
    DivMod(x, n);
    SmallMultiple(q - x / n, n, x % n - r) by {
      assert (q - x / n) * n == q * n - (x / n) * n;
    }
  }

  lemma DivMod(x: nat, n: nat)
    requires n > 0
    ensures x == (x / n) * n + x % n && x % n < n
  {
  }

  lemma SmallMultiple(d: int, n: int, e: int)
    requires d * n == e && -n < e < n
    ensures d == 0
  {
    if d >= 1 { AtLeast(d, n); } else if d <= -1 { AtLeast(-d, n); }
  }

  lemma {:induction false} AtLeast(d: int, n: int)
    requires d >= 1 && n >= 0
    ensures d * n >= n
    decreases d
  {
    if d > 1 {
      AtLeast(d - 1, n);
      assert d * n == (d - 1) * n + n;
    }
  }

  /** The lists that start at offsets 0, 1, ... in turn lead each broker once per turn. */
  ghost predicate InTurn(lists: seq<seq<Node>>, ordered: seq<Node>) {
    |ordered| > 0 && forall i :: 0 <= i < |lists| ==> |lists[i]| > 0 && lists[i][0] == ordered[i % |ordered|]
  }

  lemma {:induction false} LeadsCount(lists: seq<seq<Node>>, ordered: seq<Node>, k: nat)
    requires DistinctNodes(ordered) && InTurn(lists, ordered) && k < |ordered|
    ensures var t := Turns(|lists|, |ordered|); Leads(lists, ordered[k]) == t.0 + if k < t.1 then 1 else 0
    decreases |lists|
  {
    if lists != [] {
      var p := |lists| - 1;
      LeadsCount(lists[..p], ordered, k);
      OffsetIsMod(p, |ordered|);
      assert lists[p][0] == ordered[p % |ordered|];
    }
  }

  /** Preferred leadership is spread within one. */
  lemma LeadsSpread(lists: seq<seq<Node>>, ordered: seq<Node>, a: Node, b: Node)
    requires DistinctNodes(ordered) && InTurn(lists, ordered) && a in ordered && b in ordered
    ensures Leads(lists, a) <= Leads(lists, b) + 1
  {
    var i :| 0 <= i < |ordered| && ordered[i] == a;
    var j :| 0 <= j < |ordered| && ordered[j] == b;
    LeadsCount(lists, ordered, i);
    LeadsCount(lists, ordered, j);
  }

  const DEFAULT_REPLICATION: nat := 3

  function Factor(rf: int): nat {
    if rf <= 0 then DEFAULT_REPLICATION else rf
  }

  /** Every partition gets `rf` distinct usable brokers and leadership is spread within one. */
  ghost predicate WellPlaced(lists: seq<seq<Node>>, partitions: nat, rf: nat, us: seq<Node>) {
    && |lists| == partitions
    && (forall i :: 0 <= i < |lists| ==> |lists[i]| == rf && GoodList(lists[i], us))
    && (forall a, b :: a in us && b in us ==> Leads(lists, a) <= Leads(lists, b) + 1)
  }

  ghost predicate AllListed(lists: seq<seq<Node>>, ordered: seq<Node>, rf: nat)
    requires |ordered| >= 2
  {
    forall i :: 0 <= i < |lists| ==> lists[i] == PlaceList(ordered, i, rf)
  }

  /** The order placement walks: the usable brokers, interleaved by rack. */
  ghost predicate PlacedOrder(us: seq<Broker>, order: seq<Broker>, names: seq<string>,
                              groups: map<string, seq<Broker>>) {
    && multiset(order) == multiset(us) && DistinctNodes(Ids(order))
    && Interleaved(order, names, groups) && Grouping(names, groups, multiset(order)) && ByRack(groups, us)
  }

  /** Racks are interleaved, then every partition's list is `PlaceList` of that order. */
  method Place(partitions: nat, brokers: seq<Broker>, rf: int)
    returns (res: Placing, ghost order: seq<Broker>, ghost names: seq<string>, ghost groups: map<string, seq<Broker>>)
    requires DistinctBrokers(brokers)
    ensures res.Placed? ==> PlacedOrder(Usable(brokers), order, names, groups)
    ensures res.Placed? && partitions > 0 ==> |order| >= 2 && AllListed(res.replicas, Ids(order), Factor(rf))
    ensures var us, f := Ids(Usable(brokers)), if rf <= 0 then 3 else rf;
      && (res.Refused? <==> |us| == 0 || f > |us|)
      && (res.Panics? <==> |us| == 1 && f == 1 && partitions > 0)
      && (res.Placed? ==> WellPlaced(res.replicas, partitions, f, us))
    ensures res.Placed? ==> forall i, n :: 0 <= i < |res.replicas| && n in res.replicas[i] ==> CanHost(brokers, n)
  {
    hide Usable, GoodList, DistinctNodes, Leads, InTurn, WellPlaced, DistinctBrokers, PlaceList, Interleaved, Grouping,
      ByRack, CanHost;
    var us := LiveBrokers(brokers);
    UsableKeeps(brokers);
    var f := Factor(rf);
    order, names, groups := [], [], map[];
    if |us| == 0 || f > |us| { return Refused, order, names, groups; }
    var mixed;
    mixed, names, groups := InterleaveByRack(us);
    order := mixed;
    var ordered := Ids(mixed);
    Shuffled(us, mixed);
    var lists: seq<seq<Node>> := [];
    NoneInTurn(ordered);
    for i := 0 to partitions
      invariant |lists| == i && InTurn(lists, ordered) && (i > 0 ==> |us| >= 2)
      invariant forall k :: 0 <= k < i ==> |lists[k]| == f && GoodList(lists[k], ordered)
      invariant forall k :: 0 <= k < i ==> lists[k] == PlaceList(ordered, k, f)
    {
      if |ordered| - 1 == 0 { return Panics, order, names, groups; }
      var one := PlaceOne(ordered, i, f);
      OneMoreTurn(lists, ordered, one);
      lists := lists + [one];
    }
    ThenWellPlaced(lists, partitions, f, ordered, Ids(us));
    PlacedHosts(brokers, lists, partitions, f);
    return Placed(lists), order, names, groups;
  }

  lemma PlacedHosts(brokers: seq<Broker>, lists: seq<seq<Node>>, partitions: nat, rf: nat)
    requires WellPlaced(lists, partitions, rf, Ids(Usable(brokers)))
    ensures forall i, n :: 0 <= i < |lists| && n in lists[i] ==> CanHost(brokers, n)
  {
    hide Usable, CanHost, Leads;
    forall i, n | 0 <= i < |lists| && n in lists[i] ensures CanHost(brokers, n) { UsableIdIff(brokers, n); }
  }

  lemma NoneInTurn(ordered: seq<Node>)
    requires |ordered| > 0
    ensures InTurn([], ordered)
  {
  }

  lemma OneMoreTurn(lists: seq<seq<Node>>, ordered: seq<Node>, one: seq<Node>)
    requires InTurn(lists, ordered) && |one| > 0 && one[0] == ordered[|lists| % |ordered|]
    ensures InTurn(lists + [one], ordered)
  {
  }

  /** Interleaving changes neither how many brokers there are nor which. */
  lemma Shuffled(us: seq<Broker>, mixed: seq<Broker>)
    requires DistinctBrokers(us) && multiset(mixed) == multiset(us)
    ensures |Ids(mixed)| == |Ids(us)| && DistinctNodes(Ids(mixed)) && forall n :: n in Ids(mixed) <==> n in Ids(us)
  {
    assert |multiset(mixed)| == |multiset(us)|;
    forall n ensures n in Ids(mixed) <==> n in Ids(us) {
      if n in Ids(mixed) { SameId(mixed, us, n); }
      if n in Ids(us) { SameId(us, mixed, n); }
    }
    forall i, j | 0 <= i < j < |mixed| ensures mixed[i].id != mixed[j].id { StillDistinct(us, mixed, i, j); }
  }

  lemma SameId(a: seq<Broker>, b: seq<Broker>, n: Node)
    requires multiset(a) == multiset(b) && n in Ids(a)
    ensures n in Ids(b)
  {
    var i :| 0 <= i < |a| && Ids(a)[i] == n;
    assert a[i] in multiset(b);
    var j :| 0 <= j < |b| && b[j] == a[i];
    assert Ids(b)[j] == n;
  }

  lemma StillDistinct(us: seq<Broker>, mixed: seq<Broker>, i: nat, j: nat)
    requires DistinctBrokers(us) && multiset(mixed) == multiset(us) && i < j < |mixed|
    ensures mixed[i].id != mixed[j].id
  {
    assert mixed[i] in multiset(us) && mixed[j] in multiset(us);
    if mixed[i] == mixed[j] {
      TwiceCounts(mixed, i, j);
      OnceCounts(us, mixed[i]);
    }
  }

  lemma TwiceCounts(s: seq<Broker>, i: nat, j: nat)
    requires i < j < |s| && s[i] == s[j]
    ensures multiset(s)[s[i]] >= 2
  {
    assert s == s[..j] + s[j..];
    assert s[i] in s[..j] && s[j] in s[j..];
  }

  lemma {:induction false} OnceCounts(s: seq<Broker>, b: Broker)
    requires DistinctBrokers(s)
    ensures multiset(s)[b] <= 1
    decreases |s|
  {
    if s != [] {
      var k := |s| - 1;
      OnceCounts(s[..k], b);
      assert s == s[..k] + [s[k]];
      if s[k] == b { assert b !in s[..k]; }
    }
  }

  lemma ThenWellPlaced(lists: seq<seq<Node>>, partitions: nat, rf: nat, ordered: seq<Node>, us: seq<Node>)
    requires |lists| == partitions && InTurn(lists, ordered) && DistinctNodes(ordered)
    requires forall k :: 0 <= k < |lists| ==> |lists[k]| == rf && GoodList(lists[k], ordered)
    requires forall n :: n in ordered <==> n in us
    ensures WellPlaced(lists, partitions, rf, us)
  {
    hide Leads, InTurn, DistinctNodes;
    forall a, b | a in us && b in us ensures Leads(lists, a) <= Leads(lists, b) + 1 {
      LeadsSpread(lists, ordered, a, b);
    }
  }
}
