/**
 * Whether placement keeps a partition's replicas in different racks: the broker every replica lands on, in
 * closed form, and from it the exact condition for racks of any sizes, with a shorter one where every rack
 * holds the same number of brokers.
 */
module Racks {
  import opened Metadata
  import opened Planner
  import opened Placement

  // --- remainders --------------------------------------------------------

  lemma TimesIsZero(k: int, m: nat)
    requires m > 0
    ensures k * m % m == 0
  {
    var x := k * m;
    assert x == (x / m) * m + x % m;
    SmallMultiple(k - x / m, m, x % m) by {
      assert (k - x / m) * m == k * m - (x / m) * m;
    }
  }

  lemma SameMod(x: int, y: int, m: nat)
    requires m > 0
    ensures x % m == y % m <==> (x - y) % m == 0
  {
    var a, b := x / m, y / m;
    assert x == a * m + x % m && y == b * m + y % m;
    assert (a - b) * m == a * m - b * m;
    if x % m == y % m {
      TimesIsZero(a - b, m);
    } else if (x - y) % m == 0 {
      var k := (x - y) / m;
      assert x - y == k * m;
      SmallMultiple(k - (a - b), m, x % m - y % m) by {
        assert (k - (a - b)) * m == k * m - (a - b) * m;
      }
    }
  }

  /** A circle of r * m read off a circle of r. */
  lemma ModDown(x: nat, r: nat, m: nat)
    requires r > 0 && m > 0 && r * m > 0
    ensures x % (r * m) % r == x % r
  {
    var q := x / (r * m);
    assert x == q * (r * m) + x % (r * m);
    assert x - x % (r * m) == (q * m) * r;
    TimesIsZero(q * m, r);
    SameMod(x, x % (r * m), r);
  }

  // --- the order of a step around a circle -------------------------------

  /** d steps of s come back to where they began on a circle of m. */
  predicate Back(d: nat, s: nat, m: nat)
    requires m > 0
  {
    d * s % m == 0
  }

  lemma WholeTurn(s: nat, m: nat)
    requires m > 0
    ensures Back(m, s, m)
  {
    TimesIsZero(s, m);
    assert m * s == s * m;
  }

  function BackFrom(s: nat, m: nat, d: nat): (r: nat)
    requires 1 <= d <= m
    ensures d <= r <= m && Back(r, s, m) && forall e :: d <= e < r ==> !Back(e, s, m)
    decreases m - d
  {
    WholeTurn(s, m);
    if Back(d, s, m) then d else BackFrom(s, m, d + 1)
  }

  /** The fewest steps of s that come back around a circle of m. */
  function Order(s: nat, m: nat): (r: nat)
    requires m > 0
    ensures 1 <= r <= m && Back(r, s, m) && forall e :: 1 <= e < r ==> !Back(e, s, m)
  {
    BackFrom(s, m, 1)
  }

  /** A step comes back around r whenever it comes back around r * m, so no later. */
  lemma OrderDown(s: nat, r: nat, m: nat)
    requires r > 0 && m > 0 && r * m > 0
    ensures Order(s, r) <= Order(s, r * m)
  {
    var e := Order(s, r * m);
    ModDown(e * s, r, m);
    assert Back(e, s, r);
  }

  // --- where replicas land -----------------------------------------------

  /** Replica j of a partition lands this far past the first: every d replicas the walk shifts by one. */
  function Spot(j: nat, d: nat, s: nat): nat
    requires d > 0
  {
    j % d * s + j / d
  }

  lemma EarlySpot(j: nat, d: nat, s: nat)
    requires j < d
    ensures Spot(j, d, s) == j * s
  {
    assert j % d == j && j / d == 0;
  }

  /** Equal spots are on the same turn. */
  lemma SameTurn(t: int, u: int, s: nat, m: nat, d: nat, r: int, c: int)
    requires d > 0 && r * s + c == t * m && d * s == u * m && c * d < m && c * d + m > 0
    ensures c == 0
  {
    var w := d * t - r * u;
    assert c * d == w * m by {
      assert c * d == (t * m) * d - (r * s) * d;
      assert (r * s) * d == r * (d * s) == r * (u * m) == (r * u) * m;
      assert (t * m) * d == (d * t) * m;
      assert w * m == (d * t) * m - (r * u) * m;
    }
    SmallMultiple(w, m, c * d);
    assert c * d == 0;
  }

  lemma BackBy(e: nat, k: int, s: nat, m: nat)
    requires m > 0 && e * s == k * m
    ensures Back(e, s, m)
  {
    TimesIsZero(k, m);
  }

  /** Fewer than `Order` steps apart is the same place only if it is no step at all. */
  lemma SameStart(t: int, s: nat, m: nat, r: int)
    requires m > 0 && r * s == t * m && r < Order(s, m) && r + Order(s, m) > 0
    ensures r == 0
  {
    hide Back, Order;
    if r > 0 {
      BackBy(r, t, s, m);
    } else if r < 0 {
      Spread(0, r, s);
      Spread(0, t, m);
      BackBy(0 - r, 0 - t, s, m);
    }
  }

  lemma TurnStart(j: nat, d: nat)
    requires d > 0
    ensures 0 <= (j / d) * d <= j
  {
    DivMod(j, d);
  }

  lemma Spread(c: int, e: int, d: int)
    ensures (c - e) * d == c * d - e * d
  {
  }

  lemma TurnBound(j: nat, k: nat, d: nat, m: nat)
    requires d > 0 && j < m && k < m
    ensures (j / d - k / d) * d < m && (j / d - k / d) * d + m > 0
  {
    TurnStart(j, d);
    TurnStart(k, d);
    Spread(j / d, k / d, d);
  }

  lemma SpotsDiffer(j: nat, k: nat, d: nat, s: nat)
    requires d > 0
    ensures Spot(j, d, s) - Spot(k, d, s) == (j % d - k % d) * s + (j / d - k / d)
  {
  }

  /** The first m spots differ on a circle of m. */
  lemma SpotsApart(j: nat, k: nat, s: nat, m: nat)
    requires j < m && k < m && j != k
    ensures (Spot(j, Order(s, m), s) - Spot(k, Order(s, m), s)) % m != 0
  {
    hide Spot, Order;
    var d := Order(s, m);
    var x := Spot(j, d, s) - Spot(k, d, s);
    SpotsDiffer(j, k, d, s);
    if x % m == 0 {
      assert d * s == (d * s / m) * m by { assert Back(d, s, m); }
      TurnBound(j, k, d, m);
      SameTurn(x / m, d * s / m, s, m, d, j % d - k % d, j / d - k / d);
      SameStart(x / m, s, m, j % d - k % d);
      DivMod(j, d);
      DivMod(k, d);
    }
  }

  /** Past q used positions the walk stops at the first free one. */
  lemma {:induction false} Walk(ordered: seq<Node>, used: seq<Node>, x: nat, q: nat, fuel: nat)
    requires |ordered| > 0 && q <= fuel
    requires forall c :: x <= c < x + q ==> ordered[c % |ordered|] in used
    requires ordered[(x + q) % |ordered|] !in used
    ensures FirstFree(ordered, used, x % |ordered|, fuel) == (x + q) % |ordered|
    decreases q
  {
    if q > 0 {
      assert ordered[x % |ordered|] in used;
      Walk(ordered, used, x + 1, q - 1, fuel - 1);
      ModStep(x, |ordered|);
      NextIndex(x % |ordered|, |ordered|);
    }
  }

  /** Where the list of partition i puts replica j. */
  function Landing(i: nat, j: nat, n: nat): (p: nat)
    requires n >= 2
    ensures p < n
  {
    (i % n + Spot(j, Order(Step(i, n), n), Step(i, n))) % n
  }

  /** Whole turns aside, replica j is sought where the first replica of its turn was. */
  lemma SoughtAt(a: nat, j: nat, s: nat, n: nat)
    requires n > 0
    ensures (a + j * s) % n == (a + j % Order(s, n) * s) % n
  {
    hide Order;
    var d := Order(s, n);
    DivMod(j, d);
    var u := d * s / n;
    assert d * s == u * n by { assert Back(d, s, n); }
    Turned(j, j / d, j % d, d, u, s, n);
    TimesIsZero(j / d * u, n);
    SameMod(a + j * s, a + j % d * s, n);
  }

  lemma Turned(j: nat, c: nat, r: nat, d: nat, u: nat, s: nat, n: nat)
    requires j == c * d + r && d * s == u * n
    ensures j * s - r * s == c * u * n
  {
    assert j * s == (c * d) * s + r * s;
    assert (c * d) * s == c * (d * s) == c * (u * n) == c * u * n;
  }

  /** Positions between the sought one and the landing are taken by the same replica of earlier turns. */
  lemma EarlierTurn(c: nat, j: nat, d: nat, s: nat)
    requires d > 0 && c < j / d
    ensures c * d + j % d < j && Spot(c * d + j % d, d, s) == j % d * s + c
  {
    DivMod(j, d);
    var k := c * d + j % d;
    Multiple(c, d, j % d);
    DivMod(k, d);
    SmallMultiple(k / d - c, d, 0) by { Spread(k / d, c, d); }
    AtLeast(j / d - c, d);
    Spread(j / d, c, d);
  }

  lemma SpotInList(ordered: seq<Node>, l: seq<Node>, i: nat, c: nat, j: nat)
    requires |ordered| >= 2 && |l| == j
    requires forall k :: 0 <= k < j ==> l[k] == ordered[Landing(i, k, |ordered|)]
    requires c < j / Order(Step(i, |ordered|), |ordered|)
    ensures var n, s := |ordered|, Step(i, |ordered|);
      ordered[(i % n + j % Order(s, n) * s + c) % n] in l
  {
    var n, s := |ordered|, Step(i, |ordered|);
    var d := Order(s, n);
    EarlierTurn(c, j, d, s);
    var k: nat := c * d + j % d;
    assert l[k] == ordered[Landing(i, k, n)];
    assert i % n + Spot(k, d, s) == i % n + j % d * s + c;
  }

  lemma LandingFree(ordered: seq<Node>, l: seq<Node>, i: nat, j: nat)
    requires |ordered| >= 2 && DistinctNodes(ordered) && |l| == j < |ordered|
    requires forall k :: 0 <= k < j ==> l[k] == ordered[Landing(i, k, |ordered|)]
    ensures ordered[Landing(i, j, |ordered|)] !in l
  {
    var n, s := |ordered|, Step(i, |ordered|);
    var d := Order(s, n);
    forall k | 0 <= k < j ensures l[k] != ordered[Landing(i, j, n)] {
      SpotsApart(j, k, s, n);
      SameMod(i % n + Spot(j, d, s), i % n + Spot(k, d, s), n);
      assert Landing(i, k, n) != Landing(i, j, n);
    }
  }

  /** Where replica j is sought, whole turns of the stride aside, and how many turns those are. */
  function Sought(i: nat, j: nat, n: nat): nat
    requires n >= 2
  {
    i % n + j % Order(Step(i, n), n) * Step(i, n)
  }

  function TurnsBy(i: nat, j: nat, n: nat): nat
    requires n >= 2
  {
    j / Order(Step(i, n), n)
  }

  lemma SoughtIs(i: nat, j: nat, n: nat)
    requires n >= 2
    ensures (i % n + j * Step(i, n)) % n == Sought(i, j, n) % n
    ensures Landing(i, j, n) == (Sought(i, j, n) + TurnsBy(i, j, n)) % n && TurnsBy(i, j, n) <= j
  {
    hide Order, Step;
    DivideLess(j, Order(Step(i, n), n));
    SoughtAt(i % n, j, Step(i, n), n);
  }

  lemma WalkedPast(ordered: seq<Node>, l: seq<Node>, i: nat, j: nat)
    requires |ordered| >= 2 && |l| == j
    requires forall k :: 0 <= k < j ==> l[k] == ordered[Landing(i, k, |ordered|)]
    ensures var x := Sought(i, j, |ordered|);
      forall c :: x <= c < x + TurnsBy(i, j, |ordered|) ==> ordered[c % |ordered|] in l
  {
    hide Order, Step, Landing;
    var x := Sought(i, j, |ordered|);
    forall c | x <= c < x + TurnsBy(i, j, |ordered|) ensures ordered[c % |ordered|] in l {
      SpotInList(ordered, l, i, c - x, j);
    }
  }

  /** From where replica j is sought the walk passes the earlier turns and stops at its landing. */
  lemma LandsAt(ordered: seq<Node>, l: seq<Node>, i: nat, j: nat)
    requires |ordered| >= 2 && DistinctNodes(ordered) && |l| == j < |ordered|
    requires forall k :: 0 <= k < j ==> l[k] == ordered[Landing(i, k, |ordered|)]
    ensures var n := |ordered|; FirstFree(ordered, l, (i % n + j * Step(i, n)) % n, n) == Landing(i, j, n)
  {
    hide Order, Step, DistinctNodes, FirstFree, Landing, Sought, TurnsBy;
    var n := |ordered|;
    SoughtIs(i, j, n);
    LandingFree(ordered, l, i, j);
    WalkedPast(ordered, l, i, j);
    Walk(ordered, l, Sought(i, j, n), TurnsBy(i, j, n), n);
  }

  /** The placement in closed form: replica j of partition i is the broker at its landing. */
  lemma {:induction false} PlacedAt(ordered: seq<Node>, i: nat, rf: nat)
    requires |ordered| >= 2 && DistinctNodes(ordered) && rf <= |ordered|
    ensures forall j :: 0 <= j < rf ==> PlaceList(ordered, i, rf)[j] == ordered[Landing(i, j, |ordered|)]
    decreases rf
  {
    hide Step, DistinctNodes, FirstFree, Landing;
    if rf > 0 {
      PlacedAt(ordered, i, rf - 1);
      LandsAt(ordered, PlaceList(ordered, i, rf - 1), i, rf - 1);
    }
  }

  lemma DivideLess(j: nat, d: nat)
    requires d > 0
    ensures j / d <= j
  {
    DivMod(j, d);
    if j / d > 0 { TimesAtLeast(j / d, d); }
  }

  lemma TimesAtLeast(c: nat, d: nat)
    requires c > 0 && d > 0
    ensures c * d >= c
  {
    AtLeast(d, c);
    assert c * d == d * c;
  }

  // --- racks -------------------------------------------------------------

  /** Every rack holds m brokers. */
  ghost predicate Balanced(names: seq<string>, groups: map<string, seq<Broker>>, m: nat) {
    forall r :: r in names ==> r in groups && |groups[r]| == m
  }

  /** `rack` gives the failure domain of every broker. */
  ghost predicate RacksOf(rack: map<Node, string>, order: seq<Broker>) {
    forall k :: 0 <= k < |order| ==> order[k].id in rack && rack[order[k].id] == RackName(order[k])
  }

  /** No two of the nodes share a rack. */
  ghost predicate Separated(nodes: seq<Node>, rack: map<Node, string>) {
    && (forall x :: 0 <= x < |nodes| ==> nodes[x] in rack)
    && forall x, y :: 0 <= x < y < |nodes| ==> rack[nodes[x]] != rack[nodes[y]]
  }

  /** At most one broker of each named rack, and none of another. */
  ghost predicate OneEach(out: seq<Broker>, names: seq<string>) {
    && (forall x :: 0 <= x < |out| ==> RackName(out[x]) in names)
    && forall x, y :: 0 <= x < y < |out| ==> RackName(out[x]) != RackName(out[y])
  }

  /** One round never takes two brokers of a rack. */
  lemma {:induction false} RoundSeparated(names: seq<string>, groups: map<string, seq<Broker>>, i: nat)
    requires (forall r :: r in names ==> r in groups) && Shelved(groups) && DistinctNodes(names)
    ensures OneEach(RoundOf(names, groups, i), names)
    decreases |names|
  {
    hide OneEach, RackName;
    if names == [] {
      NoneEach(names);
    } else {
      var k := |names| - 1;
      RoundSeparated(names[..k], groups, i);
      var g, before := groups[names[k]], RoundOf(names[..k], groups, i);
      OneMoreEach(before, names, if i < |g| then [g[i]] else []);
    }
  }

  lemma NoneEach(names: seq<string>)
    ensures OneEach([], names)
  {
  }

  lemma OneMoreEach(before: seq<Broker>, names: seq<string>, last: seq<Broker>)
    requires names != [] && DistinctNodes(names) && OneEach(before, names[..|names| - 1]) && |last| <= 1
    requires last != [] ==> RackName(last[0]) == names[|names| - 1]
    ensures OneEach(before + last, names)
  {
    hide RackName;
    var k := |names| - 1;
    assert names == names[..k] + [names[k]];
    assert names[k] !in names[..k];
  }

  lemma {:induction false} FullRound(names: seq<string>, groups: map<string, seq<Broker>>, m: nat, i: nat)
    requires Balanced(names, groups, m) && Shelved(groups) && i < m
    ensures var out := RoundOf(names, groups, i);
      |out| == |names| && forall t :: 0 <= t < |out| ==> RackName(out[t]) == names[t]
    decreases |names|
  {
    hide RackName;
    if names != [] {
      var k := |names| - 1;
      FullRound(names[..k], groups, m, i);
    }
  }

  lemma {:induction false} EmptyRound(names: seq<string>, groups: map<string, seq<Broker>>, m: nat, i: nat)
    requires Balanced(names, groups, m) && i >= m
    ensures RoundOf(names, groups, i) == []
    decreases |names|
  {
    if names != [] { EmptyRound(names[..|names| - 1], groups, m, i); }
  }

  /** Balanced racks are interleaved in strict rotation. */
  ghost predicate Rotates(order: seq<Broker>, names: seq<string>) {
    |names| > 0 && forall t :: 0 <= t < |order| ==> RackName(order[t]) == names[t % |names|]
  }

  lemma NoneRotate(names: seq<string>)
    requires |names| > 0
    ensures Rotates([], names)
  {
  }

  lemma RotatesOn(before: seq<Broker>, round: seq<Broker>, names: seq<string>, k: nat)
    requires Rotates(before, names) && |before| == k * |names| && |round| == |names|
    requires forall t :: 0 <= t < |round| ==> RackName(round[t]) == names[t]
    ensures Rotates(before + round, names)
  {
    hide RackName;
    var out := before + round;
    forall t | 0 <= t < |out| ensures RackName(out[t]) == names[t % |names|] {
      if t >= |before| { Multiple(k, |names|, t - |before|); }
    }
  }

  lemma {:induction false} RoundsRotate(names: seq<string>, groups: map<string, seq<Broker>>, m: nat, k: nat)
    requires Balanced(names, groups, m) && Shelved(groups) && |names| > 0
    ensures Rotates(Rounds(names, groups, k), names)
    ensures |Rounds(names, groups, k)| == Least(k, m) * |names|
    decreases k
  {
    hide RackName, RoundOf, Shelved, Rotates;
    NoneRotate(names);
    if k > 0 {
      var before, r := Rounds(names, groups, k - 1), |names|;
      RoundsRotate(names, groups, m, k - 1);
      if k - 1 < m {
        FullRound(names, groups, m, k - 1);
        RotatesOn(before, RoundOf(names, groups, k - 1), names, k - 1);
        Spread(k, 1, r);
      } else {
        EmptyRound(names, groups, m, k - 1);
        assert before + [] == before;
      }
    }
  }

  lemma RackAtLanding(order: seq<Broker>, names: seq<string>, m: nat, rack: map<Node, string>, i: nat, rf: nat, j: nat)
    requires Rotates(order, names) && RacksOf(rack, order) && DistinctNodes(Ids(order))
    requires |order| == m * |names| && |order| >= 2 && j < rf <= |order|
    ensures var l, n, s := PlaceList(Ids(order), i, rf), |order|, Step(i, |order|);
      l[j] in rack && rack[l[j]] == names[(i % n + Spot(j, Order(s, n), s)) % |names|]
  {
    hide Order, Step, PlaceList, RackName, Spot, DistinctNodes;
    var n, s := |order|, Step(i, |order|);
    PlacedAt(Ids(order), i, rf);
    assert |names| * m == m * |names| && m > 0;
    ModDown(i % n + Spot(j, Order(s, n), s), |names|, m);
  }

  /** Distinct names drawn from r of them are at most r. */
  lemma Pigeonhole(drawn: seq<string>, names: seq<string>)
    requires DistinctNodes(drawn) && forall x :: 0 <= x < |drawn| ==> drawn[x] in names
    ensures |drawn| <= |names|
  {
    DistinctCount(drawn);
    SetCount(names);
    CardinalitySubset(set n | n in drawn, set n | n in names);
  }

  /** Replicas that use the same spots on both circles are kept apart, up to one per rack. */
  lemma KeptApart(order: seq<Broker>, names: seq<string>, m: nat, rack: map<Node, string>, i: nat, rf: nat)
    requires Rotates(order, names) && RacksOf(rack, order) && DistinctNodes(Ids(order)) && DistinctNodes(names)
    requires |order| == m * |names| && |order| >= 2 && rf <= |order| && rf <= |names|
    requires var s := Step(i, |order|);
      rf <= Order(s, |names|) <= Order(s, |order|) || Order(s, |names|) == Order(s, |order|)
    ensures Separated(PlaceList(Ids(order), i, rf), rack)
  {
    hide Order, Step, PlaceList, RackName, Spot, RacksOf, Rotates;
    var n, s, r := |order|, Step(i, |order|), |names|;
    var l, d := PlaceList(Ids(order), i, rf), Order(s, r);
    forall x | 0 <= x < rf
      ensures l[x] in rack && rack[l[x]] == names[(i % n + Spot(x, d, s)) % r]
    {
      RackAtLanding(order, names, m, rack, i, rf, x);
      if d != Order(s, n) {
        EarlySpot(x, d, s);
        EarlySpot(x, Order(s, n), s);
      }
    }
    forall x, y | 0 <= x < y < rf ensures rack[l[x]] != rack[l[y]] {
      SpotsApart(x, y, s, r);
      SameMod(i % n + Spot(x, d, s), i % n + Spot(y, d, s), r);
    }
  }

  /** Coming back to the first rack before coming back to the first broker puts two replicas in one rack. */
  lemma SharesFirst(order: seq<Broker>, names: seq<string>, m: nat, rack: map<Node, string>, i: nat, rf: nat)
    requires Rotates(order, names) && RacksOf(rack, order) && DistinctNodes(Ids(order))
    requires |order| == m * |names| && |order| >= 2 && rf <= |order|
    requires var s := Step(i, |order|); Order(s, |names|) < rf && Order(s, |names|) < Order(s, |order|)
    ensures !Separated(PlaceList(Ids(order), i, rf), rack)
  {
    hide Order, Step, PlaceList, RackName, Spot, RacksOf, Rotates, DistinctNodes;
    var n, s, r := |order|, Step(i, |order|), |names|;
    var l, d, e := PlaceList(Ids(order), i, rf), Order(s, r), Order(s, n);
    RackAtLanding(order, names, m, rack, i, rf, 0);
    RackAtLanding(order, names, m, rack, i, rf, d);
    EarlySpot(0, e, s);
    EarlySpot(d, e, s);
    assert Back(d, s, r);
    SameMod(i % n + d * s, i % n, r);
    assert rack[l[0]] == rack[l[d]];
  }

  lemma AtMostOnePerRack(order: seq<Broker>, names: seq<string>, m: nat, rack: map<Node, string>, i: nat, rf: nat)
    requires Rotates(order, names) && RacksOf(rack, order) && DistinctNodes(Ids(order))
    requires |order| == m * |names| && |order| >= 2 && rf <= |order|
    requires Separated(PlaceList(Ids(order), i, rf), rack)
    ensures rf <= |names|
  {
    hide Order, Step, PlaceList, RackName, Spot, RacksOf, Rotates;
    var l := PlaceList(Ids(order), i, rf);
    var drawn := seq(rf, x requires 0 <= x < rf => rack[l[x]]);
    forall x | 0 <= x < rf ensures drawn[x] in names {
      RackAtLanding(order, names, m, rack, i, rf, x);
    }
    Pigeonhole(drawn, names);
  }

  lemma {:induction false} BalancedSize(names: seq<string>, groups: map<string, seq<Broker>>, m: nat)
    requires Balanced(names, groups, m)
    ensures |Grouped(names, groups)| == m * |names|
    decreases |names|
  {
    if names != [] {
      BalancedSize(names[..|names| - 1], groups, m);
      assert m * (|names| - 1) + m == m * |names|;
    }
  }

  lemma DistinctNames(names: seq<string>)
    requires forall i, j :: 0 <= i < j < |names| ==> names[i] != names[j]
    ensures DistinctNodes(names)
  {
  }

  // --- racks of any size -------------------------------------------------

  /** The racks one round goes through: those with more than i brokers. */
  function RackRound(names: seq<string>, sizes: seq<nat>, i: nat): seq<string>
    requires |sizes| == |names|
  {
    if names == [] then [] else
      var n := |names| - 1;
      RackRound(names[..n], sizes[..n], i) + if i < sizes[n] then [names[n]] else []
  }

  /** The rack at every position of the interleaved order, from the names and sizes of the racks alone. */
  function RackOrder(names: seq<string>, sizes: seq<nat>, k: nat): seq<string>
    requires |sizes| == |names|
  {
    if k == 0 then [] else RackOrder(names, sizes, k - 1) + RackRound(names, sizes, k - 1)
  }

  function SizesOf(names: seq<string>, brokers: seq<Broker>): (sizes: seq<nat>)
    ensures |sizes| == |names|
  {
    seq(|names|, j requires 0 <= j < |names| => |OfRack(brokers, names[j])|)
  }

  ghost predicate SizesIn(names: seq<string>, sizes: seq<nat>, groups: map<string, seq<Broker>>) {
    |sizes| == |names| && forall j :: 0 <= j < |names| ==> names[j] in groups && sizes[j] == |groups[names[j]]|
  }

  function RackNames(brokers: seq<Broker>): (r: seq<string>)
    ensures |r| == |brokers|
  {
    seq(|brokers|, j requires 0 <= j < |brokers| => RackName(brokers[j]))
  }

  lemma {:induction false} RoundRacks(names: seq<string>, sizes: seq<nat>, groups: map<string, seq<Broker>>, i: nat)
    requires SizesIn(names, sizes, groups) && Shelved(groups)
    ensures RackNames(RoundOf(names, groups, i)) == RackRound(names, sizes, i)
    decreases |names|
  {
    hide RackName;
    if names != [] {
      var n := |names| - 1;
      RoundRacks(names[..n], sizes[..n], groups, i);
      var g, before := groups[names[n]], RoundOf(names[..n], groups, i);
      var last := if i < |g| then [g[i]] else [];
      NamesConcat(before, last);
      assert i < |g| ==> RackName(g[i]) == names[n];
      assert RackNames(last) == if i < |g| then [names[n]] else [];
    }
  }

  lemma NamesConcat(a: seq<Broker>, b: seq<Broker>)
    ensures RackNames(a + b) == RackNames(a) + RackNames(b)
  {
    hide RackName;
  }

  lemma {:induction false} RoundsRacks(names: seq<string>, sizes: seq<nat>, groups: map<string, seq<Broker>>, k: nat)
    requires SizesIn(names, sizes, groups) && Shelved(groups)
    ensures RackNames(Rounds(names, groups, k)) == RackOrder(names, sizes, k)
    decreases k
  {
    hide RoundOf, RackRound, RackName, Shelved, RackNames;
    if k == 0 {
      NamesNone();
    } else {
      RoundsRacks(names, sizes, groups, k - 1);
      RoundRacks(names, sizes, groups, k - 1);
      NamesConcat(Rounds(names, groups, k - 1), RoundOf(names, groups, k - 1));
    }
  }

  lemma NamesNone()
    ensures RackNames([]) == []
  {
  }

  /** Rounds past the longest rack add nothing. */
  lemma {:induction false} NothingMore(names: seq<string>, groups: map<string, seq<Broker>>, i: nat)
    requires (forall r :: r in names ==> r in groups) && NoneLonger(groups, i)
    ensures RoundOf(names, groups, i) == []
    decreases |names|
  {
    if names != [] { NothingMore(names[..|names| - 1], groups, i); }
  }

  lemma {:induction false} SameRounds(names: seq<string>, groups: map<string, seq<Broker>>, k: nat, j: nat)
    requires (forall r :: r in names ==> r in groups) && NoneLonger(groups, k) && k <= j
    ensures Rounds(names, groups, j) == Rounds(names, groups, k)
    decreases j
  {
    hide RoundOf;
    if j > k {
      SameRounds(names, groups, k, j - 1);
      NothingMore(names, groups, j - 1);
      var out := Rounds(names, groups, k);
      assert out + [] == out;
    }
  }

  /** The interleaved order's racks follow from the names and sizes of the racks. */
  lemma OrderRacks(us: seq<Broker>, order: seq<Broker>, names: seq<string>, groups: map<string, seq<Broker>>)
    requires PlacedOrder(us, order, names, groups)
    ensures RackNames(order) == RackOrder(names, SizesOf(names, us), |us|)
  {
    hide Rounds, RackOrder, Grouping, RackName, Shelved, OfRack, DistinctNodes;
    var k: nat :| order == Rounds(names, groups, k) && NoneLonger(groups, k);
    var sizes := SizesOf(names, us);
    assert SizesIn(names, sizes, groups) by {
      forall j | 0 <= j < |names| ensures names[j] in groups && sizes[j] == |groups[names[j]]| {
        assert names[j] in names;
      }
    }
    assert NoneLonger(groups, |us|);
    SameRounds(names, groups, k, if k < |us| then |us| else k);
    SameRounds(names, groups, |us|, if k < |us| then |us| else k);
    RoundsRacks(names, sizes, groups, |us|);
  }

  /**
   * Rack separation decided for racks of any sizes: partition i's replicas are in different racks exactly when
   * their landings are, in the rack order that the racks' sizes give.
   */
  lemma SeparatedAnyIff(us: seq<Broker>, order: seq<Broker>, names: seq<string>, groups: map<string, seq<Broker>>,
                        rack: map<Node, string>, i: nat, rf: nat)
    requires PlacedOrder(us, order, names, groups) && RacksOf(rack, order) && 2 <= |us| && rf <= |us|
    ensures |order| == |us| == |RackOrder(names, SizesOf(names, us), |us|)|
    ensures var racks, n := RackOrder(names, SizesOf(names, us), |us|), |us|;
      Separated(PlaceList(Ids(order), i, rf), rack) <==>
      forall x, y :: 0 <= x < y < rf ==> racks[Landing(i, x, n)] != racks[Landing(i, y, n)]
  {
    hide Landing, PlaceList, RackOrder, RackName, OfRack, SizesOf, Interleaved, Grouping, ByRack, DistinctNodes;
    assert |multiset(order)| == |multiset(us)|;
    OrderRacks(us, order, names, groups);
    PlacedAt(Ids(order), i, rf);
    var l, n := PlaceList(Ids(order), i, rf), |us|;
    forall x | 0 <= x < rf ensures l[x] in rack && rack[l[x]] == RackNames(order)[Landing(i, x, n)] {
      assert l[x] == order[Landing(i, x, n)].id;
    }
  }

  /**
   * With r racks of m brokers each, partition i's replicas are in different racks exactly when there are no more
   * of them than steps before the stride returns to the first rack, or no more than racks and the stride returns
   * to the first rack only where it returns to the first broker.
   */
  lemma SeparatedIff(order: seq<Broker>, names: seq<string>, groups: map<string, seq<Broker>>, m: nat,
                     rack: map<Node, string>, i: nat, rf: nat)
    requires Interleaved(order, names, groups) && Balanced(names, groups, m) && RacksOf(rack, order)
    requires Grouping(names, groups, multiset(order)) && DistinctNodes(Ids(order)) && 2 <= |order| && rf <= |order|
    ensures |names| > 0
    ensures var s := Step(i, |order|);
      Separated(PlaceList(Ids(order), i, rf), rack) <==>
      rf <= Order(s, |names|) || (rf <= |names| && Order(s, |names|) == Order(s, |order|))
  {
    hide Order, Step, PlaceList, Separated, Rounds, RacksOf, Balanced, Grouped, DistinctNodes, NoneLonger;
    var k: nat :| order == Rounds(names, groups, k) && NoneLonger(groups, k);
    BalancedSize(names, groups, m);
    assert |multiset(order)| == |order|;
    RoundsRotate(names, groups, m, k);
    var s := Step(i, |order|);
    assert |names| * m == m * |names| && m > 0;
    OrderDown(s, |names|, m);
    assert DistinctNodes(names) by { DistinctNames(names); }
    if rf <= Order(s, |names|) || (rf <= |names| && Order(s, |names|) == Order(s, |order|)) {
      KeptApart(order, names, m, rack, i, rf);
    } else if Order(s, |names|) < rf && Order(s, |names|) < Order(s, |order|) {
      SharesFirst(order, names, m, rack, i, rf);
    } else if Separated(PlaceList(Ids(order), i, rf), rack) {
      AtMostOnePerRack(order, names, m, rack, i, rf);
    }
  }

  // --- two clusters whose replicas share a rack --------------------------

  function In(id: Node, rack: string): Broker {
    Broker(id, id, rack, 0, false)
  }

  /** Three brokers in rack A and one in rack B. */
  const LOPSIDED := [In("a1", "A"), In("a2", "A"), In("a3", "A"), In("b1", "B")]

  /** Two brokers in each of two racks. */
  const EVEN := [In("a1", "A"), In("a2", "A"), In("b1", "B"), In("b2", "B")]

  lemma OfFour(w: Broker, x: Broker, y: Broker, z: Broker, r: string)
    ensures OfRack([w, x, y, z], r) ==
      (if RackName(w) == r then [w] else []) + (if RackName(x) == r then [x] else []) +
      (if RackName(y) == r then [y] else []) + if RackName(z) == r then [z] else []
  {
    hide RackName;
    assert [] + [w] == [w] && [w] + [x] == [w, x] && [w, x] + [y] == [w, x, y] && [w, x, y] + [z] == [w, x, y, z];
    assert OfRack([], r) == [];
    OfRackSnoc([], w, r);
    OfRackSnoc([w], x, r);
    OfRackSnoc([w, x], y, r);
    OfRackSnoc([w, x, y], z, r);
  }

  /** Two racks, visited in either order. */
  lemma TwoNames(names: seq<string>, a: string, b: string)
    requires DistinctNodes(names) && a != b && forall r :: r in names <==> r == a || r == b
    ensures names == [a, b] || names == [b, a]
  {
    assert a in names && b in names;
    forall x | 0 <= x < |names| ensures names[x] in [a, b] { assert names[x] in names; }
    Pigeonhole(names, [a, b]);
  }

  lemma TwoRound(x: string, y: string, p: nat, q: nat, i: nat)
    ensures RackRound([x, y], [p, q], i) == (if i < p then [x] else []) + if i < q then [y] else []
  {
    var names, sizes := [x, y], [p, q];
    assert names[..1] == [x] && sizes[..1] == [p] && [x][..0] == [] && [p][..0] == [];
    assert RackRound([x], [p], i) == RackRound([], [], i) + if i < p then [x] else [];
  }

  lemma FourRounds(names: seq<string>, sizes: seq<nat>)
    requires |sizes| == |names|
    ensures RackOrder(names, sizes, 4) ==
      RackRound(names, sizes, 0) + RackRound(names, sizes, 1) + RackRound(names, sizes, 2) + RackRound(names, sizes, 3)
  {
    hide RackRound;
    assert RackOrder(names, sizes, 0) == [];
    assert RackOrder(names, sizes, 1) == RackRound(names, sizes, 0);
    assert RackOrder(names, sizes, 2) == RackOrder(names, sizes, 1) + RackRound(names, sizes, 1);
    assert RackOrder(names, sizes, 3) == RackOrder(names, sizes, 2) + RackRound(names, sizes, 2);
  }

  /** The rack orders of three and one, of one and three, and of two and two. */
  lemma SmallOrders(x: string, y: string)
    ensures RackOrder([x, y], [3, 1], 4) == [x, y, x, x]
    ensures RackOrder([x, y], [1, 3], 4) == [x, y, y, y]
    ensures RackOrder([x, y], [2, 2], 4) == [x, y, x, y]
  {
    hide RackRound, RackOrder;
    FourRounds([x, y], [3, 1]);
    FourRounds([x, y], [1, 3]);
    FourRounds([x, y], [2, 2]);
    forall p: nat, q: nat, i: nat
      ensures RackRound([x, y], [p, q], i) == (if i < p then [x] else []) + if i < q then [y] else []
    {
      TwoRound(x, y, p, q, i);
    }
  }

  lemma StepsBackLater(s: nat, n: nat)
    requires 0 < s < n
    ensures 1 < Order(s, n)
  {
    assert !Back(1, s, n);
  }

  lemma StepRange(i: nat, n: nat)
    requires n >= 2
    ensures 0 < Step(i, n) < n
  {
  }

  /** With two replicas nothing is walked: the second is one step past the first. */
  lemma TwoLandings(i: nat, n: nat)
    requires n >= 2
    ensures Landing(i, 0, n) == i % n && Landing(i, 1, n) == (i % n + Step(i, n)) % n
  {
    hide Order, Step, Spot;
    var s := Step(i, n);
    StepRange(i, n);
    StepsBackLater(s, n);
    EarlySpot(0, Order(s, n), s);
    EarlySpot(1, Order(s, n), s);
    ModOnce(i, n);
  }

  /** Where the placement wraps, with more than two brokers, a partition and the one a turn later have the same
      preferred leader and different first followers. */
  lemma WrapDiffers(i: nat, n: nat)
    requires n > 2
    ensures Landing(i + n, 0, n) == Landing(i, 0, n) && Landing(i + n, 1, n) != Landing(i, 1, n)
  {
    hide Landing, Step;
    TwoLandings(i, n);
    TwoLandings(i + n, n);
    StepRange(i, n);
    StepRange(i + n, n);
    TurnLater(i, n);
    SameMod(i + n, i, n);
    TimesIsZero(1, n);
    var a, s, t := i % n, Step(i, n), Step(i + n, n);
    if (a + s) % n == (a + t) % n {
      SameMod(a + s, a + t, n);
      Near(s, t, n);
    }
  }

  lemma Near(s: nat, t: nat, n: nat)
    requires s < n && t < n && (s - t) % n == 0
    ensures s == t
  {
    var k := (s - t) / n;
    assert s - t == k * n;
    SmallMultiple(k, n, s - t);
  }

  lemma TurnLater(i: nat, n: nat)
    requires n > 2
    ensures Step(i + n, n) != Step(i, n)
  {
    var q := i / n;
    assert (i + n) / n == q + 1 by {
      DivMod(i, n);
      DivMod(i + n, n);
      SmallMultiple((i + n) / n - q - 1, n, i % n - (i + n) % n) by {
        assert ((i + n) / n - q - 1) * n == (i + n) / n * n - q * n - n;
      }
    }
    ModStep(q, n - 1);
  }

  lemma OnFour()
    ensures Landing(2, 0, 4) == 2 && Landing(2, 1, 4) == 3
    ensures Landing(4, 0, 4) == 0 && Landing(4, 1, 4) == 2
  {
    hide Landing;
    TwoLandings(2, 4);
    TwoLandings(4, 4);
  }

  /** The racks of a cluster with brokers in A and B only. */
  lemma NamesAB(us: seq<Broker>, order: seq<Broker>, names: seq<string>, groups: map<string, seq<Broker>>)
    requires PlacedOrder(us, order, names, groups) && forall r :: OfRack(us, r) != [] <==> r == "A" || r == "B"
    ensures names == ["A", "B"] || names == ["B", "A"]
  {
    hide OfRack, Rounds, RackName, Shelved, Grouped, NoneLonger;
    forall r ensures r in names <==> r == "A" || r == "B" {
      assert r in groups <==> OfRack(us, r) != [];
    }
    DistinctNames(names);
    TwoNames(names, "A", "B");
  }

  /** The cluster's racks by name. */
  lemma LopsidedRacks(r: string)
    ensures OfRack(LOPSIDED, r) == if r == "A" then LOPSIDED[..3] else if r == "B" then LOPSIDED[3..] else []
  {
    hide OfRack;
    OfFour(LOPSIDED[0], LOPSIDED[1], LOPSIDED[2], LOPSIDED[3], r);
  }

  lemma EvenRacks(r: string)
    ensures OfRack(EVEN, r) == if r == "A" then EVEN[..2] else if r == "B" then EVEN[2..] else []
  {
    hide OfRack;
    OfFour(EVEN[0], EVEN[1], EVEN[2], EVEN[3], r);
  }

  /** However the racks are ordered, the third partition's two replicas share rack A. */
  lemma LopsidedShares(order: seq<Broker>, names: seq<string>, groups: map<string, seq<Broker>>,
                       rack: map<Node, string>)
    requires PlacedOrder(LOPSIDED, order, names, groups) && RacksOf(rack, order)
    ensures |order| == 4 && !Separated(PlaceList(Ids(order), 2, 2), rack)
  {
    hide PlacedOrder, RacksOf, OfRack, RackOrder, PlaceList, Separated, Landing;
    forall r ensures OfRack(LOPSIDED, r) != [] <==> r == "A" || r == "B" { LopsidedRacks(r); }
    NamesAB(LOPSIDED, order, names, groups);
    LopsidedRacks("A");
    LopsidedRacks("B");
    var sizes := SizesOf(names, LOPSIDED);
    assert sizes == if names == ["A", "B"] then [3, 1] else [1, 3];
    SmallOrders("A", "B");
    SmallOrders("B", "A");
    OnFour();
    SeparatedAnyIff(LOPSIDED, order, names, groups, rack, 2, 2);
  }

  /** However the racks are ordered, the fifth partition's stride is the rack count and its two replicas share one. */
  lemma EvenShares(order: seq<Broker>, names: seq<string>, groups: map<string, seq<Broker>>, rack: map<Node, string>)
    requires PlacedOrder(EVEN, order, names, groups) && RacksOf(rack, order)
    ensures |order| == 4 && !Separated(PlaceList(Ids(order), 4, 2), rack)
  {
    hide PlacedOrder, RacksOf, OfRack, RackOrder, PlaceList, Separated, Landing;
    forall r ensures OfRack(EVEN, r) != [] <==> r == "A" || r == "B" { EvenRacks(r); }
    NamesAB(EVEN, order, names, groups);
    EvenRacks("A");
    EvenRacks("B");
    assert SizesOf(names, EVEN) == [2, 2];
    SmallOrders("A", "B");
    SmallOrders("B", "A");
    OnFour();
    SeparatedAnyIff(EVEN, order, names, groups, rack, 4, 2);
  }

  const RACK_OF: map<Node, string> := map["a1" := "A", "a2" := "A", "a3" := "A", "b1" := "B", "b2" := "B"]

  lemma SmallClusters(bs: seq<Broker>)
    requires bs == LOPSIDED || bs == EVEN
    ensures DistinctBrokers(bs) && Usable(bs) == bs && |bs| == 4
  {
    hide Usable, DistinctBrokers;
    AllUsable(bs);
    DistinctFour(bs);
  }

  lemma DistinctFour(bs: seq<Broker>)
    requires |bs| == 4 && (forall k :: 0 <= k < 4 ==> bs[k].id != "")
    requires bs[0].id != bs[1].id && bs[0].id != bs[2].id && bs[0].id != bs[3].id
    requires bs[1].id != bs[2].id && bs[1].id != bs[3].id && bs[2].id != bs[3].id
    ensures DistinctBrokers(bs)
  {
  }

  lemma KnownRacks(bs: seq<Broker>, order: seq<Broker>, names: seq<string>, groups: map<string, seq<Broker>>)
    requires (bs == LOPSIDED || bs == EVEN) && PlacedOrder(bs, order, names, groups)
    ensures RacksOf(RACK_OF, order)
  {
    hide Interleaved, Grouping, ByRack, DistinctNodes, RackName, RACK_OF, LOPSIDED, EVEN;
    forall k | 0 <= k < |order| ensures order[k].id in RACK_OF && RACK_OF[order[k].id] == RackName(order[k]) {
      assert order[k] in multiset(bs);
      KnownRack(bs, order[k]);
    }
  }

  lemma KnownRack(bs: seq<Broker>, b: Broker)
    requires (bs == LOPSIDED || bs == EVEN) && b in bs
    ensures b.id in RACK_OF && RACK_OF[b.id] == RackName(b)
  {
  }

  /** Placing three partitions on the lopsided cluster, with two replicas each. */
  method PlaceLopsided() returns (lists: seq<seq<Node>>)
    ensures |lists| == 3 && |lists[2]| == 2 && !Separated(lists[2], RACK_OF)
  {
    hide Separated, PlacedOrder, PlaceList, Usable, RacksOf, Leads, DistinctBrokers, GoodList, LOPSIDED;
    SmallClusters(LOPSIDED);
    var res, order, names, groups := Place(3, LOPSIDED, 2);
    KnownRacks(LOPSIDED, order, names, groups);
    LopsidedShares(order, names, groups, RACK_OF);
    return res.replicas;
  }

  /** Placing five partitions on the even cluster, with two replicas each. */
  method PlaceEven() returns (lists: seq<seq<Node>>)
    ensures |lists| == 5 && |lists[4]| == 2 && !Separated(lists[4], RACK_OF)
  {
    hide Separated, PlacedOrder, PlaceList, Usable, RacksOf, Leads, DistinctBrokers, GoodList, EVEN;
    SmallClusters(EVEN);
    var res, order, names, groups := Place(5, EVEN, 2);
    KnownRacks(EVEN, order, names, groups);
    EvenShares(order, names, groups, RACK_OF);
    return res.replicas;
  }
}
