/** The controller: elections and replica moves, and what no interleaving of them can break. */
module Controllers {
  import opened Metadata
  import opened Planner

  // --- elections ---------------------------------------------------------

  /** The first allowed id, or the empty one when there is none. */
  function FirstOf(ids: seq<Node>, allowed: set<Node>): (n: Node)
    ensures n == "" || (n in ids && n in allowed)
    ensures "" !in allowed && (exists x :: x in ids && x in allowed) ==> n != ""
  {
    if ids == [] then "" else if ids[0] in allowed then ids[0] else FirstOf(ids[1..], allowed)
  }

  /** The node that should lead: a healthy leader stays, unless the preferred replica is healthy and wanted
      back; otherwise the first healthy in-sync replica; otherwise any live one, if unclean elections are allowed. */
  function ElectLeader(a: Assignment, live: set<Node>, preferred: bool, unclean: bool): (n: Node) {
    var eligible := set x | x in a.isr && x in live;
    var first := if a.replicas == [] then "" else a.replicas[0];
    if a.leader != "" && a.leader in eligible then
      if preferred && first != a.leader && first in eligible then first else a.leader
    else if preferred && first in eligible then first
    else
      var chosen := FirstOf(a.replicas, eligible);
      if chosen != "" || !unclean then chosen else FirstOf(a.replicas, live)
  }

  /** An elected node is a replica; without unclean elections it is live and in sync, and one is elected
      whenever there is one. */
  lemma ElectionSound(a: Assignment, live: set<Node>, preferred: bool, unclean: bool)
    requires (forall x :: x in a.isr ==> x in a.replicas && x != "")
    ensures var n := ElectLeader(a, live, preferred, unclean);
      && (n == "" || (n in a.replicas && n in live))
      && (!unclean ==> n == "" || n in a.isr)
      && (!unclean ==> (n == "" <==> forall x :: x in a.isr ==> x !in live))
  {
    var n := ElectLeader(a, live, preferred, unclean);
    if n == "" && !unclean {
      forall x | x in a.isr ensures x !in live {
        assert x in a.replicas && x != "";
      }
    }
  }

  /** Live and in sync. */
  predicate Healthy(a: Assignment, live: set<Node>, n: Node) {
    n in a.isr && n in live
  }

  /** n is the first node of the placement with the property that `ok` lists. */
  predicate FirstPlaced(replicas: seq<Node>, ok: set<Node>, n: Node) {
    exists i :: 0 <= i < |replicas| && replicas[i] == n && n in ok && forall j :: 0 <= j < i ==> replicas[j] !in ok
  }

  /** Who should lead, without reference to how it is found: a healthy leader, unless the preferred replica is another
      healthy node and wanted back; otherwise the healthy replica placed first; otherwise, where unclean elections
      are allowed, the live replica placed first; otherwise nobody. */
  ghost predicate ShouldLead(a: Assignment, live: set<Node>, preferred: bool, unclean: bool, n: Node) {
    var pulls := preferred && a.replicas != [] && a.replicas[0] != a.leader && Healthy(a, live, a.replicas[0]);
    if a.leader != "" && Healthy(a, live, a.leader) then n == if pulls then a.replicas[0] else a.leader
    else if exists x :: x in a.replicas && Healthy(a, live, x) then
      FirstPlaced(a.replicas, (set x | x in a.isr && x in live), n)
    else if unclean && exists x :: x in a.replicas && x in live then FirstPlaced(a.replicas, live, n)
    else n == ""
  }

  lemma {:induction false} FirstIsPlaced(replicas: seq<Node>, ok: set<Node>)
    requires "" !in ok
    ensures FirstOf(replicas, ok) != "" <==> exists x :: x in replicas && x in ok
    ensures FirstOf(replicas, ok) != "" ==> FirstPlaced(replicas, ok, FirstOf(replicas, ok))
    decreases |replicas|
  {
    if replicas != [] {
      assert replicas == [replicas[0]] + replicas[1..];
      FirstIsPlaced(replicas[1..], ok);
      var n := FirstOf(replicas, ok);
      if replicas[0] !in ok && n != "" {
        var i :| 0 <= i < |replicas| - 1 && replicas[1..][i] == n && forall j :: 0 <= j < i ==> replicas[1..][j] !in ok;
        assert replicas[i + 1] == n;
        forall j | 0 <= j < i + 1 ensures replicas[j] !in ok { assert j > 0 ==> replicas[j] == replicas[1..][j - 1]; }
      }
    }
  }

  /** The election elects whoever should lead. */
  lemma ElectsRightly(a: Assignment, live: set<Node>, preferred: bool, unclean: bool)
    requires "" !in live
    ensures ShouldLead(a, live, preferred, unclean, ElectLeader(a, live, preferred, unclean))
  {
    hide FirstOf;
    var eligible := set x | x in a.isr && x in live;
    FirstIsPlaced(a.replicas, eligible);
    FirstIsPlaced(a.replicas, live);
    if a.replicas != [] && a.replicas[0] in eligible { assert FirstPlaced(a.replicas, eligible, a.replicas[0]); }
  }

  // --- the step system ---------------------------------------------------

  datatype Phase = Expand | Shrink

  datatype MoveState = MoveState(move: Move, phase: Phase, started: int)

  /** The agreed metadata and this controller's moves. `created` remembers each partition's size at creation. */
  datatype Ctl = Ctl(meta: Meta, moves: map<PartitionKey, MoveState>, created: map<PartitionKey, nat>)

  /** What one partition must always look like. */
  ghost predicate PartOk(a: Assignment, least: nat) {
    && DistinctNodes(a.replicas) && DistinctNodes(a.isr) && (forall n :: n in a.isr ==> n in a.replicas)
    && (a.leader == "" || a.leader in a.replicas) && |a.replicas| >= least
  }

  function Extra(moves: map<PartitionKey, MoveState>, k: PartitionKey): nat {
    if k in moves then 1 else 0
  }

  /** While a move is in flight the partition has a replica to spare. */
  ghost predicate Safe(s: Ctl) {
    && s.meta.Valid()
    && s.created.Keys == s.meta.partitions.Keys && s.moves.Keys <= s.meta.partitions.Keys
    && (forall k :: k in s.meta.partitions ==> PartOk(s.meta.partitions[k], s.created[k] + Extra(s.moves, k)))
  }

  datatype Event =
    | Outside(c: Command)
    | Elect(key: PartitionKey, leader: Node, epoch: nat)
    | Begin(mv: Move, now: int, accepted: bool)
    | Notice(key: PartitionKey, now: int, timeout: int)
    | Remove(key: PartitionKey)
    | Abandon(key: PartitionKey)
    | Lose

  /** Commands from elsewhere leave placement to the controller and register brokers by name, an election names
      a replica, and the source of a move is removed only in its last phase and while it does not lead. */
  ghost predicate Allowed(s: Ctl, e: Event) {
    match e
    case Outside(c) =>
      && !c.AssignLeader? && !c.Reassign? && (c.RegisterBroker? ==> c.broker.id != "")
      && (c.CreateTopic? ==> forall i :: 0 <= i < |c.placements| ==> DistinctNodes(c.placements[i]))
    case Elect(k, n, _) => k in s.meta.partitions && n != "" ==> n in s.meta.partitions[k].replicas
    case Remove(k) =>
      k in s.moves && k in s.meta.partitions ==>
        s.moves[k].phase == Shrink && s.meta.partitions[k].leader != s.moves[k].move.from
    case _ => true
  }

  function NewSizes(created: map<PartitionKey, nat>, ps: map<PartitionKey, Assignment>): map<PartitionKey, nat> {
    map k | k in created.Keys + ps.Keys :: if k in created then created[k] else |ps[k].replicas|
  }

  function After(s: Ctl, c: Command): Ctl {
    var m := Apply(s.meta, c).meta;
    Ctl(m, s.moves, NewSizes(s.created, m.partitions))
  }

  /** Adds the destination, leaving the source in place. */
  function BeginMove(s: Ctl, mv: Move, now: int, accepted: bool): Ctl {
    if mv.key !in s.meta.partitions || mv.to in s.meta.partitions[mv.key].replicas || !accepted then s
    else
      var t := After(s, Reassign(mv.key, s.meta.partitions[mv.key].replicas + [mv.to]));
      t.(moves := t.moves[mv.key := MoveState(mv, Expand, now)])
  }

  function Finish(s: Ctl, k: PartitionKey): Ctl {
    s.(moves := s.moves - {k})
  }

  function OtherInSync(isr: seq<Node>, from: Node): Option<Node> {
    if isr == [] then None else if isr[0] != from then Some(isr[0]) else OtherInSync(isr[1..], from)
  }

  /** What a pass finds of a move: still copying, too late, or caught up. */
  function NoticeMove(s: Ctl, k: PartitionKey, now: int, timeout: int): Ctl {
    if k !in s.moves then s
    else if k !in s.meta.partitions then Finish(s, k)
    else
      var st := s.moves[k];
      if st.phase == Shrink then s
      else if st.move.to in s.meta.partitions[k].isr then s.(moves := s.moves[k := st.(phase := Shrink)])
      else if now - st.started > timeout then Finish(s, k)
      else s
  }

  /** The command that takes the source out of the set. */
  function RemoveMove(s: Ctl, k: PartitionKey): Ctl {
    if k !in s.moves || k !in s.meta.partitions then s
    else Finish(After(s, Reassign(k, Without(s.meta.partitions[k].replicas, s.moves[k].move.from))), k)
  }

  function Step(s: Ctl, e: Event): Ctl {
    match e
    case Outside(c) => After(s, c)
    case Elect(k, n, epoch) => After(s, AssignLeader(k, n, epoch, None))
    case Begin(mv, now, accepted) => BeginMove(s, mv, now, accepted)
    case Notice(k, now, timeout) => NoticeMove(s, k, now, timeout)
    case Remove(k) => RemoveMove(s, k)
    case Abandon(k) => Finish(s, k)
    case Lose => s.(moves := map[])
  }

  /** One pass over one move with nothing in between: leadership off the source first, then the source out
      of the set. `elected` and `shrunk` say whether the two commands are applied. */
  function AdvanceMove(s: Ctl, k: PartitionKey, now: int, timeout: int, elected: bool, shrunk: bool): Ctl {
    var t := NoticeMove(s, k, now, timeout);
    if k !in t.moves || k !in t.meta.partitions || t.moves[k].phase == Expand then t
    else ShrinkMove(t, k, t.moves[k].move.from, elected, shrunk)
  }

  function ShrinkMove(s: Ctl, k: PartitionKey, from: Node, elected: bool, shrunk: bool): Ctl
    requires k in s.meta.partitions
  {
    var a := s.meta.partitions[k];
    var next := OtherInSync(a.isr, from);
    if a.leader == from && (next.None? || !elected) then s
    else
      var t := if a.leader == from then After(s, AssignLeader(k, next.value, a.epoch + 1, None)) else s;
      Finish(if shrunk then After(t, Reassign(k, Without(a.replicas, from))) else t, k)
  }

  // --- every step is safe ------------------------------------------------

  /** An assignment is safe to replace when the new one is as safe. */
  lemma OneChanged(s: Ctl, k: PartitionKey, b: Assignment, version: nat, moves: map<PartitionKey, MoveState>)
    requires Safe(s) && k in s.meta.partitions && PartOk(b, s.created[k] + Extra(moves, k))
    requires moves.Keys <= s.meta.partitions.Keys && forall j :: j != k ==> Extra(moves, j) <= Extra(s.moves, j)
    ensures Safe(Ctl(s.meta.(partitions := s.meta.partitions[k := b], version := version), moves,
                     NewSizes(s.created, s.meta.partitions[k := b])))
  {
    hide DistinctNodes;
  }

  lemma SafeAt(s: Ctl, k: PartitionKey)
    requires Safe(s) && k in s.meta.partitions
    ensures k in s.created && PartOk(s.meta.partitions[k], s.created[k] + Extra(s.moves, k))
    ensures s.moves.Keys <= s.meta.partitions.Keys
  {
  }

  lemma PartFacts(a: Assignment, least: nat)
    requires PartOk(a, least)
    ensures DistinctNodes(a.replicas) && DistinctNodes(a.isr) && (forall n :: n in a.isr ==> n in a.replicas)
    ensures (a.leader == "" || a.leader in a.replicas) && |a.replicas| >= least
  {
  }

  lemma LedBy(a: Assignment, n: Node, epoch: nat, version: nat, least: nat)
    requires PartOk(a, least) && (n == "" || n in a.replicas)
    ensures PartOk(a.(leader := n, epoch := epoch, version := version), least)
  {
  }

  lemma {:induction false} WithoutKeepsDistinct(s: seq<Node>, n: Node)
    requires DistinctNodes(s)
    ensures DistinctNodes(Without(s, n)) && |Without(s, n)| >= |s| - 1
  {
    if n in s { WithoutOne(s, n); } else { WithoutNone(s, n); }
  }

  lemma ShrunkIsrOk(a: Assignment, n: Node, least: nat)
    requires PartOk(a, least)
    ensures PartOk(ShrinkOne(a, n), least)
  {
    hide DistinctNodes;
    WithoutKeepsDistinct(a.isr, n);
  }

  lemma {:induction false} CleanedIsr(report: seq<Node>, replicas: seq<Node>, acc: seq<Node>)
    requires DistinctNodes(acc) && forall n :: n in acc ==> n in replicas
    ensures var r := CleanISR(report, replicas, acc);
      r.Some? ==> DistinctNodes(r.value) && forall n :: n in r.value ==> n in replicas
    decreases |report|
  {
    if report != [] {
      if report[0] in acc {
        CleanedIsr(report[1..], replicas, acc);
      } else if report[0] in replicas {
        CleanedIsr(report[1..], replicas, acc + [report[0]]);
      }
    }
  }

  lemma {:induction false} OnlyDistinct(s: seq<Node>, allowed: seq<Node>)
    requires DistinctNodes(s)
    ensures DistinctNodes(Only(s, allowed))
    decreases |s|
  {
    if s != [] {
      OnlyDistinct(s[1..], allowed);
      assert s[0] !in s[1..];
    }
  }

  lemma ReassignOk(a: Assignment, replicas: seq<Node>, version: nat, least: nat)
    requires DistinctNodes(a.isr) && DistinctNodes(replicas) && (a.leader == "" || a.leader in replicas)
    requires |replicas| >= least
    ensures PartOk(a.(replicas := replicas, isr := Only(a.isr, replicas), version := version), least)
  {
    OnlyDistinct(a.isr, replicas);
  }

  lemma ReportOk(a: Assignment, isr: seq<Node>, version: nat, least: nat)
    requires PartOk(a, least) && DistinctNodes(isr) && forall n :: n in isr ==> n in a.replicas
    ensures PartOk(a.(isr := WithLeader(isr, a.leader), version := version), least)
  {
  }

  lemma EveryIsrShrunk(s: Ctl, n: Node)
    requires Safe(s)
    ensures forall k :: k in s.meta.partitions ==>
      k in s.created && PartOk(ShrinkOne(s.meta.partitions[k], n), s.created[k] + Extra(s.moves, k))
  {
    hide PartOk, ShrinkOne;
    forall k | k in s.meta.partitions
      ensures k in s.created && PartOk(ShrinkOne(s.meta.partitions[k], n), s.created[k] + Extra(s.moves, k))
    {
      ShrunkIsrOk(s.meta.partitions[k], n, s.created[k] + Extra(s.moves, k));
    }
  }

  lemma CreateSafe(s: Ctl, c: Command)
    requires Safe(s) && Allowed(s, Outside(c)) && c.CreateTopic?
    ensures Safe(After(s, c))
  {
    hide DistinctNodes, PartOk, NewAssignment, Safe;
    ApplyKeepsValidCtl(s, c);
    if c.name in s.meta.topics || c.topic.partitions != |c.placements| {
      Unchanged(s);
    } else {
      var ps := NewPartitions(c.name, c.placements);
      forall k | k in ps ensures PartOk(ps[k], |ps[k].replicas|) { FreshOk(c.name, c.placements, k); }
      FreshKeys(s, c.name, c.placements);
      Grown(s, After(s, c), ps);
    }
  }

  lemma ApplyKeepsValidCtl(s: Ctl, c: Command)
    requires Safe(s)
    ensures Apply(s.meta, c).meta.Valid()
  {
    hide PartOk;
    ApplyKeepsValid(s.meta, c);
  }

  lemma FreshOk(name: string, placements: seq<seq<Node>>, k: PartitionKey)
    requires k in NewPartitions(name, placements)
    requires forall i :: 0 <= i < |placements| ==> DistinctNodes(placements[i])
    ensures var a := NewPartitions(name, placements)[k]; PartOk(a, |a.replicas|)
  {
    hide DistinctNodes;
  }

  lemma FreshKeys(s: Ctl, name: string, placements: seq<seq<Node>>)
    requires Safe(s) && name !in s.meta.topics
    ensures NewPartitions(name, placements).Keys !! s.meta.partitions.Keys
  {
    hide PartOk;
    forall k | k in NewPartitions(name, placements) ensures k !in s.meta.partitions { assert k.topic == name; }
  }

  /** New partitions beside the old ones. */
  lemma Grown(s: Ctl, t: Ctl, ps: map<PartitionKey, Assignment>)
    requires Safe(s) && ps.Keys !! s.meta.partitions.Keys && t.meta.Valid() && t.moves == s.moves
    requires t.meta.partitions == s.meta.partitions + ps && t.created == NewSizes(s.created, t.meta.partitions)
    requires forall k :: k in ps ==> PartOk(ps[k], |ps[k].replicas|)
    ensures Safe(t)
  {
    hide PartOk;
  }

  lemma ReportSafe(s: Ctl, c: Command)
    requires Safe(s) && c.UpdateISR?
    ensures Safe(After(s, c))
  {
    hide DistinctNodes, CleanISR, PartOk, WithLeader, Safe, NewSizes;
    var k := c.key;
    if k !in s.meta.partitions {
      Unchanged(s);
    } else {
      SafeAt(s, k);
      var a := s.meta.partitions[k];
      var clean := CleanISR(c.isr, a.replicas, []);
      NoneDistinct();
      CleanedIsr(c.isr, a.replicas, []);
      if c.epoch == a.epoch && clean.Some? {
        ReportOk(a, clean.value, a.version + 1, s.created[k] + Extra(s.moves, k));
        var b := a.(isr := WithLeader(clean.value, a.leader), version := a.version + 1);
        OneChanged(s, k, b, s.meta.version + 1, s.moves);
      } else {
        Unchanged(s);
      }
    }
  }

  lemma NoneDistinct()
    ensures DistinctNodes([])
  {
  }

  lemma Unchanged(s: Ctl)
    requires Safe(s)
    ensures s == s.(created := NewSizes(s.created, s.meta.partitions))
  {
    hide PartOk;
    assert NewSizes(s.created, s.meta.partitions) == s.created;
  }

  lemma BrokersSafe(s: Ctl, c: Command)
    requires Safe(s) && (c.RegisterBroker? || c.UnregisterBroker? || c.FenceBroker?)
    ensures Safe(After(s, c))
  {
    hide PartOk, ShrinkOne, Safe, NewSizes;
    ApplyKeepsValidCtl(s, c);
    if c.RegisterBroker? {
      SameParts(s, After(s, c));
    } else if After(s, c).meta.partitions == s.meta.partitions {
      SameParts(s, After(s, c));
    } else {
      EveryIsrShrunk(s, c.id);
      ShrunkParts(s, After(s, c), c.id);
    }
  }

  lemma SameParts(s: Ctl, t: Ctl)
    requires Safe(s) && t.meta.Valid() && t.moves == s.moves
    requires t.meta.partitions == s.meta.partitions && t.created == NewSizes(s.created, t.meta.partitions)
    ensures Safe(t)
  {
    hide PartOk;
  }

  lemma ShrunkParts(s: Ctl, t: Ctl, n: Node)
    requires Safe(s) && t.meta.Valid() && t.moves == s.moves
    requires t.meta.partitions == ShrinkISR(s.meta.partitions, n) && t.created == NewSizes(s.created, t.meta.partitions)
    requires forall k :: k in s.meta.partitions ==>
      k in s.created && PartOk(ShrinkOne(s.meta.partitions[k], n), s.created[k] + Extra(s.moves, k))
    ensures Safe(t)
  {
    hide PartOk, ShrinkOne;
  }

  lemma ElectSafe(s: Ctl, k: PartitionKey, n: Node, epoch: nat)
    requires Safe(s) && Allowed(s, Elect(k, n, epoch))
    ensures Safe(After(s, AssignLeader(k, n, epoch, None)))
  {
    hide PartOk, Safe, NewSizes;
    if k in s.meta.partitions && epoch > s.meta.partitions[k].epoch {
      SafeAt(s, k);
      var a := s.meta.partitions[k];
      LedBy(a, n, epoch, a.version + 1, s.created[k] + Extra(s.moves, k));
      OneChanged(s, k, a.(leader := n, epoch := epoch, version := a.version + 1), s.meta.version + 1, s.moves);
    } else {
      Unchanged(s);
    }
  }

  lemma BeginSafe(s: Ctl, mv: Move, now: int, accepted: bool)
    requires Safe(s)
    ensures Safe(BeginMove(s, mv, now, accepted))
  {
    hide DistinctNodes, Only, PartOk, Safe, NewSizes;
    var k := mv.key;
    if k in s.meta.partitions && mv.to !in s.meta.partitions[k].replicas && accepted {
      SafeAt(s, k);
      var a := s.meta.partitions[k];
      PartFacts(a, s.created[k] + Extra(s.moves, k));
      var wider := a.replicas + [mv.to];
      OneMoreNode(a.replicas, mv.to);
      ReassignOk(a, wider, a.version + 1, s.created[k] + 1);
      OneChanged(s, k, a.(replicas := wider, isr := Only(a.isr, wider), version := a.version + 1), s.meta.version + 1,
                 s.moves[k := MoveState(mv, Expand, now)]);
    }
  }

  lemma OneMoreNode(s: seq<Node>, n: Node)
    requires DistinctNodes(s) && n !in s
    ensures DistinctNodes(s + [n])
  {
  }

  lemma FinishSafe(s: Ctl, k: PartitionKey)
    requires Safe(s)
    ensures Safe(Finish(s, k))
  {
    hide DistinctNodes;
  }

  lemma {:induction false} OtherIsInSync(isr: seq<Node>, from: Node)
    ensures var n := OtherInSync(isr, from); n.Some? ==> n.value in isr && n.value != from
    decreases |isr|
  {
    if isr != [] { OtherIsInSync(isr[1..], from); }
  }

  /** Removing the source of a move in flight, once it does not lead. */
  lemma RemoveSafe(s: Ctl, k: PartitionKey, from: Node)
    requires Safe(s) && k in s.meta.partitions && k in s.moves
    requires s.meta.partitions[k].leader == "" || s.meta.partitions[k].leader != from
    ensures Safe(Finish(After(s, Reassign(k, Without(s.meta.partitions[k].replicas, from))), k))
  {
    hide DistinctNodes, Only, Without, PartOk, Safe, NewSizes;
    SafeAt(s, k);
    var a := s.meta.partitions[k];
    PartFacts(a, s.created[k] + Extra(s.moves, k));
    var fewer := Without(a.replicas, from);
    WithoutKeepsDistinct(a.replicas, from);
    LeaderStays(a, from);
    ReassignOk(a, fewer, a.version + 1, s.created[k]);
    var b := a.(replicas := fewer, isr := Only(a.isr, fewer), version := a.version + 1);
    OneChanged(s, k, b, s.meta.version + 1, s.moves - {k});
  }

  lemma LeaderStays(a: Assignment, from: Node)
    requires a.leader == "" || (a.leader in a.replicas && a.leader != from)
    ensures a.leader == "" || a.leader in Without(a.replicas, from)
  {
  }

  lemma InSyncIsReplica(a: Assignment, least: nat)
    requires PartOk(a, least)
    ensures forall n :: n in a.isr ==> n in a.replicas
  {
  }

  lemma NoticeSafe(s: Ctl, k: PartitionKey, now: int, timeout: int)
    requires Safe(s)
    ensures Safe(NoticeMove(s, k, now, timeout))
  {
    FinishSafe(s, k);
    if k in s.moves { RenotedSafe(s, k, s.moves[k].(phase := Shrink)); }
  }

  lemma RenotedSafe(s: Ctl, k: PartitionKey, st: MoveState)
    requires Safe(s) && k in s.moves
    ensures Safe(s.(moves := s.moves[k := st]))
  {
    hide PartOk;
  }

  lemma RemoveMoveSafe(s: Ctl, k: PartitionKey)
    requires Safe(s) && Allowed(s, Remove(k))
    ensures Safe(RemoveMove(s, k))
  {
    hide Safe;
    if k in s.moves && k in s.meta.partitions { RemoveSafe(s, k, s.moves[k].move.from); }
  }

  lemma StepSafe(s: Ctl, e: Event)
    requires Safe(s) && Allowed(s, e)
    ensures Safe(Step(s, e))
  {
    hide Safe, After, BeginMove, NoticeMove, RemoveMove, Finish;
    match e
    case Outside(c) =>
      if c.CreateTopic? { CreateSafe(s, c); } else if c.UpdateISR? { ReportSafe(s, c); } else { BrokersSafe(s, c); }
    case Elect(k, n, epoch) => ElectSafe(s, k, n, epoch);
    case Begin(mv, now, accepted) => BeginSafe(s, mv, now, accepted);
    case Notice(k, now, timeout) => NoticeSafe(s, k, now, timeout);
    case Remove(k) => RemoveMoveSafe(s, k);
    case Abandon(k) => FinishSafe(s, k);
    case Lose => LoseSafe(s);
  }

  lemma LoseSafe(s: Ctl)
    requires Safe(s)
    ensures Safe(s.(moves := map[]))
  {
    hide DistinctNodes;
  }

  function Run(s: Ctl, es: seq<Event>): Ctl {
    if es == [] then s else Step(Run(s, es[..|es| - 1]), es[|es| - 1])
  }

  ghost predicate AllowedRun(s: Ctl, es: seq<Event>) {
    es == [] || (AllowedRun(s, es[..|es| - 1]) && Allowed(Run(s, es[..|es| - 1]), es[|es| - 1]))
  }

  /** Move safety: no interleaving of fencing, ISR reports, elections, moves and lost leaderships leaves a
      partition with a repeated or foreign ISR member, a leader outside its replicas, or fewer replicas than
      it was created with. */
  lemma {:induction false} RunSafe(s: Ctl, es: seq<Event>)
    requires Safe(s) && AllowedRun(s, es)
    ensures Safe(Run(s, es))
    decreases |es|
  {
    hide Safe, Step, Allowed;
    if es != [] {
      RunSafe(s, es[..|es| - 1]);
      StepSafe(Run(s, es[..|es| - 1]), es[|es| - 1]);
    }
  }

  const NOTHING := Ctl(NO_META, map[], map[])

  lemma StartsSafe()
    ensures Safe(NOTHING)
  {
  }

  // --- a destination that never catches up -------------------------------

  /** Replica n of k is out of sync and does not lead, and a move of k in flight waits for it. */
  ghost predicate Stuck(s: Ctl, k: PartitionKey, n: Node) {
    && k in s.meta.partitions && k.topic in s.meta.topics
    && n in s.meta.partitions[k].replicas && n !in s.meta.partitions[k].isr && s.meta.partitions[k].leader != n
    && (k in s.moves ==> s.moves[k].move.to == n && s.moves[k].phase == Expand)
  }

  /** No ISR report of k names n, no election makes it the leader, and no further move of k begins. */
  predicate Leaves(e: Event, k: PartitionKey, n: Node) {
    match e
    case Outside(c) => c.UpdateISR? && c.key == k ==> n !in c.isr
    case Elect(j, x, _) => j == k ==> x != n
    case Begin(mv, _, _) => mv.key != k
    case _ => true
  }

  lemma StuckStep(s: Ctl, e: Event, k: PartitionKey, n: Node)
    requires Stuck(s, k, n) && Allowed(s, e) && Leaves(e, k, n)
    ensures Stuck(Step(s, e), k, n)
    ensures Step(s, e).meta.partitions[k].replicas == s.meta.partitions[k].replicas
  {
    hide NewSizes, Without, Only, CleanISR;
    match e
    case Outside(c) => StuckOutside(s, c, k, n);
    case _ =>
  }

  lemma StuckOutside(s: Ctl, c: Command, k: PartitionKey, n: Node)
    requires Stuck(s, k, n) && Allowed(s, Outside(c)) && Leaves(Outside(c), k, n)
    ensures Stuck(After(s, c), k, n)
    ensures After(s, c).meta.partitions[k].replicas == s.meta.partitions[k].replicas
  {
    hide NewSizes, Only, CleanISR;
    if c.UpdateISR? && c.key == k { CleanHolds(c.isr, s.meta.partitions[k].replicas, [], n); }
  }

  /** A report that does not name n puts n into no ISR. */
  lemma {:induction false} CleanHolds(report: seq<Node>, replicas: seq<Node>, acc: seq<Node>, n: Node)
    requires n !in report && n !in acc
    ensures CleanISR(report, replicas, acc).Some? ==> n !in CleanISR(report, replicas, acc).value
    decreases |report|
  {
    if report != [] {
      CleanHolds(report[1..], replicas, if report[0] in acc then acc else acc + [report[0]], n);
    }
  }

  /** A partition with a replica out of sync is not quiet. */
  lemma StuckNotQuiet(s: Ctl, k: PartitionKey, n: Node)
    requires Safe(s) && Stuck(s, k, n)
    ensures !Quiet(s.meta.partitions)
  {
    SafeAt(s, k);
    var a := s.meta.partitions[k];
    PartFacts(a, s.created[k] + Extra(s.moves, k));
    FewerInSync(a.isr, a.replicas, n);
  }

  lemma {:induction false} FewerInSync(isr: seq<Node>, replicas: seq<Node>, n: Node)
    requires DistinctNodes(isr) && (forall x :: x in isr ==> x in replicas) && n in replicas && n !in isr
    ensures |isr| < |replicas|
    decreases |isr|
  {
    if isr != [] {
      var k := |isr| - 1;
      assert isr[k] in isr;
      var i :| 0 <= i < |replicas| && replicas[i] == isr[k];
      var rest := replicas[..i] + replicas[i + 1..];
      forall x | x in isr[..k] || x == n ensures x in rest {
        assert x in isr[..k] ==> x in isr;
        var j :| 0 <= j < |replicas| && replicas[j] == x;
        assert x == if j < i then rest[j] else rest[j - 1];
      }
      FewerInSync(isr[..k], rest, n);
    }
  }

  ghost predicate AllLeave(es: seq<Event>, k: PartitionKey, n: Node) {
    forall i :: 0 <= i < |es| ==> Leaves(es[i], k, n)
  }

  /** A destination that no ISR report names holds up every further move: over every run the partition keeps all the
      replicas it has, the move's source among them, whether or not the move is given up, and the cluster is never
      quiet again, so nothing more is planned. */
  lemma {:induction false} NeverQuietAgain(s: Ctl, es: seq<Event>, k: PartitionKey, n: Node)
    requires Safe(s) && Stuck(s, k, n) && AllowedRun(s, es) && AllLeave(es, k, n)
    ensures Stuck(Run(s, es), k, n) && !Quiet(Run(s, es).meta.partitions)
    ensures Run(s, es).meta.partitions[k].replicas == s.meta.partitions[k].replicas
    decreases |es|
  {
    hide Safe, Stuck, Quiet, Step, Allowed, Leaves;
    StuckFact(s, k, n);
    if es == [] {
      StuckNotQuiet(s, k, n);
    } else {
      var i := |es| - 1;
      RunFront(s, es);
      NeverQuietAgain(s, es[..i], k, n);
      var mid := Run(s, es[..i]);
      StuckFact(mid, k, n);
      StuckStep(mid, es[i], k, n);
      StuckFact(Run(s, es), k, n);
      RunSafe(s, es);
      StuckNotQuiet(Run(s, es), k, n);
    }
  }

  lemma StuckFact(s: Ctl, k: PartitionKey, n: Node)
    requires Stuck(s, k, n)
    ensures k in s.meta.partitions
  {
  }

  /** Every move starts that way. */
  lemma BegunStuck(s: Ctl, mv: Move, now: int)
    requires Safe(s) && mv.key in s.meta.partitions && mv.key !in s.moves
    requires mv.to !in s.meta.partitions[mv.key].replicas && mv.to != ""
    ensures Stuck(BeginMove(s, mv, now, true), mv.key, mv.to)
  {
    hide PartOk, NewSizes;
    SafeAt(s, mv.key);
    PartFacts(s.meta.partitions[mv.key], s.created[mv.key] + Extra(s.moves, mv.key));
    InSyncIsReplica(s.meta.partitions[mv.key], s.created[mv.key] + Extra(s.moves, mv.key));
  }

  /** Registrations are kept under the broker's own name, which is not blank. */
  predicate Named(brokers: map<Node, Broker>) {
    forall n :: n in brokers ==> n != "" && brokers[n].id == n
  }

  lemma StepNamed(s: Ctl, e: Event)
    requires Named(s.meta.brokers) && Allowed(s, e)
    ensures Named(Step(s, e).meta.brokers)
  {
    hide CleanISR, Only, NewPartitions, ShrinkISR, NewSizes;
  }

  lemma {:induction false} RunNamed(s: Ctl, es: seq<Event>)
    requires Named(s.meta.brokers) && AllowedRun(s, es)
    ensures Named(Run(s, es).meta.brokers)
    decreases |es|
  {
    hide Step, Allowed, Named;
    if es != [] {
      var n := |es| - 1;
      RunFront(s, es);
      RunNamed(s, es[..n]);
      StepNamed(Run(s, es[..n]), es[n]);
    }
  }

  lemma RunFront(s: Ctl, es: seq<Event>)
    requires AllowedRun(s, es) && es != []
    ensures var n := |es| - 1;
      AllowedRun(s, es[..n]) && Allowed(Run(s, es[..n]), es[n]) && Run(s, es) == Step(Run(s, es[..n]), es[n])
  {
    hide Step, Allowed;
  }

  /** So every state reached from an empty cluster is safe. */
  lemma ReachedSafe(es: seq<Event>)
    requires AllowedRun(NOTHING, es)
    ensures Safe(Run(NOTHING, es)) && Named(Run(NOTHING, es).meta.brokers)
  {
    hide Safe, Step, Allowed;
    StartsSafe();
    RunSafe(NOTHING, es);
    RunNamed(NOTHING, es);
  }

  // --- when the source leaves --------------------------------------------

  /** A pass takes the source out of the set exactly when its guards say so, whatever the phase; it is off
      the leadership then and no other replica goes. The destination is in sync afterwards if and only if it
      was before, and it is not only in the last phase, which does not look at the ISR again. */
  lemma SourceLeavesIff(s: Ctl, k: PartitionKey, now: int, timeout: int, elected: bool, shrunk: bool)
    requires Safe(s) && k in s.moves
    ensures var st := s.moves[k];
      var mv := st.move;
      var a := s.meta.partitions[k];
      var b := AdvanceMove(s, k, now, timeout, elected, shrunk).meta.partitions[k];
      var leaves := mv.from in a.replicas && mv.from !in b.replicas;
      && (leaves <==> mv.from in a.replicas && shrunk && (st.phase == Shrink || mv.to in a.isr)
                      && (a.leader == mv.from ==> elected && OtherInSync(a.isr, mv.from).Some?))
      && (leaves ==> b.leader != mv.from && (mv.to in b.isr <==> mv.to in a.isr && mv.to != mv.from))
      && (leaves && mv.to !in a.isr ==> st.phase == Shrink)
      && (forall n :: n in a.replicas && n != mv.from ==> n in b.replicas)
  {
    hide DistinctNodes, Without, Only, ShrinkMove, PartOk;
    var mv := s.moves[k].move;
    SafeAt(s, k);
    InSyncIsReplica(s.meta.partitions[k], s.created[k] + Extra(s.moves, k));
    OtherIsInSync(s.meta.partitions[k].isr, mv.from);
    var t := NoticeMove(s, k, now, timeout);
    ShrunkPart(t, k, mv.from, elected, shrunk);
  }

  /** The command that removes the source, wherever in a run it is applied: the source leaves and no other replica
      does, and the destination is in sync afterwards if and only if it is when the command is applied. */
  lemma RemoveIff(s: Ctl, k: PartitionKey)
    requires Safe(s) && k in s.moves
    ensures k in Step(s, Remove(k)).meta.partitions && k !in Step(s, Remove(k)).moves
    ensures var mv, a, b := s.moves[k].move, s.meta.partitions[k], Step(s, Remove(k)).meta.partitions[k];
      && (forall n :: n in b.replicas <==> n in a.replicas && n != mv.from)
      && (mv.to in b.isr <==> mv.to in a.isr && mv.to != mv.from)
  {
    hide PartOk, Without, Only, NewSizes;
    SafeAt(s, k);
    InSyncIsReplica(s.meta.partitions[k], s.created[k] + Extra(s.moves, k));
  }

  /** An ISR report between the notice and the removal of one pass is enough: in every safe state with a move whose
      destination is in sync and whose source does not lead, a report without the destination in between drops the
      source with the destination out of sync. */
  lemma ReportBetweenDrops(s: Ctl, k: PartitionKey, now: int, timeout: int, isr: seq<Node>)
    requires Safe(s) && k in s.moves && s.moves[k].move.to in s.meta.partitions[k].isr
    requires s.meta.partitions[k].leader != s.moves[k].move.from
    requires var a := s.meta.partitions[k];
      var clean := CleanISR(isr, a.replicas, []);
      clean.Some? && s.moves[k].move.to !in WithLeader(clean.value, a.leader)
    ensures var a, mv := s.meta.partitions[k], s.moves[k].move;
      var es := [Notice(k, now, timeout), Outside(UpdateISR(k, a.epoch, isr)), Remove(k)];
      && AllowedRun(s, es) && k in Run(s, es).meta.partitions
      && mv.from !in Run(s, es).meta.partitions[k].replicas && mv.to !in Run(s, es).meta.partitions[k].isr
  {
    hide Safe, CleanISR, NewSizes, Without, Only, AllowedRun, Run, RemoveMove;
    MoveHasPart(s, k);
    var a := s.meta.partitions[k];
    var e1, e2, e3 := Notice(k, now, timeout), Outside(UpdateISR(k, a.epoch, isr)), Remove(k);
    var s1 := Step(s, e1);
    StepSafe(s, e1);
    var s2 := Step(s1, e2);
    StepSafe(s1, e2);
    RemoveIff(s2, k);
    ThreeSteps(s, e1, e2, e3);
  }

  lemma MoveHasPart(s: Ctl, k: PartitionKey)
    requires Safe(s) && k in s.moves
    ensures k in s.meta.partitions
  {
  }

  lemma ThreeSteps(s: Ctl, a: Event, b: Event, c: Event)
    requires Allowed(s, a) && Allowed(Step(s, a), b) && Allowed(Step(Step(s, a), b), c)
    ensures AllowedRun(s, [a, b, c]) && Run(s, [a, b, c]) == Step(Step(Step(s, a), b), c)
  {
    hide Step, Allowed, AllowedRun, Run;
    var none: seq<Event> := [];
    assert none + [a] == [a] && [a] + [b] == [a, b] && [a, b] + [c] == [a, b, c];
    RunNone(s);
    RunSnoc(s, none, a);
    RunSnoc(s, [a], b);
    RunSnoc(s, [a, b], c);
  }

  /** The partition after the two commands of a pass. */
  lemma ShrunkPart(s: Ctl, k: PartitionKey, from: Node, elected: bool, shrunk: bool)
    requires k in s.meta.partitions
    ensures k in ShrinkMove(s, k, from, elected, shrunk).meta.partitions
    ensures var a := s.meta.partitions[k];
      var b := ShrinkMove(s, k, from, elected, shrunk).meta.partitions[k];
      var next := OtherInSync(a.isr, from);
      if a.leader == from && (next.None? || !elected) then b == a
      else
        && b.leader == (if a.leader == from then next.value else a.leader)
        && (if shrunk then b.replicas == Without(a.replicas, from) && b.isr == Only(a.isr, b.replicas)
            else b.replicas == a.replicas && b.isr == a.isr)
  {
    hide Without, Only;
  }

  /** A pass ends a move exactly when its destination is still out of sync more than the timeout after the start, and
      then leaves the partition as it is, or when the source could be vacated; otherwise the move goes on, begun when
      it was. */
  lemma MoveEndsIff(s: Ctl, k: PartitionKey, now: int, timeout: int, elected: bool, shrunk: bool)
    requires Safe(s) && k in s.moves
    ensures var st, a := s.moves[k], s.meta.partitions[k];
      var z := AdvanceMove(s, k, now, timeout, elected, shrunk);
      var waits := st.phase == Expand && st.move.to !in a.isr;
      && (k !in z.moves <==>
            if waits then now > st.started + timeout
            else a.leader == st.move.from ==> elected && exists x :: x in a.isr && x != st.move.from)
      && (waits ==> z.meta == s.meta)
      && (k in z.moves ==> z.moves[k] == st.(phase := if waits then Expand else Shrink))
  {
    hide Without, Only, NewSizes;
    SafeAt(s, k);
    OtherIffSome(s.meta.partitions[k].isr, s.moves[k].move.from);
  }

  lemma {:induction false} OtherIffSome(isr: seq<Node>, from: Node)
    ensures OtherInSync(isr, from).Some? <==> exists x :: x in isr && x != from
    ensures OtherInSync(isr, from).Some? ==> exists i :: 0 <= i < |isr| && FirstOther(isr, from, i)
    decreases |isr|
  {
    if isr != [] {
      assert forall x :: x in isr <==> x == isr[0] || x in isr[1..];
      OtherIffSome(isr[1..], from);
      if isr[0] != from {
        assert isr[0] in isr && FirstOther(isr, from, 0);
      } else if OtherInSync(isr, from).Some? {
        var x :| x in isr[1..] && x != from;
        assert x in isr;
        var i :| 0 <= i < |isr| - 1 && FirstOther(isr[1..], from, i);
        forall j | 0 <= j < i + 1 ensures isr[j] == from { assert j > 0 ==> isr[j] == isr[1..][j - 1]; }
        assert FirstOther(isr, from, i + 1);
      }
    }
  }

  /** The in-sync node at i is the first other than `from`, and the one chosen. */
  predicate FirstOther(isr: seq<Node>, from: Node, i: nat)
    requires i < |isr|
  {
    OtherInSync(isr, from) == Some(isr[i]) && isr[i] != from && forall j :: 0 <= j < i ==> isr[j] == from
  }

  // --- passes over several moves do not meet -----------------------------

  /** What a state says of partition k. */
  ghost function Of(s: Ctl, k: PartitionKey): (Option<Assignment>, Option<MoveState>) {
    var ps := s.meta.partitions;
    (if k in ps then Some(ps[k]) else None, if k in s.moves then Some(s.moves[k]) else None)
  }

  lemma NoticeLocal(s: Ctl, t: Ctl, k: PartitionKey, now: int, timeout: int)
    requires Of(s, k) == Of(t, k)
    ensures Of(NoticeMove(s, k, now, timeout), k) == Of(NoticeMove(t, k, now, timeout), k)
    ensures forall j :: j != k ==> Of(NoticeMove(s, k, now, timeout), j) == Of(s, j)
  {
    assert k in s.moves <==> k in t.moves;
    assert k in s.meta.partitions <==> k in t.meta.partitions;
  }

  lemma ShrinkLocal(s: Ctl, t: Ctl, k: PartitionKey, from: Node, elected: bool, shrunk: bool)
    requires k in s.meta.partitions && k in t.meta.partitions && Of(s, k) == Of(t, k)
    ensures Of(ShrinkMove(s, k, from, elected, shrunk), k) == Of(ShrinkMove(t, k, from, elected, shrunk), k)
    ensures forall j :: j != k ==> Of(ShrinkMove(s, k, from, elected, shrunk), j) == Of(s, j)
  {
    hide Without, Only, NewSizes;
  }

  /** A pass over the move of k depends on k alone and changes nothing else. */
  lemma AdvanceLocal(s: Ctl, t: Ctl, k: PartitionKey, now: int, timeout: int, elected: bool, shrunk: bool)
    requires Of(s, k) == Of(t, k)
    ensures var f := (x: Ctl) => AdvanceMove(x, k, now, timeout, elected, shrunk);
      Of(f(s), k) == Of(f(t), k) && forall j :: j != k ==> Of(f(s), j) == Of(s, j)
  {
    hide NoticeMove, ShrinkMove;
    NoticeLocal(s, t, k, now, timeout);
    var s1, t1 := NoticeMove(s, k, now, timeout), NoticeMove(t, k, now, timeout);
    assert Of(s1, k) == Of(t1, k);
    if k in s1.moves && k in s1.meta.partitions {
      ShrinkLocal(s1, t1, k, s1.moves[k].move.from, elected, shrunk);
    }
  }

  /** t is s with the moves outside todo advanced once. */
  ghost predicate AdvancedBut(s: Ctl, t: Ctl, todo: set<PartitionKey>, now: int, timeout: int,
                              elected: PartitionKey -> bool, shrunk: PartitionKey -> bool) {
    forall k :: Of(t, k) ==
      if k in s.moves && k !in todo then Of(AdvanceMove(s, k, now, timeout, elected(k), shrunk(k)), k) else Of(s, k)
  }

  lemma AdvancedNone(s: Ctl, now: int, timeout: int, elected: PartitionKey -> bool, shrunk: PartitionKey -> bool)
    ensures AdvancedBut(s, s, s.moves.Keys, now, timeout, elected, shrunk)
  {
  }

  lemma AdvancedOne(s: Ctl, t: Ctl, todo: set<PartitionKey>, k: PartitionKey, now: int, timeout: int,
                    elected: PartitionKey -> bool, shrunk: PartitionKey -> bool)
    requires AdvancedBut(s, t, todo, now, timeout, elected, shrunk) && k in todo && k in s.moves
    ensures k in t.moves
    ensures AdvancedBut(s, AdvanceMove(t, k, now, timeout, elected(k), shrunk(k)), todo - {k}, now, timeout, elected,
                        shrunk)
  {
    hide AdvanceMove;
    assert Of(t, k) == Of(s, k);
    AdvanceLocal(t, s, k, now, timeout, elected(k), shrunk(k));
  }

  /** The commands of one pass over one move, as they reach the log. */
  function AdvanceEvents(s: Ctl, k: PartitionKey, now: int, timeout: int, elected: bool, shrunk: bool): seq<Event> {
    var t := NoticeMove(s, k, now, timeout);
    var first := [Notice(k, now, timeout)];
    if k !in t.moves || k !in t.meta.partitions || t.moves[k].phase == Expand then first
    else first + ShrinkEvents(t, k, elected, shrunk)
  }

  function ShrinkEvents(s: Ctl, k: PartitionKey, elected: bool, shrunk: bool): seq<Event>
    requires k in s.moves && k in s.meta.partitions
  {
    var a, from := s.meta.partitions[k], s.moves[k].move.from;
    var next := OtherInSync(a.isr, from);
    var last := if shrunk then Remove(k) else Abandon(k);
    if a.leader != from then [last]
    else if next.None? || !elected then []
    else [Elect(k, next.value, a.epoch + 1), last]
  }

  lemma ShrinkIsRun(s: Ctl, k: PartitionKey, elected: bool, shrunk: bool)
    requires Safe(s) && k in s.moves && k in s.meta.partitions && s.moves[k].phase == Shrink
    ensures var es := ShrinkEvents(s, k, elected, shrunk);
      AllowedRun(s, es) && Run(s, es) == ShrinkMove(s, k, s.moves[k].move.from, elected, shrunk)
  {
    hide Safe, Without, Only, Run, AllowedRun;
    var a, from := s.meta.partitions[k], s.moves[k].move.from;
    var next := OtherInSync(a.isr, from);
    var last := if shrunk then Remove(k) else Abandon(k);
    RunNone(s);
    if a.leader != from {
      RunOne(s, last);
    } else if next.Some? && elected {
      var e := Elect(k, next.value, a.epoch + 1);
      OtherIsInSync(a.isr, from);
      ReplicaFact(s, k);
      RunOne(s, e);
      RunSnoc(s, [e], last);
      assert [e] + [last] == [e, last];
    }
  }

  lemma RunOne(s: Ctl, e: Event)
    requires Allowed(s, e)
    ensures AllowedRun(s, [e]) && Run(s, [e]) == Step(s, e)
  {
    hide Step, Allowed;
    assert [e][..0] == [];
  }

  /** A pass is those commands with nothing in between; in a run anything allowed may come in between. */
  lemma AdvanceIsRun(s: Ctl, k: PartitionKey, now: int, timeout: int, elected: bool, shrunk: bool)
    requires Safe(s)
    ensures var es := AdvanceEvents(s, k, now, timeout, elected, shrunk);
      AllowedRun(s, es) && Run(s, es) == AdvanceMove(s, k, now, timeout, elected, shrunk)
  {
    hide Safe, NoticeMove, Run, AllowedRun, ShrinkEvents, ShrinkMove;
    var t := NoticeMove(s, k, now, timeout);
    RunOne(s, Notice(k, now, timeout));
    NoticeSafe(s, k, now, timeout);
    if k in t.moves && k in t.meta.partitions && t.moves[k].phase == Shrink {
      ShrinkIsRun(t, k, elected, shrunk);
      RunConcat(s, [Notice(k, now, timeout)], ShrinkEvents(t, k, elected, shrunk));
    }
  }

  lemma ReplicaFact(s: Ctl, k: PartitionKey)
    requires Safe(s) && k in s.meta.partitions
    ensures forall n :: n in s.meta.partitions[k].isr ==> n in s.meta.partitions[k].replicas
  {
    hide DistinctNodes;
  }

  // --- the controller ----------------------------------------------------

  lemma RunSnoc(s: Ctl, es: seq<Event>, e: Event)
    requires AllowedRun(s, es) && Allowed(Run(s, es), e)
    ensures AllowedRun(s, es + [e]) && Run(s, es + [e]) == Step(Run(s, es), e)
  {
    hide Step, Allowed;
    assert (es + [e])[..|es|] == es;
  }

  lemma {:induction false} RunConcat(s: Ctl, a: seq<Event>, b: seq<Event>)
    requires AllowedRun(s, a) && AllowedRun(Run(s, a), b)
    ensures AllowedRun(s, a + b) && Run(s, a + b) == Run(Run(s, a), b)
    decreases |b|
  {
    hide Step, Allowed;
    if b == [] {
      assert a + b == a;
    } else {
      var n := |b| - 1;
      RunConcat(s, a, b[..n]);
      RunSnoc(s, a + b[..n], b[n]);
      assert a + b == (a + b[..n]) + [b[n]];
    }
  }

  /** A pass over one move starts no other. */
  lemma AdvanceKeys(s: Ctl, k: PartitionKey, now: int, timeout: int, elected: bool, shrunk: bool)
    ensures AdvanceMove(s, k, now, timeout, elected, shrunk).moves.Keys <= s.moves.Keys
  {
    hide Apply;
  }

  lemma RunNone(s: Ctl)
    ensures AllowedRun(s, []) && Run(s, []) == s
  {
  }

  /** Whoever is elected holds the partition. */
  lemma ElectedHolds(s: Ctl, k: PartitionKey, live: set<Node>, preferred: bool, unclean: bool)
    requires Safe(s) && k in s.meta.partitions
    ensures var a := s.meta.partitions[k]; var n := ElectLeader(a, live, preferred, unclean); n == "" || n in a.replicas
  {
    hide Safe, PartOk;
    SafeAt(s, k);
    PartFacts(s.meta.partitions[k], s.created[k] + Extra(s.moves, k));
  }

  class Controller {
    const meta: MetadataStore
    const preferred: bool
    const unclean: bool
    const rebalance: bool
    const maxMoves: nat
    const tolerance: nat
    const moveTimeout: int
    var moves: map<PartitionKey, MoveState>
    ghost var created: map<PartitionKey, nat>

    ghost function State(): Ctl
      reads this, meta
    {
      Ctl(meta.State(), moves, created)
    }

    constructor (meta: MetadataStore, preferred: bool, unclean: bool, rebalance: bool, maxMoves: int, tolerance: int,
                 moveTimeout: int, ghost created: map<PartitionKey, nat>)
      ensures this.meta == meta && moves == map[] && this.created == created
      ensures this.maxMoves == (if maxMoves <= 0 then 4 else maxMoves)
      ensures this.tolerance == (if tolerance <= 0 then 1 else tolerance)
    {
      this.tolerance := if tolerance <= 0 then 1 else tolerance;
      this.meta, this.preferred, this.unclean, this.rebalance := meta, preferred, unclean, rebalance;
      this.maxMoves := if maxMoves <= 0 then 4 else maxMoves;
      this.moveTimeout := if moveTimeout <= 0 then 1_800_000_000_000 else moveTimeout;
      moves := map[];
      this.created := created;
    }

    method StartMove(mv: Move, now: int, accepted: bool)
      modifies this`moves, this`created, meta
      ensures State() == BeginMove(old(State()), mv, now, accepted)
    {
      hide Apply;
      if mv.key !in meta.partitions { return; }
      var a := meta.partitions[mv.key];
      if mv.to in a.replicas { return; }
      if !accepted { return; }
      var ok := meta.ApplyReassign(mv.key, a.replicas + [mv.to]);
      created := NewSizes(created, meta.partitions);
      moves := moves[mv.key := MoveState(mv, Expand, now)];
    }

    method AdvanceOne(k: PartitionKey, now: int, elected: bool, shrunk: bool)
      requires k in moves
      modifies this`moves, this`created, meta
      ensures State() == AdvanceMove(old(State()), k, now, moveTimeout, elected, shrunk)
    {
      hide ShrinkMove;
      var st := moves[k];
      if k !in meta.partitions {
        moves := moves - {k};
        return;
      }
      var a := meta.partitions[k];
      if st.phase == Expand {
        if st.move.to !in a.isr {
          if now - st.started > moveTimeout { moves := moves - {k}; }
          return;
        }
        moves := moves[k := st.(phase := Shrink)];
      }
      assert State() == NoticeMove(old(State()), k, now, moveTimeout);
      RemoveSource(k, st.move.from, elected, shrunk);
    }

    method RemoveSource(k: PartitionKey, from: Node, elected: bool, shrunk: bool)
      requires k in meta.partitions
      modifies this`moves, this`created, meta
      ensures State() == ShrinkMove(old(State()), k, from, elected, shrunk)
    {
      hide Without, Only;
      var a := meta.partitions[k];
      if a.leader == from {
        var next := OtherInSync(a.isr, from);
        if next.None? { return; }
        if !elected { return; }
        var ok := meta.ApplyAssignLeader(k, next.value, a.epoch + 1, None);
        created := NewSizes(created, meta.partitions);
        a := meta.partitions[k];
      }
      if shrunk {
        var ok := meta.ApplyReassign(k, Without(a.replicas, from));
        created := NewSizes(created, meta.partitions);
      }
      moves := moves - {k};
    }

    /** Drives every move in flight one step, in any order. */
    method AdvanceMoves(now: int, elected: PartitionKey -> bool, shrunk: PartitionKey -> bool)
      returns (ghost es: seq<Event>)
      requires Safe(State())
      modifies this`moves, this`created, meta
      ensures AllowedRun(old(State()), es) && State() == Run(old(State()), es) && Safe(State())
      ensures forall k :: k in moves ==> k in old(moves)
      ensures AdvancedBut(old(State()), State(), {}, now, moveTimeout, elected, shrunk)
    {
      hide Safe, AdvanceMove, Run, AllowedRun, AdvanceEvents, AdvancedBut;
      ghost var s0 := State();
      es := [];
      RunNone(s0);
      var todo := moves.Keys;
      AdvancedNone(s0, now, moveTimeout, elected, shrunk);
      while todo != {}
        invariant AllowedRun(s0, es) && State() == Run(s0, es) && todo <= old(moves).Keys && Safe(s0)
        invariant Safe(State()) && forall k :: k in moves ==> k in old(moves)
        invariant AdvancedBut(s0, State(), todo, now, moveTimeout, elected, shrunk)
        decreases |todo|
      {
        var k :| k in todo;
        AdvancedOne(s0, State(), todo, k, now, moveTimeout, elected, shrunk);
        todo := todo - {k};
        if k in moves {
          ghost var more := AdvanceEvents(State(), k, now, moveTimeout, elected(k), shrunk(k));
          AdvanceIsRun(State(), k, now, moveTimeout, elected(k), shrunk(k));
          AdvanceKeys(State(), k, now, moveTimeout, elected(k), shrunk(k));
          RunConcat(s0, es, more);
          RunSafe(s0, es + more);
          AdvanceOne(k, now, elected(k), shrunk(k));
          es := es + more;
        }
      }
      RunSafe(s0, es);
    }

    /** Repairs one partition. */
    method RepairOne(k: PartitionKey, live: set<Node>, accepted: bool) returns (ghost es: seq<Event>)
      requires Safe(State()) && k in meta.partitions
      modifies this`created, meta
      ensures Safe(State()) && meta.partitions.Keys == old(meta.partitions).Keys
      ensures Repaired(old(meta.partitions)[k], meta.partitions[k], live, preferred, unclean, accepted)
      ensures "" !in live ==> Settles(old(meta.partitions)[k], meta.partitions[k], live, preferred, unclean, accepted)
      ensures forall j :: j in meta.partitions && j != k ==> meta.partitions[j] == old(meta.partitions)[j]
      ensures if es == [] then State() == old(State())
              else |es| == 1 && Allowed(old(State()), es[0]) && State() == Step(old(State()), es[0])
    {
      hide Safe, ElectLeader, ShouldLead;
      es := [];
      var a := meta.partitions[k];
      if "" !in live { ElectsRightly(a, live, preferred, unclean); }
      var next := ElectLeader(a, live, preferred, unclean);
      if next != a.leader && accepted {
        ghost var e := Elect(k, next, a.epoch + 1);
        ElectedHolds(State(), k, live, preferred, unclean);
        StepSafe(State(), e);
        var ok := meta.ApplyAssignLeader(k, next, a.epoch + 1, None);
        created := NewSizes(created, meta.partitions);
        es := [e];
      }
    }

    /** Elects a leader for every partition that needs another one; `accepted` says which elections are applied. */
    method RepairLeadership(accepted: PartitionKey -> bool) returns (ghost es: seq<Event>)
      requires Safe(State())
      modifies this`created, meta
      ensures AllowedRun(old(State()), es) && State() == Run(old(State()), es) && Safe(State())
      ensures var live := Live(old(meta.brokers));
        Repairing(old(meta.partitions), meta.partitions, {}, live, preferred, unclean, accepted)
      ensures Named(old(meta.brokers)) ==>
        AllSettle(old(meta.partitions), meta.partitions, old(meta.brokers), preferred, unclean, accepted)
    {
      hide Safe, Run, AllowedRun, Repaired, Repairing, Step, Allowed, Live, AllSettle, Settles, Named;
      var live := Live(meta.brokers);
      ghost var s0 := State();
      es := [];
      RunNone(s0);
      ghost var before := meta.partitions;
      var todo := meta.partitions.Keys;
      RepairNone(before, live, preferred, unclean, accepted);
      while todo != {}
        invariant AllowedRun(s0, es) && State() == Run(s0, es) && Safe(State())
        invariant Repairing(before, meta.partitions, todo, live, preferred, unclean, accepted)
        decreases |todo|
      {
        var k :| k in todo;
        RepairFacts(before, meta.partitions, todo, live, preferred, unclean, accepted, k);
        ghost var ps := meta.partitions;
        ghost var more := RepairOne(k, live, accepted(k));
        RepairStep(before, ps, meta.partitions, todo, live, preferred, unclean, accepted, k);
        if more != [] {
          RunSnoc(s0, es, more[0]);
          es := es + [more[0]];
        }
        todo := todo - {k};
      }
      if Named(old(meta.brokers)) {
        RepairedSettles(before, meta.partitions, old(meta.brokers), preferred, unclean, accepted);
      }
    }

    /** The placements the planner reads, one slot per partition. */
    method Slots() returns (slots: seq<Slot>)
      requires Safe(State())
      ensures Sound(slots) && SlotsOf(slots, meta.partitions)
    {
      hide Safe, PartOk, SlotsBut, DistinctNodes, Sound;
      slots := [];
      var todo := meta.partitions.Keys;
      NoSlots(meta.partitions);
      while todo != {}
        invariant todo <= meta.partitions.Keys && SlotsBut(slots, meta.partitions, todo)
        decreases |todo|
      {
        var k :| k in todo;
        SafeAt(State(), k);
        PartFacts(meta.partitions[k], created[k] + Extra(moves, k));
        OneMoreSlot(slots, meta.partitions, todo, k);
        slots := slots + [Slot(k, meta.partitions[k].replicas)];
        todo := todo - {k};
      }
      AllSlots(slots, meta.partitions);
    }

    /** The registered brokers, in any order. */
    method Brokers() returns (bs: seq<Broker>)
      requires Named(meta.brokers)
      ensures DistinctBrokers(bs) && BrokersOf(bs, meta.brokers)
    {
      hide BrokersBut, Named;
      bs := [];
      var todo := meta.brokers.Keys;
      NoBrokers(meta.brokers);
      while todo != {}
        invariant todo <= meta.brokers.Keys && BrokersBut(bs, meta.brokers, todo)
        decreases |todo|
      {
        var n :| n in todo;
        OneMoreBroker(bs, meta.brokers, todo, n);
        bs := bs + [meta.brokers[n]];
        todo := todo - {n};
      }
      AllBrokers(bs, meta.brokers);
    }

    /** Begins the moves of a plan in turn, skipping partitions with a move in flight, while there is room. */
    method BeginAll(plan: seq<Move>, now: int, accepted: PartitionKey -> bool) returns (ghost es: seq<Event>)
      requires Safe(State()) && |moves| <= maxMoves
      modifies this`moves, this`created, meta
      ensures AllowedRun(old(State()), es) && State() == Run(old(State()), es)
      ensures |moves| <= maxMoves && AllBegun(old(State()), State(), plan, maxMoves, now, accepted)
      ensures forall k :: k in old(moves) ==> k in moves && moves[k] == old(moves)[k]
      ensures forall k :: k in moves && k !in old(moves) ==> moves[k].move in plan
    {
      hide Safe, Run, AllowedRun, BeginMove, AllBegun;
      ghost var s0 := State();
      es := [];
      RunNone(s0);
      NoneBegun(s0, maxMoves, now, accepted);
      assert plan[..0] == [] && plan[..|plan|] == plan;
      for i := 0 to |plan|
        invariant AllowedRun(s0, es) && State() == Run(s0, es)
        invariant |moves| <= maxMoves && AllBegun(s0, State(), plan[..i], maxMoves, now, accepted)
        invariant forall k :: k in old(moves) ==> k in moves && moves[k] == old(moves)[k]
        invariant forall k :: k in moves && k !in old(moves) ==> moves[k].move in plan
      {
        var mv := plan[i];
        assert plan[..i + 1] == plan[..i] + [mv];
        if mv.key !in moves && |moves| < maxMoves {
          ghost var e := Begin(mv, now, accepted(mv.key));
          RunSnoc(s0, es, e);
          BeginMoves(State(), mv, now, accepted(mv.key));
          OneMoreBegun(s0, State(), plan[..i], mv, maxMoves, now, accepted);
          StartMove(mv, now, accepted(mv.key));
          es := es + [e];
        } else {
          SkippedMove(s0, State(), plan[..i], mv, maxMoves, now, accepted);
        }
      }
    }

    /** Starts planned moves while the cluster is quiet, one per partition and at most maxMoves in flight. */
    method PlanRebalance(now: int, accepted: PartitionKey -> bool)
      returns (ghost es: seq<Event>, ghost brokers: seq<Broker>, ghost slots: seq<Slot>, ghost plan: seq<Move>)
      requires Safe(State()) && Named(meta.brokers)
      modifies this`moves, this`created, meta
      ensures AllowedRun(old(State()), es) && State() == Run(old(State()), es) && Safe(State())
      ensures |moves| <= Max(|old(moves)|, maxMoves) && old(moves).Keys <= moves.Keys
      ensures forall k :: k in old(moves) ==> moves[k] == old(moves)[k]
      ensures forall k :: k in moves && k !in old(moves) ==> moves[k].move in plan
      ensures !rebalance || |old(moves)| >= maxMoves || !Quiet(old(meta.partitions)) ==> State() == old(State())
      ensures rebalance && |old(moves)| < maxMoves && Quiet(old(meta.partitions)) ==>
        && BrokersOf(brokers, old(meta.brokers))
        && PlanOf(slots, plan, old(meta.partitions), brokers, maxMoves, tolerance)
        && AllBegun(old(State()), State(), plan, maxMoves, now, accepted)
      ensures forall k :: k in moves && k !in old(moves) ==>
        var to := moves[k].move.to;
        to in old(meta.brokers) && !old(meta.brokers)[to].fenced && old(meta.brokers)[to].streamAddr != ""
    {
      hide Safe, Run, AllowedRun, BeginMove, Quiet, Planned, Settled, Sound, SlotsOf, Usable, Ceiling,
        BrokersOf, Named, DistinctBrokers, PlanMade, AllBegun, CanHost;
      es, brokers, slots, plan := [], [], [], [];
      RunNone(State());
      if !rebalance { return; }
      if |moves| >= maxMoves { return; }
      if !Quiet(meta.partitions) { return; }
      var places := Slots();
      var registered := Brokers();
      var planned := Rebalance(places, registered, tolerance, maxMoves);
      brokers, slots, plan := registered, places, planned;
      forall mv | mv in planned
        ensures mv.to in meta.brokers && !meta.brokers[mv.to].fenced && meta.brokers[mv.to].streamAddr != ""
      {
        HostIsRegistered(registered, meta.brokers, mv.to);
      }
      es := BeginAll(planned, now, accepted);
      RunSafe(old(State()), es);
    }
  }

  /** The brokers that are not fenced. */
  function Live(brokers: map<Node, Broker>): set<Node> {
    set n | n in brokers && !brokers[n].fenced
  }

  /** The list is the registrations. */
  ghost predicate BrokersOf(bs: seq<Broker>, brokers: map<Node, Broker>) {
    && (forall i :: 0 <= i < |bs| ==> bs[i].id in brokers && brokers[bs[i].id] == bs[i])
    && forall n :: n in brokers ==> brokers[n] in bs
  }

  lemma HostIsRegistered(bs: seq<Broker>, brokers: map<Node, Broker>, n: Node)
    requires BrokersOf(bs, brokers) && CanHost(bs, n)
    ensures n in brokers && !brokers[n].fenced && brokers[n].streamAddr != ""
  {
  }

  ghost predicate BrokersBut(bs: seq<Broker>, brokers: map<Node, Broker>, todo: set<Node>) {
    && DistinctBrokers(bs)
    && (forall i :: 0 <= i < |bs| ==> bs[i].id in brokers && bs[i].id !in todo && brokers[bs[i].id] == bs[i])
    && forall n :: n in brokers && n !in todo ==> brokers[n] in bs
  }

  lemma NoBrokers(brokers: map<Node, Broker>)
    ensures BrokersBut([], brokers, brokers.Keys)
  {
  }

  lemma AllBrokers(bs: seq<Broker>, brokers: map<Node, Broker>)
    requires BrokersBut(bs, brokers, {})
    ensures DistinctBrokers(bs) && BrokersOf(bs, brokers)
  {
  }

  lemma OneMoreBroker(bs: seq<Broker>, brokers: map<Node, Broker>, todo: set<Node>, n: Node)
    requires Named(brokers) && BrokersBut(bs, brokers, todo) && n in todo && n in brokers
    ensures BrokersBut(bs + [brokers[n]], brokers, todo - {n})
  {
    hide DistinctBrokers;
    DistinctSnoc(bs, brokers[n]);
  }

  /** The slots are the partitions' placements. */
  ghost predicate SlotsOf(slots: seq<Slot>, ps: map<PartitionKey, Assignment>) {
    && (forall i :: 0 <= i < |slots| ==> slots[i].key in ps && slots[i].replicas == ps[slots[i].key].replicas)
    && forall k :: k in ps ==> exists i :: 0 <= i < |slots| && slots[i].key == k
  }

  /** One sound slot for every partition outside todo. */
  ghost predicate SlotsBut(slots: seq<Slot>, ps: map<PartitionKey, Assignment>, todo: set<PartitionKey>) {
    && Sound(slots)
    && (forall i :: 0 <= i < |slots| ==>
          slots[i].key in ps && slots[i].key !in todo && slots[i].replicas == ps[slots[i].key].replicas)
    && forall k :: k in ps && k !in todo ==> exists i :: 0 <= i < |slots| && slots[i].key == k
  }

  lemma NoSlots(ps: map<PartitionKey, Assignment>)
    ensures SlotsBut([], ps, ps.Keys)
  {
  }

  lemma AllSlots(slots: seq<Slot>, ps: map<PartitionKey, Assignment>)
    requires SlotsBut(slots, ps, {})
    ensures Sound(slots) && SlotsOf(slots, ps)
  {
  }

  lemma OneMoreSlot(slots: seq<Slot>, ps: map<PartitionKey, Assignment>, todo: set<PartitionKey>, k: PartitionKey)
    requires SlotsBut(slots, ps, todo) && k in todo && k in ps && DistinctNodes(ps[k].replicas)
    ensures SlotsBut(slots + [Slot(k, ps[k].replicas)], ps, todo - {k})
  {
    hide DistinctNodes;
    var more := slots + [Slot(k, ps[k].replicas)];
    forall j | j in ps && j !in todo - {k} ensures exists i :: 0 <= i < |more| && more[i].key == j {
      if j == k {
        assert more[|slots|].key == j;
      } else {
        var i :| 0 <= i < |slots| && slots[i].key == j;
        assert more[i].key == j;
      }
    }
  }

  /** The planner's answer for these placements: every hop of the plan lowers the load it was planned on. */
  ghost predicate PlanOf(slots: seq<Slot>, plan: seq<Move>, ps: map<PartitionKey, Assignment>, brokers: seq<Broker>,
                         max: nat, tolerance: nat) {
    var us := Ids(Usable(brokers));
    && Sound(slots) && SlotsOf(slots, ps) && |plan| <= max
    && if |us| < 2 then plan == []
       else
         && Planned(us, slots, plan, Ceiling(slots, |us|, tolerance))
         && (plan == [] && max > 0 ==> Settled(us, slots, Ceiling(slots, |us|, tolerance)))
         && DistinctBrokers(Usable(brokers)) && PlanMade(slots, Usable(brokers), Ceiling(slots, |us|, tolerance), plan)
  }

  /** t is s with every move of the plan begun that could be: a partition gains the destination exactly when a move of
      it was begun, and a move was not begun only because the partition was busy or gone or held the destination
      already, because the command was not applied, or for want of room. */
  ghost predicate AllBegun(s: Ctl, t: Ctl, plan: seq<Move>, max: nat, now: int, accepted: PartitionKey -> bool) {
    Widened(s, t, now) && forall i :: 0 <= i < |plan| ==> Tried(s, t, plan[i], max, accepted)
  }

  ghost predicate Widened(s: Ctl, t: Ctl, now: int) {
    && t.meta.partitions.Keys == s.meta.partitions.Keys && s.moves.Keys <= t.moves.Keys
    && t.moves.Keys <= s.moves.Keys + s.meta.partitions.Keys
    && (forall k :: k in s.meta.partitions && (k in s.moves || k !in t.moves) ==>
          t.meta.partitions[k] == s.meta.partitions[k])
    && (forall k :: k in t.moves && k !in s.moves ==>
          && k in s.meta.partitions && t.moves[k] == MoveState(t.moves[k].move, Expand, now)
          && t.meta.partitions[k].replicas == s.meta.partitions[k].replicas + [t.moves[k].move.to])
  }

  ghost predicate Tried(s: Ctl, t: Ctl, mv: Move, max: nat, accepted: PartitionKey -> bool) {
    || mv.key in t.moves || |t.moves| >= max || !accepted(mv.key)
    || mv.key !in s.meta.partitions || mv.to in s.meta.partitions[mv.key].replicas
  }

  lemma NoneBegun(s: Ctl, max: nat, now: int, accepted: PartitionKey -> bool)
    ensures AllBegun(s, s, [], max, now, accepted)
  {
  }

  lemma SkippedMove(s: Ctl, t: Ctl, plan: seq<Move>, mv: Move, max: nat, now: int, accepted: PartitionKey -> bool)
    requires AllBegun(s, t, plan, max, now, accepted) && (mv.key in t.moves || |t.moves| >= max)
    ensures AllBegun(s, t, plan + [mv], max, now, accepted)
  {
  }

  lemma OneMoreBegun(s: Ctl, t: Ctl, plan: seq<Move>, mv: Move, max: nat, now: int, accepted: PartitionKey -> bool)
    requires AllBegun(s, t, plan, max, now, accepted) && mv.key !in t.moves
    ensures AllBegun(s, BeginMove(t, mv, now, accepted(mv.key)), plan + [mv], max, now, accepted)
  {
    hide BeginMove, Widened;
    BeginChanges(t, mv, now, accepted(mv.key));
    var z := BeginMove(t, mv, now, accepted(mv.key));
    BeginWidens(s, t, z, mv, now, accepted(mv.key));
    WidenedPart(s, t, now, mv.key);
    assert t.moves.Keys <= z.moves.Keys;
    MoreMoves(t.moves, z.moves);
    forall i | 0 <= i < |plan| ensures Tried(s, z, plan[i], max, accepted) {
      assert Tried(s, t, plan[i], max, accepted);
    }
    assert Tried(s, z, mv, max, accepted);
  }

  lemma WidenedPart(s: Ctl, t: Ctl, now: int, k: PartitionKey)
    requires Widened(s, t, now) && k !in t.moves
    ensures k in s.meta.partitions <==> k in t.meta.partitions
    ensures k in s.meta.partitions ==> t.meta.partitions[k] == s.meta.partitions[k]
  {
  }

  lemma MoreMoves(a: map<PartitionKey, MoveState>, b: map<PartitionKey, MoveState>)
    requires a.Keys <= b.Keys
    ensures |a| <= |b|
  {
    assert b.Keys == a.Keys + (b.Keys - a.Keys);
    assert |a| == |a.Keys| && |b| == |b.Keys|;
  }

  lemma BeginWidens(s: Ctl, t: Ctl, z: Ctl, mv: Move, now: int, accepted: bool)
    requires Widened(s, t, now) && mv.key !in t.moves
    requires var ps := t.meta.partitions;
      if mv.key in ps && mv.to !in ps[mv.key].replicas && accepted then
        && z.moves == t.moves[mv.key := MoveState(mv, Expand, now)]
        && z.meta.partitions.Keys == ps.Keys && (forall k :: k in ps && k != mv.key ==> z.meta.partitions[k] == ps[k])
        && z.meta.partitions[mv.key].replicas == ps[mv.key].replicas + [mv.to]
      else z == t
    ensures Widened(s, z, now)
  {
  }

  /** No partition is still catching up. */
  predicate Quiet(ps: map<PartitionKey, Assignment>) {
    forall k :: k in ps ==> |ps[k].isr| >= |ps[k].replicas|
  }

  /** A move begins exactly when the command is applied and the destination is new to the partition, and changes
      nothing but its partition's placement and the list of moves. */
  lemma BeginChanges(t: Ctl, mv: Move, now: int, accepted: bool)
    ensures var z := BeginMove(t, mv, now, accepted);
      var ps := t.meta.partitions;
      if mv.key in ps && mv.to !in ps[mv.key].replicas && accepted then
        && z.moves == t.moves[mv.key := MoveState(mv, Expand, now)]
        && z.meta.partitions.Keys == ps.Keys && (forall k :: k in ps && k != mv.key ==> z.meta.partitions[k] == ps[k])
        && z.meta.partitions[mv.key].replicas == ps[mv.key].replicas + [mv.to]
      else z == t
  {
    hide Only, NewSizes;
  }

  /** Exactly when every replica of every partition is in sync. */
  lemma QuietIff(s: Ctl)
    requires Safe(s)
    ensures Quiet(s.meta.partitions) <==>
      forall k, n :: k in s.meta.partitions && n in s.meta.partitions[k].replicas ==> n in s.meta.partitions[k].isr
  {
    hide PartOk, DistinctNodes;
    var ps := s.meta.partitions;
    forall k | k in ps ensures |ps[k].isr| >= |ps[k].replicas| <==> forall n :: n in ps[k].replicas ==> n in ps[k].isr {
      SafeAt(s, k);
      PartFacts(ps[k], s.created[k] + Extra(s.moves, k));
      if n :| n in ps[k].replicas && n !in ps[k].isr {
        FewerInSync(ps[k].isr, ps[k].replicas, n);
      } else {
        NoFewer(ps[k].replicas, ps[k].isr);
      }
    }
  }

  lemma {:induction false} NoFewer(a: seq<Node>, b: seq<Node>)
    requires DistinctNodes(a) && forall x :: x in a ==> x in b
    ensures |a| <= |b|
    decreases |a|
  {
    if a != [] {
      var k := |a| - 1;
      assert a[k] in a;
      FewerInSync(a[..k], b, a[k]);
    }
  }

  lemma BeginMoves(s: Ctl, mv: Move, now: int, accepted: bool)
    requires mv.key !in s.moves
    ensures var t := BeginMove(s, mv, now, accepted);
      && |t.moves| <= |s.moves| + 1 && s.moves.Keys <= t.moves.Keys
      && (forall k :: k in s.moves ==> t.moves[k] == s.moves[k])
      && forall k :: k in t.moves && k !in s.moves ==> t.moves[k].move == mv
  {
  }

  /** Partitions outside todo are repaired, the others as they were. */
  ghost predicate Repairing(before: map<PartitionKey, Assignment>, now: map<PartitionKey, Assignment>,
                            todo: set<PartitionKey>, live: set<Node>, preferred: bool, unclean: bool,
                            accepted: PartitionKey -> bool) {
    && now.Keys == before.Keys && todo <= before.Keys
    && (forall k :: k in todo ==> now[k] == before[k])
    && (forall k :: k in before && k !in todo ==> Repaired(before[k], now[k], live, preferred, unclean, accepted(k)))
  }

  lemma RepairNone(before: map<PartitionKey, Assignment>, live: set<Node>, preferred: bool, unclean: bool,
                   accepted: PartitionKey -> bool)
    ensures Repairing(before, before, before.Keys, live, preferred, unclean, accepted)
  {
  }

  lemma RepairFacts(before: map<PartitionKey, Assignment>, now: map<PartitionKey, Assignment>, todo: set<PartitionKey>,
                    live: set<Node>, preferred: bool, unclean: bool, accepted: PartitionKey -> bool, k: PartitionKey)
    requires Repairing(before, now, todo, live, preferred, unclean, accepted) && k in todo
    ensures k in now && k in before && now[k] == before[k]
  {
  }

  lemma RepairStep(before: map<PartitionKey, Assignment>, now: map<PartitionKey, Assignment>,
                   now': map<PartitionKey, Assignment>, todo: set<PartitionKey>, live: set<Node>,
                   preferred: bool, unclean: bool, accepted: PartitionKey -> bool, k: PartitionKey)
    requires Repairing(before, now, todo, live, preferred, unclean, accepted) && k in todo && k in now
    requires now'.Keys == now.Keys
    requires Repaired(now[k], now'[k], live, preferred, unclean, accepted(k))
    requires forall j :: j in now' && j != k ==> now'[j] == now[j]
    ensures Repairing(before, now', todo - {k}, live, preferred, unclean, accepted)
  {
    hide Repaired;
  }

  /** The partition after a repair, told without the election: whoever should lead does so, under the next term where
      that is a change, and everything else is as it was. A healthy leader that nobody pulls away stays untouched. */
  ghost predicate Settles(a: Assignment, b: Assignment, live: set<Node>, preferred: bool, unclean: bool,
                          accepted: bool) {
    && (b != a ==> b == a.(leader := b.leader, epoch := a.epoch + 1, version := a.version + 1) && b.leader != a.leader)
    && (accepted ==> ShouldLead(a, live, preferred, unclean, b.leader)) && (!accepted ==> b == a)
  }

  ghost predicate AllSettle(before: map<PartitionKey, Assignment>, now: map<PartitionKey, Assignment>,
                            brokers: map<Node, Broker>, preferred: bool, unclean: bool,
                            accepted: PartitionKey -> bool) {
    var live := set n | n in brokers && !brokers[n].fenced;
    && now.Keys == before.Keys
    && forall k :: k in before ==> Settles(before[k], now[k], live, preferred, unclean, accepted(k))
  }

  lemma RepairedSettles(before: map<PartitionKey, Assignment>, now: map<PartitionKey, Assignment>,
                        brokers: map<Node, Broker>, preferred: bool, unclean: bool, accepted: PartitionKey -> bool)
    requires Named(brokers) && Repairing(before, now, {}, Live(brokers), preferred, unclean, accepted)
    ensures AllSettle(before, now, brokers, preferred, unclean, accepted)
  {
    hide ElectLeader, ShouldLead;
    forall k | k in before ensures Settles(before[k], now[k], Live(brokers), preferred, unclean, accepted(k)) {
      ElectsRightly(before[k], Live(brokers), preferred, unclean);
    }
  }

  /** The partition after the repair: the elected leader at the next epoch, or as it was. */
  ghost predicate Repaired(a: Assignment, b: Assignment, live: set<Node>, preferred: bool, unclean: bool,
                           accepted: bool) {
    var n := ElectLeader(a, live, preferred, unclean);
    if n != a.leader && accepted then b == a.(leader := n, epoch := a.epoch + 1, version := a.version + 1) else b == a
  }
}
