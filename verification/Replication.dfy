/** Leader-epoch replication of one partition across a cluster, as a step system.

    A step is one critical section of one node: a metadata command agreed by Raft, one
    reconcile pass over a possibly stale metadata view, a local append, or one move of
    a follower session (epoch query, settling its answer, shipping, applying). */
module Replication {
  import opened Records
  import opened EpochHistory
  import opened PartitionLog
  import opened Metadata

  /** A follower session: not connected; holding the leader's answer to the epoch
      query; or fetching, with the leader's read position and the records in transit. */
  datatype Phase =
    | Idle
    | Answered(server: Node, epoch: nat, end: nat)
    | Streaming(server: Node, from: nat, wire: seq<Record>)

  /** `promoted` is the term this node has locally opened (0: none), `follow` the node
      it fetches from ("": none), `view` the metadata version its last pass read. */
  datatype Replica = Replica(log: PLog, promoted: nat, follow: Node, phase: Phase, view: nat)

  datatype Cluster = Cluster(key: PartitionKey, history: seq<Meta>, nodes: map<Node, Replica>) {

    predicate Shaped() {
      && history != []
      && (forall i :: 0 <= i < |history| ==> history[i].Valid())
      && (forall n :: n in nodes ==> nodes[n].log.WellFormed() && nodes[n].view < |history|)
    }

    function With(n: Node, r: Replica): Cluster {
      this.(nodes := nodes[n := r])
    }
  }

  datatype Step =
    | Commit(c: Command)
    | Pass(n: Node, view: nat, rebuilt: bool)
    | LocalAppend(n: Node, r: Record)
    | Query(n: Node)
    | Settle(n: Node)
    | Ship(n: Node, count: nat)
    | Deliver(n: Node, drop: nat)
    | Disconnect(n: Node)
    | Restart(n: Node)
    | Expire(n: Node, first: nat)

  /** Whom the metadata says n should fetch the partition from. */
  function Target(m: Meta, k: PartitionKey, n: Node): Node {
    if k !in m.partitions then ""
    else
      var a := m.partitions[k];
      if a.IsLeader(n) || n !in a.replicas || a.leader == "" then ""
      else if a.leader !in m.brokers || m.brokers[a.leader].streamAddr == "" || m.brokers[a.leader].fenced then ""
      else a.leader
  }

  predicate Led(m: Meta, k: PartitionKey, n: Node) {
    k in m.partitions && m.partitions[k].IsLeader(n)
  }

  function PassResign(r: Replica, led: bool): Replica {
    if r.promoted != 0 && !led then r.(log := r.log.Resign(), promoted := 0) else r
  }

  function PassLead(r: Replica, led: bool, e: nat): Replica {
    if !led || r.promoted >= e then r
    else
      var b := r.log.BecomeLeaderFor(e);
      if b.outcome == Ok then r.(log := b.log, promoted := e) else r
  }

  function PassFollow(r: Replica, target: Node, rebuilt: bool): Replica {
    r.(follow := target, phase := if target == r.follow && !rebuilt then r.phase else Idle)
  }

  function EpochIn(m: Meta, k: PartitionKey): nat {
    if k in m.partitions then m.partitions[k].epoch else 0
  }

  /** Resign first, then promote, then open or drop the session. A session is kept only
      if its leader and its partition set are unchanged (`rebuilt` false). */
  function ReconcilePass(r: Replica, m: Meta, k: PartitionKey, n: Node, view: nat, rebuilt: bool): (q: Replica)
    ensures q.view == view
  {
    var led := Led(m, k, n);
    PassFollow(PassLead(PassResign(r, led), led, EpochIn(m, k)), Target(m, k, n), rebuilt).(view := view)
  }

  /** The follower asks where its latest term ended. An empty log has nothing to
      reconcile; a term the leader cannot place ends the session. */
  function AfterQuery(r: Replica, server: Node, leader: PLog): (q: Replica)
    requires leader.WellFormed()
    ensures q.(phase := r.phase) == r
  {
    if r.log.Next() <= 1 then r.(phase := Streaming(server, r.log.Next(), []))
    else
      var asked := LatestEpoch(r.log.hist);
      var a := leader.EndOffsetForEpoch(asked);
      if a.epoch != UNDEFINED_EPOCH then r.(phase := Answered(server, a.epoch, a.end))
      else if asked == UNDEFINED_EPOCH then r.(phase := Streaming(server, r.log.Next(), []))
      else r
  }

  /** Only the end sequence is compared; the answered epoch is not looked at again. */
  function AfterSettle(r: Replica): (q: Replica)
    requires r.log.WellFormed() && r.phase.Answered?
    ensures q.(phase := r.phase, log := r.log) == r
  {
    var server := r.phase.server;
    if r.phase.end >= r.log.Next() then r.(phase := Streaming(server, r.log.Next(), []))
    else
      var t := r.log.TruncateTo(r.phase.end);
      if t.outcome == Ok then r.(log := t.log, phase := Streaming(server, t.log.Next(), []))
      else r.(phase := Idle)
  }

  /** The leader reads a batch at its position, or skips to its retention horizon. */
  function AfterShip(r: Replica, leader: PLog, count: nat): (q: Replica)
    requires r.phase.Streaming?
    ensures q.(phase := r.phase) == r
  {
    var p := r.phase;
    if p.from < leader.first then r.(phase := p.(from := leader.first))
    else if count >= 1 && 1 <= p.from && p.from + count <= leader.Next() then
      r.(phase := p.(from := p.from + count, wire := p.wire + leader.recs[p.from - 1..p.from - 1 + count]))
    else r
  }

  /** A gap makes the follower re-fetch from its true end, dropping the rest of the batch. */
  function AfterDeliver(r: Replica, drop: nat): (q: Replica)
    requires r.phase.Streaming? && r.phase.wire != []
    ensures q.(phase := r.phase, log := r.log) == r
  {
    var p := r.phase;
    var b := r.log.AppendReplicated(p.wire[0]);
    match b.outcome
    case Ok => r.(log := b.log, phase := p.(wire := p.wire[1..]))
    case AlreadyApplied => r.(phase := p.(wire := p.wire[1..]))
    case ReplicationGap =>
      r.(phase := p.(from := r.log.Next(), wire := if 1 + drop <= |p.wire| then p.wire[1 + drop..] else []))
    case _ => r.(phase := Idle)
  }

  predicate Appends(s: Cluster, step: Step) {
    step.LocalAppend? && step.n in s.nodes && s.nodes[step.n].log.leading && !Ephemeral(step.r)
  }

  predicate Asks(s: Cluster, n: Node) {
    n in s.nodes && s.nodes[n].phase.Idle? && s.nodes[n].follow != "" && s.nodes[n].follow in s.nodes
  }

  predicate Settles(s: Cluster, n: Node) {
    n in s.nodes && s.nodes[n].phase.Answered? && s.nodes[n].phase.server in s.nodes
  }

  predicate Streams(s: Cluster, n: Node) {
    n in s.nodes && s.nodes[n].phase.Streaming? && s.nodes[n].phase.server in s.nodes
  }

  predicate Delivers(s: Cluster, n: Node) {
    Streams(s, n) && s.nodes[n].phase.wire != []
  }

  /** A step that is not enabled changes nothing. */
  function Exec(s: Cluster, step: Step): Cluster
    requires s.Shaped()
  {
    match step
    case Commit(c) =>
      s.(history := s.history + [Apply(s.history[|s.history| - 1], c).meta])
    case Pass(n, view, rebuilt) =>
      if n in s.nodes && s.nodes[n].view <= view < |s.history| then
        s.With(n, ReconcilePass(s.nodes[n], s.history[view], s.key, n, view, rebuilt))
      else s
    case LocalAppend(n, r) =>
      if Appends(s, step) then s.With(n, s.nodes[n].(log := s.nodes[n].log.Append(r).log)) else s
    case Query(n) =>
      if Asks(s, n) then s.With(n, AfterQuery(s.nodes[n], s.nodes[n].follow, s.nodes[s.nodes[n].follow].log)) else s
    case Settle(n) =>
      if Settles(s, n) then s.With(n, AfterSettle(s.nodes[n])) else s
    case Ship(n, count) =>
      if Streams(s, n) then s.With(n, AfterShip(s.nodes[n], s.nodes[s.nodes[n].phase.server].log, count)) else s
    case Deliver(n, drop) =>
      if Delivers(s, n) then s.With(n, AfterDeliver(s.nodes[n], drop)) else s
    case Disconnect(n) =>
      if n in s.nodes then s.With(n, s.nodes[n].(phase := Idle)) else s
    case Restart(n) =>
      if n in s.nodes then
        var r := s.nodes[n];
        s.With(n, r.(log := r.log.Resign(), promoted := 0, follow := "", phase := Idle))
      else s
    case Expire(n, first) =>
      if n in s.nodes then s.With(n, s.nodes[n].(log := s.nodes[n].log.Retain(first))) else s
  }

  lemma UpdateKeepsShape(s: Cluster, n: Node, r: Replica)
    requires s.Shaped() && n in s.nodes && r.log.WellFormed() && r.view < |s.history|
    ensures s.With(n, r).Shaped()
    ensures s.With(n, r).nodes.Keys == s.nodes.Keys
  {
  }

  lemma SettleKeepsWellFormed(r: Replica)
    requires r.log.WellFormed() && r.phase.Answered?
    ensures AfterSettle(r).log.WellFormed()
  {
    TruncateKeepsWellFormed(r.log, r.phase.end);
  }

  lemma DeliverKeepsWellFormed(r: Replica, drop: nat)
    requires r.log.WellFormed() && r.phase.Streaming? && r.phase.wire != []
    ensures AfterDeliver(r, drop).log.WellFormed()
  {
    ReplicateKeepsWellFormed(r.log, r.phase.wire[0]);
  }

  lemma NodeAfterKeepsWellFormed(s: Cluster, step: Step)
    requires s.Shaped() && !step.Commit? && step.n in s.nodes
    ensures Exec(s, step).history == s.history && Exec(s, step).key == s.key
    ensures step.n in Exec(s, step).nodes
    ensures var r := Exec(s, step).nodes[step.n];
      r.log.WellFormed() && r.view < |s.history| && Exec(s, step).nodes == s.nodes[step.n := r]
  {
    hide ReconcilePass, AfterQuery, AfterSettle, AfterShip, AfterDeliver, PLog.Append, PLog.Retain;
    var r := s.nodes[step.n];
    match step
    case Pass(n, view, rebuilt) =>
      if r.view <= view < |s.history| {
        PassKeepsWellFormed(r, s.history[view], s.key, n, view, rebuilt);
      }
    case LocalAppend(n, rec) => AppendKeepsWellFormed(r.log, rec);
    case Settle(n) => if Settles(s, n) { SettleKeepsWellFormed(r); }
    case Deliver(n, drop) => if Delivers(s, n) { DeliverKeepsWellFormed(r, drop); }
    case Expire(n, first) => RetainKeepsWellFormed(r.log, first);
    case _ =>
  }

  lemma ExecKeepsShape(s: Cluster, step: Step)
    requires s.Shaped()
    ensures Exec(s, step).Shaped()
    ensures Exec(s, step).key == s.key && s.history <= Exec(s, step).history
    ensures Exec(s, step).nodes.Keys == s.nodes.Keys
  {
    if step.Commit? {
      ApplyKeepsValid(s.history[|s.history| - 1], step.c);
    } else if step.n in s.nodes {
      NodeAfterKeepsWellFormed(s, step);
      UpdateKeepsShape(s, step.n, Exec(s, step).nodes[step.n]);
    }
  }

  lemma PassKeepsWellFormed(r: Replica, m: Meta, k: PartitionKey, n: Node, view: nat, rebuilt: bool)
    requires r.log.WellFormed()
    ensures ReconcilePass(r, m, k, n, view, rebuilt).log.WellFormed()
  {
    var a := PassResign(r, Led(m, k, n));
    assert a.log.WellFormed();
    PromoteKeepsWellFormed(a.log, EpochIn(m, k));
  }

  /** A step changes no node but its own. */
  lemma OthersStand(s: Cluster, step: Step, n: Node)
    requires s.Shaped() && n in s.nodes && (step.Commit? || step.n != n)
    ensures n in Exec(s, step).nodes && Exec(s, step).nodes[n] == s.nodes[n]
  {
    hide AfterQuery, AfterSettle, AfterShip, AfterDeliver, ReconcilePass, PLog.Append, PLog.Retain, Apply;
  }

  function Run(s: Cluster, steps: seq<Step>): (r: Cluster)
    requires s.Shaped()
    ensures r.Shaped() && r.key == s.key && s.history <= r.history && r.nodes.Keys == s.nodes.Keys
    decreases |steps|
  {
    if steps == [] then s
    else
      var last := |steps| - 1;
      var mid := Run(s, steps[..last]);
      ExecKeepsShape(mid, steps[last]);
      Exec(mid, steps[last])
  }

  /** Every node holds an empty log; the metadata may be any valid state. */
  predicate Init(s: Cluster)
    ensures Init(s) ==> s.Shaped()
  {
    && |s.history| == 1 && s.history[0].Valid()
    && forall n :: n in s.nodes ==> s.nodes[n] == Replica(EMPTY, 0, "", Idle, 0)
  }
}
