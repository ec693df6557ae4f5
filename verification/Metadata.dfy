/** The cluster metadata: brokers, topics, and who leads which partition under which term.

    Raft applies the same commands in the same order on every node, so the state is
    a fold over one agreed command sequence. */
module Metadata {

  /** A broker's identity; the empty string names no broker. */
  type Node = string

  datatype Option<+T> = None | Some(value: T)

  datatype PartitionKey = PartitionKey(topic: string, id: nat)

  datatype Broker = Broker(id: Node, streamAddr: string, rack: string, session: nat, fenced: bool)

  datatype Assignment = Assignment(leader: Node, epoch: nat, replicas: seq<Node>, isr: seq<Node>, version: nat) {
    predicate IsLeader(n: Node) {
      leader != "" && leader == n
    }
  }

  datatype TopicMeta = TopicMeta(partitions: nat, replicationFactor: nat)

  datatype Meta = Meta(
    brokers: map<Node, Broker>, topics: map<string, TopicMeta>,
    partitions: map<PartitionKey, Assignment>, version: nat) {

    /** A partition exists only for a recorded topic. */
    predicate Valid() {
      forall k :: k in partitions ==> k.topic in topics
    }
  }

  const NO_META := Meta(map[], map[], map[], 0)

  datatype Command =
    | RegisterBroker(broker: Broker)
    | UnregisterBroker(id: Node)
    | FenceBroker(id: Node, fenced: bool)
    | CreateTopic(name: string, topic: TopicMeta, placements: seq<seq<Node>>)
    | AssignLeader(key: PartitionKey, leader: Node, epoch: nat, newIsr: Option<seq<Node>>)
    | UpdateISR(key: PartitionKey, epoch: nat, isr: seq<Node>)
    | Reassign(key: PartitionKey, replicas: seq<Node>)

  /** `ok` is false when the command is refused; a refused command changes nothing. */
  datatype Applied = Applied(meta: Meta, ok: bool)

  function Without(s: seq<Node>, n: Node): (r: seq<Node>)
    ensures forall x :: x in r <==> x in s && x != n
    ensures |r| <= |s|
  {
    if s == [] then [] else if s[0] == n then Without(s[1..], n) else [s[0]] + Without(s[1..], n)
  }

  function Only(s: seq<Node>, allowed: seq<Node>): (r: seq<Node>)
    ensures forall x :: x in r <==> x in s && x in allowed
  {
    if s == [] then [] else if s[0] in allowed then [s[0]] + Only(s[1..], allowed) else Only(s[1..], allowed)
  }

  /** An ISR report with repeats dropped, or None when it names a non-replica. */
  function CleanISR(report: seq<Node>, replicas: seq<Node>, acc: seq<Node>): Option<seq<Node>>
    decreases |report|
  {
    if report == [] then Some(acc)
    else if report[0] in acc then CleanISR(report[1..], replicas, acc)
    else if report[0] !in replicas then None
    else CleanISR(report[1..], replicas, acc + [report[0]])
  }

  function ShrinkOne(a: Assignment, n: Node): Assignment {
    if n in a.isr then a.(isr := Without(a.isr, n), version := a.version + 1) else a
  }

  function ShrinkISR(ps: map<PartitionKey, Assignment>, n: Node): map<PartitionKey, Assignment> {
    map k | k in ps :: ShrinkOne(ps[k], n)
  }

  /** Every replica of a new partition starts in sync: all hold the same empty log. */
  function NewAssignment(replicas: seq<Node>): Assignment {
    Assignment("", 0, replicas, replicas, 1)
  }

  function NewPartitions(name: string, placements: seq<seq<Node>>): map<PartitionKey, Assignment> {
    map i: nat | i < |placements| :: PartitionKey(name, i) := NewAssignment(placements[i])
  }

  lemma OneMorePartition(name: string, placements: seq<seq<Node>>, i: nat)
    requires i < |placements|
    ensures NewPartitions(name, placements[..i + 1])
         == NewPartitions(name, placements[..i])[PartitionKey(name, i) := NewAssignment(placements[i])]
  {
    var now := NewPartitions(name, placements[..i + 1]);
    var was := NewPartitions(name, placements[..i]);
    forall k ensures k in now <==> k in was[PartitionKey(name, i) := NewAssignment(placements[i])] {
      if k.topic == name && k.id < i { assert k == PartitionKey(name, k.id); }
    }
  }

  function WithLeader(isr: seq<Node>, leader: Node): seq<Node> {
    if leader != "" && leader !in isr then [leader] + isr else isr
  }

  function Apply(m: Meta, c: Command): Applied {
    match c
    case RegisterBroker(b) =>
      var session := if b.id in m.brokers then m.brokers[b.id].session + 1
                     else if b.session == 0 then 1 else b.session;
      Applied(m.(brokers := m.brokers[b.id := b.(session := session, fenced := false)],
                 version := m.version + 1), true)
    case UnregisterBroker(n) =>
      if n !in m.brokers then Applied(m, false)
      else Applied(m.(brokers := m.brokers - {n}, partitions := ShrinkISR(m.partitions, n),
                      version := m.version + 1), true)
    case FenceBroker(n, fenced) =>
      if n !in m.brokers then Applied(m, false)
      else if m.brokers[n].fenced == fenced then Applied(m, true)
      else Applied(m.(brokers := m.brokers[n := m.brokers[n].(fenced := fenced)],
                      partitions := if fenced then ShrinkISR(m.partitions, n) else m.partitions,
                      version := m.version + 1), true)
    case CreateTopic(name, topic, placements) =>
      if name in m.topics || topic.partitions != |placements| then Applied(m, false)
      else Applied(m.(topics := m.topics[name := topic],
                      partitions := m.partitions + NewPartitions(name, placements),
                      version := m.version + 1), true)
    case AssignLeader(k, leader, epoch, newIsr) =>
      if k !in m.partitions || epoch <= m.partitions[k].epoch then Applied(m, false)
      else
        var a := m.partitions[k];
        var b := a.(leader := leader, epoch := epoch, version := a.version + 1,
                    isr := if newIsr.Some? then newIsr.value else a.isr);
        Applied(m.(partitions := m.partitions[k := b], version := m.version + 1), true)
    case UpdateISR(k, epoch, isr) =>
      if k !in m.partitions || epoch != m.partitions[k].epoch then Applied(m, false)
      else
        var a := m.partitions[k];
        var clean := CleanISR(isr, a.replicas, []);
        if clean.None? then Applied(m, false)
        else
          var b := a.(isr := WithLeader(clean.value, a.leader), version := a.version + 1);
          Applied(m.(partitions := m.partitions[k := b], version := m.version + 1), true)
    case Reassign(k, replicas) =>
      if k !in m.partitions then Applied(m, false)
      else
        var a := m.partitions[k];
        var b := a.(replicas := replicas, isr := Only(a.isr, replicas), version := a.version + 1);
        Applied(m.(partitions := m.partitions[k := b], version := m.version + 1), true)
  }

  lemma ApplyKeepsValid(m: Meta, c: Command)
    requires m.Valid()
    ensures Apply(m, c).meta.Valid()
  {
  }

  /** The term of a partition never goes back, and while it stands still so does the
      leader: whoever led under a term is the only node that ever does. */
  lemma TermsNeverReused(m: Meta, c: Command, k: PartitionKey)
    requires m.Valid()
    ensures var m' := Apply(m, c).meta;
      && (k in m.partitions ==>
            && k in m'.partitions
            && m.partitions[k].epoch <= m'.partitions[k].epoch
            && (m.partitions[k].epoch == m'.partitions[k].epoch ==>
                  m.partitions[k].leader == m'.partitions[k].leader))
      && (k !in m.partitions && k in m'.partitions ==>
            m'.partitions[k].epoch == 0 && m'.partitions[k].leader == "")
  {
  }

  /** The replicated store, mutated only by the state machine. */
  class MetadataStore {
    var brokers: map<Node, Broker>
    var topics: map<string, TopicMeta>
    var partitions: map<PartitionKey, Assignment>
    var version: nat

    function State(): Meta
      reads this
    {
      Meta(brokers, topics, partitions, version)
    }

    constructor ()
      ensures State() == NO_META
    {
      brokers, topics, partitions, version := map[], map[], map[], 0;
    }

    method ApplyRegisterBroker(b: Broker)
      modifies this
      ensures Applied(State(), true) == Apply(old(State()), RegisterBroker(b))
    {
      var session := b.session;
      if b.id in brokers {
        session := brokers[b.id].session + 1;
      } else if session == 0 {
        session := 1;
      }
      brokers := brokers[b.id := b.(session := session, fenced := false)];
      version := version + 1;
    }

    method ApplyUnregisterBroker(n: Node) returns (ok: bool)
      modifies this
      ensures Applied(State(), ok) == Apply(old(State()), UnregisterBroker(n))
    {
      if n !in brokers { return false; }
      brokers := brokers - {n};
      ShrinkISRLocked(n);
      version := version + 1;
      return true;
    }

    method ApplyFenceBroker(n: Node, fenced: bool) returns (ok: bool, changed: bool)
      modifies this
      ensures Applied(State(), ok) == Apply(old(State()), FenceBroker(n, fenced))
      ensures changed <==> ok && old(brokers)[n].fenced != fenced
    {
      if n !in brokers { return false, false; }
      if brokers[n].fenced == fenced { return true, false; }
      brokers := brokers[n := brokers[n].(fenced := fenced)];
      if fenced { ShrinkISRLocked(n); }
      version := version + 1;
      return true, true;
    }

    /** Drops n from every ISR, one partition at a time. */
    method ShrinkISRLocked(n: Node)
      modifies this`partitions
      ensures partitions == ShrinkISR(old(partitions), n)
    {
      var todo := partitions.Keys;
      while todo != {}
        invariant todo <= old(partitions).Keys && partitions.Keys == old(partitions).Keys
        invariant forall k :: k in partitions ==>
          partitions[k] == if k in todo then old(partitions)[k] else ShrinkOne(old(partitions)[k], n)
        decreases |todo|
      {
        var k :| k in todo;
        var a := partitions[k];
        if n in a.isr {
          partitions := partitions[k := a.(isr := Without(a.isr, n), version := a.version + 1)];
        }
        todo := todo - {k};
      }
    }

    method ApplyCreateTopic(name: string, topic: TopicMeta, placements: seq<seq<Node>>) returns (ok: bool)
      modifies this
      ensures Applied(State(), ok) == Apply(old(State()), CreateTopic(name, topic, placements))
    {
      if name in topics || topic.partitions != |placements| { return false; }
      topics := topics[name := topic];
      AddPartitions(name, placements);
      version := version + 1;
      return true;
    }

    method AddPartitions(name: string, placements: seq<seq<Node>>)
      modifies this`partitions
      ensures partitions == old(partitions) + NewPartitions(name, placements)
    {
      var i := 0;
      while i < |placements|
        invariant 0 <= i <= |placements|
        invariant partitions == old(partitions) + NewPartitions(name, placements[..i])
      {
        OneMorePartition(name, placements, i);
        partitions := partitions[PartitionKey(name, i) := NewAssignment(placements[i])];
        i := i + 1;
      }
      assert placements[..i] == placements;
    }

    method ApplyAssignLeader(k: PartitionKey, leader: Node, epoch: nat, newIsr: Option<seq<Node>>)
      returns (ok: bool)
      modifies this
      ensures Applied(State(), ok) == Apply(old(State()), AssignLeader(k, leader, epoch, newIsr))
    {
      if k !in partitions || epoch <= partitions[k].epoch { return false; }
      var a := partitions[k];
      var isr := a.isr;
      if newIsr.Some? { isr := newIsr.value; }
      partitions := partitions[k := Assignment(leader, epoch, a.replicas, isr, a.version + 1)];
      version := version + 1;
      return true;
    }

    method ApplyUpdateISR(k: PartitionKey, epoch: nat, isr: seq<Node>) returns (ok: bool)
      modifies this
      ensures Applied(State(), ok) == Apply(old(State()), UpdateISR(k, epoch, isr))
    {
      if k !in partitions || epoch != partitions[k].epoch { return false; }
      var a := partitions[k];
      var clean: seq<Node> := [];
      var i := 0;
      while i < |isr|
        invariant 0 <= i <= |isr|
        invariant CleanISR(isr[i..], a.replicas, clean) == CleanISR(isr, a.replicas, [])
      {
        assert isr[i..][1..] == isr[i + 1..];
        if isr[i] !in clean {
          if isr[i] !in a.replicas { return false; }
          clean := clean + [isr[i]];
        }
        i := i + 1;
      }
      if a.leader != "" && a.leader !in clean { clean := [a.leader] + clean; }
      partitions := partitions[k := a.(isr := clean, version := a.version + 1)];
      version := version + 1;
      return true;
    }

    method ApplyReassign(k: PartitionKey, replicas: seq<Node>) returns (ok: bool)
      modifies this
      ensures Applied(State(), ok) == Apply(old(State()), Reassign(k, replicas))
    {
      if k !in partitions { return false; }
      var a := partitions[k];
      var keep: seq<Node> := [];
      var i := 0;
      while i < |a.isr|
        invariant 0 <= i <= |a.isr|
        invariant keep + Only(a.isr[i..], replicas) == Only(a.isr, replicas)
      {
        assert a.isr[i..][1..] == a.isr[i + 1..];
        if a.isr[i] in replicas { keep := keep + [a.isr[i]]; }
        i := i + 1;
      }
      assert keep == Only(a.isr, replicas);
      partitions := partitions[k := a.(replicas := replicas, isr := keep, version := a.version + 1)];
      version := version + 1;
      return true;
    }
  }
}
