/** What each metadata command does to brokers, placements, leaders and in-sync sets, stated of the state before and
    after, and what that means over whole command sequences: nobody enters an ISR on a deposed leader's report. */
module Insync {
  import opened Metadata

  // --- who enters and who leaves -----------------------------------------

  /** The report is of the partition's current term and names replicas only. */
  predicate Current(m: Meta, c: Command, k: PartitionKey) {
    && c.UpdateISR? && c.key == k && k in m.partitions && c.epoch == m.partitions[k].epoch
    && forall x :: x in c.isr ==> x in m.partitions[k].replicas
  }

  /** A newer term that comes with an in-sync set of its own. */
  predicate Installs(m: Meta, c: Command, k: PartitionKey) {
    && c.AssignLeader? && c.key == k && k in m.partitions && c.epoch > m.partitions[k].epoch && c.newIsr.Some?
  }

  lemma {:induction false} CleanMembers(report: seq<Node>, replicas: seq<Node>, acc: seq<Node>)
    requires forall x :: x in acc ==> x in replicas
    ensures CleanISR(report, replicas, acc).Some? <==> forall x :: x in report ==> x in replicas
    ensures CleanISR(report, replicas, acc).Some? ==>
      forall x :: x in CleanISR(report, replicas, acc).value <==> x in report || x in acc
    decreases |report|
  {
    if report != [] {
      assert report == [report[0]] + report[1..];
      if report[0] in acc {
        CleanMembers(report[1..], replicas, acc);
      } else if report[0] in replicas {
        CleanMembers(report[1..], replicas, acc + [report[0]]);
      }
    }
  }

  /** A node enters an ISR exactly on a report of the current term that names it or is its own, or with a new term
      that says so. */
  lemma EntersIff(m: Meta, c: Command, k: PartitionKey, n: Node)
    requires m.Valid() && k in m.partitions && n !in m.partitions[k].isr
    ensures k in Apply(m, c).meta.partitions
    ensures n in Apply(m, c).meta.partitions[k].isr <==>
      || (Current(m, c, k) && (n in c.isr || (n == m.partitions[k].leader && n != "")))
      || (Installs(m, c, k) && n in c.newIsr.value)
  {
    hide CleanISR;
    if c.UpdateISR? && c.key == k { CleanMembers(c.isr, m.partitions[k].replicas, []); }
  }

  /** A node leaves an ISR exactly when it is unregistered, newly fenced, left out of a report of the current term
      that is not its own or of a new term's set, or moved out of the placement. */
  lemma LeavesIff(m: Meta, c: Command, k: PartitionKey, n: Node)
    requires m.Valid() && k in m.partitions && n in m.partitions[k].isr
    ensures k in Apply(m, c).meta.partitions
    ensures n !in Apply(m, c).meta.partitions[k].isr <==>
      || (c == UnregisterBroker(n) && n in m.brokers)
      || (c == FenceBroker(n, true) && n in m.brokers && !m.brokers[n].fenced)
      || (Current(m, c, k) && n !in c.isr && (n != m.partitions[k].leader || n == ""))
      || (Installs(m, c, k) && n !in c.newIsr.value)
      || (c.Reassign? && c.key == k && n !in c.replicas)
  {
    hide CleanISR;
    if c.UpdateISR? && c.key == k { CleanMembers(c.isr, m.partitions[k].replicas, []); }
  }

  /** A report of another term than the partition's is refused and changes nothing. */
  lemma StaleReportRefused(m: Meta, k: PartitionKey, epoch: nat, isr: seq<Node>)
    requires k in m.partitions ==> epoch != m.partitions[k].epoch
    ensures Apply(m, UpdateISR(k, epoch, isr)) == Applied(m, false)
  {
  }

  // --- a fenced or unregistered broker -----------------------------------

  /** No ISR holds n. */
  predicate OutOfSync(m: Meta, n: Node) {
    forall k :: k in m.partitions ==> n !in m.partitions[k].isr
  }

  lemma UnregisteredOut(m: Meta, n: Node)
    requires n in m.brokers
    ensures var z := Apply(m, UnregisterBroker(n)).meta; OutOfSync(z, n) && n !in z.brokers
  {
  }

  /** A newly fenced broker is in no ISR; fencing one that is fenced already changes nothing, not even where a report
      has let it in again meanwhile. */
  lemma FencedOutIff(m: Meta, n: Node)
    requires n in m.brokers
    ensures var z := Apply(m, FenceBroker(n, true)).meta;
      && n in z.brokers && z.brokers[n].fenced
      && (OutOfSync(z, n) <==> !m.brokers[n].fenced || OutOfSync(m, n))
  {
  }

  // --- whole command sequences -------------------------------------------

  function Fold(m: Meta, cs: seq<Command>): Meta
    decreases |cs|
  {
    if cs == [] then m else Apply(Fold(m, cs[..|cs| - 1]), cs[|cs| - 1]).meta
  }

  lemma {:induction false} FoldValid(m: Meta, cs: seq<Command>)
    requires m.Valid()
    ensures Fold(m, cs).Valid() && forall k :: k in m.partitions ==> k in Fold(m, cs).partitions
    decreases |cs|
  {
    hide Apply;
    if cs != [] {
      var last := |cs| - 1;
      FoldValid(m, cs[..last]);
      var mid := Fold(m, cs[..last]);
      ApplyKeepsValid(mid, cs[last]);
      forall k | k in mid.partitions ensures k in Apply(mid, cs[last]).meta.partitions {
        TermsNeverReused(mid, cs[last], k);
      }
    }
  }

  /** The command lets n into the ISR of k: a report of the term then current, or a new term's set. */
  predicate Admits(m: Meta, c: Command, k: PartitionKey, n: Node) {
    || (Current(m, c, k) && (n in c.isr || (n == m.partitions[k].leader && n != "")))
    || (Installs(m, c, k) && n in c.newIsr.value)
  }

  /** Over every command sequence: whoever is in an ISR at the end and was not at the beginning was let in by a
      command that was current when it was applied, never by the report of a deposed leader. */
  lemma {:induction false} AdmittedByCurrent(m: Meta, cs: seq<Command>, k: PartitionKey, n: Node) returns (i: nat)
    requires m.Valid() && k in m.partitions && n !in m.partitions[k].isr
    requires k in Fold(m, cs).partitions && n in Fold(m, cs).partitions[k].isr
    ensures i < |cs| && Admits(Fold(m, cs[..i]), cs[i], k, n)
    decreases |cs|
  {
    hide Apply, Admits;
    var last := |cs| - 1;
    var front := cs[..last];
    FoldValid(m, front);
    if n in Fold(m, front).partitions[k].isr {
      i := AdmittedByCurrent(m, front, k, n);
      assert front[..i] == cs[..i];
    } else {
      i := last;
      LetIn(Fold(m, front), cs[last], k, n);
    }
  }

  lemma LetIn(m: Meta, c: Command, k: PartitionKey, n: Node)
    requires m.Valid() && k in m.partitions && n !in m.partitions[k].isr
    requires k in Apply(m, c).meta.partitions && n in Apply(m, c).meta.partitions[k].isr
    ensures Admits(m, c, k, n)
  {
    hide Apply;
    EntersIff(m, c, k, n);
  }

  /** So a broker that is fenced and in an ISR was let in again since, by a command current at the time. */
  lemma FencedReadmitted(m: Meta, n: Node, cs: seq<Command>, k: PartitionKey) returns (i: nat)
    requires m.Valid() && n in m.brokers && !m.brokers[n].fenced && k in m.partitions
    requires var z := Fold(Apply(m, FenceBroker(n, true)).meta, cs); k in z.partitions && n in z.partitions[k].isr
    ensures var f := Apply(m, FenceBroker(n, true)).meta; i < |cs| && Admits(Fold(f, cs[..i]), cs[i], k, n)
  {
    hide Fold, Admits;
    var f := Apply(m, FenceBroker(n, true)).meta;
    FencedOutIff(m, n);
    ApplyKeepsValid(m, FenceBroker(n, true));
    TermsNeverReused(m, FenceBroker(n, true), k);
    i := AdmittedByCurrent(f, cs, k, n);
  }

  /** Which happens: a report does not look at fencing. */
  lemma FencedComesBack(m: Meta, k: PartitionKey, n: Node)
    requires m.Valid() && k in m.partitions && n in m.partitions[k].replicas && n in m.brokers && !m.brokers[n].fenced
    ensures var cs := [FenceBroker(n, true), UpdateISR(k, m.partitions[k].epoch, [n])];
      var z := Fold(m, cs);
      k in z.partitions && n in z.partitions[k].isr && n in z.brokers && z.brokers[n].fenced
  {
    hide CleanISR;
    var c1, c2 := FenceBroker(n, true), UpdateISR(k, m.partitions[k].epoch, [n]);
    assert [c1, c2][..1] == [c1] && [c1][..0] == [];
    var f := Apply(m, c1).meta;
    assert Fold(m, [c1]) == f && Fold(m, [c1, c2]) == Apply(f, c2).meta;
    FencedOutIff(m, n);
    ApplyKeepsValid(m, c1);
    EntersIff(f, c2, k, n);
    RegistrationIs(f, c2, n);
  }

  // --- the other commands ------------------------------------------------

  /** Leader and term change exactly with an assignment of a newer term, and then to what it says. */
  lemma LeaderChangesIff(m: Meta, c: Command, k: PartitionKey)
    requires m.Valid() && k in m.partitions
    ensures k in Apply(m, c).meta.partitions
    ensures var a, b := m.partitions[k], Apply(m, c).meta.partitions[k];
      if c.AssignLeader? && c.key == k && c.epoch > a.epoch then b.leader == c.leader && b.epoch == c.epoch
      else b.leader == a.leader && b.epoch == a.epoch
  {
    hide CleanISR;
  }

  /** A placement changes exactly with a reassignment, and then to what it says. */
  lemma PlacementChangesIff(m: Meta, c: Command, k: PartitionKey)
    requires m.Valid() && k in m.partitions
    ensures k in Apply(m, c).meta.partitions
    ensures Apply(m, c).meta.partitions[k].replicas ==
      if c.Reassign? && c.key == k then c.replicas else m.partitions[k].replicas
  {
    hide CleanISR;
  }

  /** A registration is live, under a session later than any it had before, and lasts until it is replaced, fenced,
      unfenced or removed. */
  lemma RegistrationIs(m: Meta, c: Command, n: Node)
    ensures var z := Apply(m, c).meta;
      && (n in z.brokers <==> (n in m.brokers && c != UnregisterBroker(n)) || (c.RegisterBroker? && c.broker.id == n))
      && (n in z.brokers ==>
            if c.RegisterBroker? && c.broker.id == n then
              && !z.brokers[n].fenced && z.brokers[n].streamAddr == c.broker.streamAddr
              && z.brokers[n].rack == c.broker.rack && z.brokers[n].session > 0
              && (n in m.brokers ==> z.brokers[n].session == m.brokers[n].session + 1)
            else if c.FenceBroker? && c.id == n then z.brokers[n] == m.brokers[n].(fenced := c.fenced)
            else z.brokers[n] == m.brokers[n])
  {
    hide CleanISR, ShrinkISR, NewPartitions;
  }

  /** A partition comes to be exactly with its topic, unled, in term 0 and with its whole placement in sync. */
  lemma CreatedIff(m: Meta, c: Command, k: PartitionKey)
    requires m.Valid() && k !in m.partitions
    ensures k in Apply(m, c).meta.partitions <==>
      && c.CreateTopic? && c.name == k.topic && k.id < |c.placements|
      && c.name !in m.topics && c.topic.partitions == |c.placements|
    ensures k in Apply(m, c).meta.partitions ==>
      Apply(m, c).meta.partitions[k] == Assignment("", 0, c.placements[k.id], c.placements[k.id], 1)
  {
    hide CleanISR;
    if c.CreateTopic? && c.name == k.topic && k.id < |c.placements| {
      assert k == PartitionKey(c.name, k.id);
    }
  }

  /** A refused command changes nothing, and every change is counted, of the store and of each partition. */
  lemma VersionsCount(m: Meta, c: Command)
    requires m.Valid()
    ensures var z := Apply(m, c);
      && (!z.ok ==> z.meta == m) && (z.meta == m || z.meta.version == m.version + 1)
      && forall k :: k in m.partitions ==> k in z.meta.partitions && Counted(m.partitions[k], z.meta.partitions[k])
  {
    hide CleanISR;
    forall k | k in m.partitions
      ensures k in Apply(m, c).meta.partitions && Counted(m.partitions[k], Apply(m, c).meta.partitions[k])
    {
      assert k.topic in m.topics;
    }
  }

  predicate Counted(a: Assignment, b: Assignment) {
    b == a || b.version == a.version + 1
  }

  // --- order -------------------------------------------------------------

  /** r is s with some elements left out. */
  predicate Subsequence(r: seq<Node>, s: seq<Node>)
    decreases |s|
  {
    r == [] || (s != [] && if r[0] == s[0] then Subsequence(r[1..], s[1..]) else Subsequence(r, s[1..]))
  }

  lemma {:induction false} WithoutInOrder(s: seq<Node>, n: Node)
    ensures Subsequence(Without(s, n), s)
    decreases |s|
  {
    if s != [] {
      WithoutInOrder(s[1..], n);
      if s[0] == n { Skipped(Without(s[1..], n), s); } else { KeptFirst(s, Without(s[1..], n)); }
    }
  }

  lemma KeptFirst(s: seq<Node>, r: seq<Node>)
    requires s != [] && Subsequence(r, s[1..])
    ensures Subsequence([s[0]] + r, s)
  {
    assert ([s[0]] + r)[1..] == r;
  }

  lemma {:induction false} OnlyInOrder(s: seq<Node>, allowed: seq<Node>)
    ensures Subsequence(Only(s, allowed), s)
    decreases |s|
  {
    if s != [] {
      OnlyInOrder(s[1..], allowed);
      if s[0] in allowed { KeptFirst(s, Only(s[1..], allowed)); } else { Skipped(Only(s[1..], allowed), s); }
    }
  }

  /** A report is kept in the order of first mention. */
  lemma {:induction false} CleanInOrder(report: seq<Node>, replicas: seq<Node>, acc: seq<Node>)
    requires CleanISR(report, replicas, acc).Some?
    ensures var c := CleanISR(report, replicas, acc).value; acc <= c && Subsequence(c[|acc|..], report)
    decreases |report|
  {
    var c := CleanISR(report, replicas, acc).value;
    if report == [] {
      assert c[|acc|..] == [];
    } else if report[0] in acc {
      CleanInOrder(report[1..], replicas, acc);
      Skipped(c[|acc|..], report);
    } else {
      var acc' := acc + [report[0]];
      CleanInOrder(report[1..], replicas, acc');
      assert c[|acc|..] == [report[0]] + c[|acc'|..];
      assert c[|acc|..][1..] == c[|acc'|..];
    }
  }

  lemma {:induction false} Skipped(r: seq<Node>, s: seq<Node>)
    requires s != [] && Subsequence(r, s[1..])
    ensures Subsequence(r, s)
    decreases |s|, 0
  {
    if r != [] && r[0] == s[0] { TailOf(r, s[1..]); }
  }

  lemma {:induction false} TailOf(r: seq<Node>, s: seq<Node>)
    requires r != [] && Subsequence(r, s)
    ensures Subsequence(r[1..], s)
    decreases |s|, 1
  {
    if r[0] == s[0] {
      Skipped(r[1..], s);
    } else {
      TailOf(r, s[1..]);
      Skipped(r[1..], s);
    }
  }
}
