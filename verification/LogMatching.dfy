/** Log matching: replicas that hold the same term at the same sequence hold the same log
    up to there, and an open session keeps the follower a prefix of its leader. */
module LogMatching {
  import opened Records
  import opened EpochHistory
  import opened PartitionLog
  import opened Metadata
  import opened Replication
  import opened SingleWriter

  /** Up to record i, the log is what the leader of that record's term held. */
  predicate InTerm(l: seq<Record>, T: Terms, i: nat)
    requires i < |l|
  {
    var e := l[i].epoch;
    e in T && i < |T[e].log| && l[..i + 1] == T[e].log[..i + 1]
  }

  predicate Chain(l: seq<Record>, T: Terms) {
    forall i :: 0 <= i < |l| ==> InTerm(l, T, i)
  }

  predicate WireOk(wire: seq<Record>, l: seq<Record>) {
    forall i :: 0 <= i < |wire| ==> 1 <= wire[i].seqno <= |l| && l[wire[i].seqno - 1] == wire[i]
  }

  predicate SessionOk(nodes: map<Node, Replica>, r: Replica) {
    r.phase.Streaming? ==>
      && r.phase.server in nodes
      && r.log.recs <= nodes[r.phase.server].log.recs
      && WireOk(r.phase.wire, nodes[r.phase.server].log.recs)
  }

  /** A log with records has history, and it reaches back to the retention horizon. */
  predicate Rooted(p: PLog) {
    && (p.recs != [] ==> p.hist != [])
    && (p.hist != [] ==> p.hist[0].start <= p.first)
  }

  /** A session goes to the node being followed, never to the node itself. */
  predicate OutwardSession(n: Node, r: Replica) {
    && (r.follow == n ==> n == "")
    && (!r.phase.Idle? ==> r.phase.server == r.follow && r.follow != "")
  }

  ghost predicate Matching(s: Cluster, T: Terms) {
    && Writers(s, T)
    && (forall n :: n in s.nodes ==> Chain(s.nodes[n].log.recs, T))
    && (forall n :: n in s.nodes ==> Rooted(s.nodes[n].log))
    && (forall n :: n in s.nodes ==> SessionOk(s.nodes, s.nodes[n]))
    && (forall n :: n in s.nodes ==> OutwardSession(n, s.nodes[n]))
    && (forall e :: e in T ==> Chain(T[e].log, T))
  }

  predicate ServedBy(r: Replica, m: Node) {
    !r.phase.Idle? && r.phase.server == m
  }

  predicate Serving(s: Cluster, m: Node) {
    exists n :: n in s.nodes && ServedBy(s.nodes[n], m)
  }

  /** The records a follower keeps when it settles an answer. */
  function Kept(r: Replica): nat
    requires r.phase.Answered?
  {
    if r.phase.end >= r.log.Next() then |r.log.recs| else if r.phase.end == 0 then 0 else r.phase.end - 1
  }

  /** The two logs carry the same term at sequence k (or k is 0). */
  predicate EpochsMeet(l: seq<Record>, m: seq<Record>, k: nat) {
    k == 0 || (k <= |l| && k <= |m| && l[k - 1].epoch == m[k - 1].epoch)
  }

  predicate Truncates(r: Replica)
    requires r.phase.Answered?
  {
    r.log.first < r.phase.end < r.log.Next()
  }

  /** Settling is sound: the follower and its leader agree on the term of the last record
      kept, and a follower that discards records is not itself serving a session. */
  predicate Faithful(s: Cluster, step: Step)
    requires s.Shaped()
  {
    step.Settle? && Settles(s, step.n) && AfterSettle(s.nodes[step.n]).phase.Streaming? ==>
      var r := s.nodes[step.n];
      && EpochsMeet(r.log.recs, s.nodes[r.phase.server].log.recs, Kept(r))
      && (Truncates(r) ==> !Serving(s, step.n))
  }

  lemma ChainGrows(l: seq<Record>, T: Terms, T': Terms)
    requires Chain(l, T) && Grows(T, T')
    ensures Chain(l, T')
  {
    forall i | 0 <= i < |l| ensures InTerm(l, T', i) {
      assert InTerm(l, T, i);
    }
  }

  lemma ChainPrefix(l: seq<Record>, m: seq<Record>, T: Terms)
    requires l <= m && Chain(m, T)
    ensures Chain(l, T)
  {
    forall i | 0 <= i < |l| ensures InTerm(l, T, i) {
      assert InTerm(m, T, i) && l[..i + 1] == m[..i + 1];
    }
  }

  /** Two logs that meet in one term at sequence k are equal up to k. */
  lemma ChainsMeet(l: seq<Record>, m: seq<Record>, T: Terms, k: nat)
    requires Chain(l, T) && Chain(m, T) && EpochsMeet(l, m, k)
    ensures k > 0 ==> l[..k] == m[..k]
  {
    if k > 0 { assert InTerm(l, T, k - 1) && InTerm(m, T, k - 1); }
  }

  lemma SessionGrows(nodes: map<Node, Replica>, n: Node, q: Replica, r: Replica)
    requires n in nodes && SessionOk(nodes, r)
    requires ServedBy(r, n) ==> nodes[n].log.recs <= q.log.recs
    ensures SessionOk(nodes[n := q], r)
  {
  }

  /** One node changed; every log still follows its terms and every session its leader. */
  lemma UpdateMatching(s: Cluster, T: Terms, T': Terms, n: Node, q: Replica)
    requires Matching(s, T) && n in s.nodes && Writers(s.With(n, q), T') && Grows(T, T')
    requires Chain(q.log.recs, T') && Rooted(q.log) && SessionOk(s.nodes[n := q], q) && OutwardSession(n, q)
    requires forall e :: e in T' ==> Chain(T'[e].log, T')
    requires s.nodes[n].log.recs <= q.log.recs || !Serving(s, n)
    ensures Matching(s.With(n, q), T')
  {
    hide Writers, Chain, Rooted, SessionOk, OutwardSession, Grows;
    forall m | m in s.nodes && m != n
      ensures Chain(s.nodes[m].log.recs, T') && SessionOk(s.nodes[n := q], s.nodes[m])
    {
      ChainGrows(s.nodes[m].log.recs, T, T');
      SessionGrows(s.nodes, n, q, s.nodes[m]);
    }
  }

  lemma MatchFact(s: Cluster, T: Terms, n: Node)
    requires Matching(s, T) && n in s.nodes
    ensures Chain(s.nodes[n].log.recs, T) && Rooted(s.nodes[n].log) && SessionOk(s.nodes, s.nodes[n])
    ensures OutwardSession(n, s.nodes[n])
    ensures Writers(s, T) && s.nodes[n].log.WellFormed() && NodeOk(s.history, s.key, T, n, s.nodes[n])
  {
  }

  /** A change that keeps the records, and the session unless it closes it. */
  lemma SameRecordsMatching(s: Cluster, T: Terms, n: Node, q: Replica)
    requires Matching(s, T) && n in s.nodes && Writers(s.With(n, q), T)
    requires q.log.recs == s.nodes[n].log.recs && Rooted(q.log) && SessionOk(s.nodes, q) && OutwardSession(n, q)
    ensures Matching(s.With(n, q), T)
  {
    hide Writers, Chain, Rooted;
    MatchFact(s, T, n);
    GrowsReflexive(T);
    UpdateMatching(s, T, T, n, q);
  }

  /** A follower's log became a prefix of what its leader holds. */
  lemma FollowMatching(s: Cluster, T: Terms, n: Node, q: Replica, server: Node)
    requires Matching(s, T) && n in s.nodes && server in s.nodes && server != n && Writers(s.With(n, q), T)
    requires q.log.recs <= s.nodes[server].log.recs && Rooted(q.log) && OutwardSession(n, q)
    requires q.phase.Streaming? ==> q.phase.server == server && WireOk(q.phase.wire, s.nodes[server].log.recs)
    requires s.nodes[n].log.recs <= q.log.recs || !Serving(s, n)
    ensures Matching(s.With(n, q), T)
  {
    hide Writers, Chain, Rooted, Serving, WireOk;
    MatchFact(s, T, server);
    ChainPrefix(q.log.recs, s.nodes[server].log.recs, T);
    GrowsReflexive(T);
    UpdateMatching(s, T, T, n, q);
  }

  lemma AppendRooted(p: PLog, r: Record)
    requires p.WellFormed() && Rooted(p)
    ensures p.cur > 0 ==> Rooted(p.Append(r).log)
    ensures r.epoch > 0 ==> Rooted(p.AppendReplicated(r).log)
  {
  }

  lemma CutRooted(p: PLog, s: nat)
    requires p.WellFormed() && Rooted(p)
    ensures Rooted(p.TruncateTo(s).log) && Rooted(p.Retain(s))
  {
    if p.first < s < p.Next() && p.hist != [] { assert p.hist[0].start < s; }
  }

  lemma CommitMatching(s: Cluster, T: Terms, c: Command)
    requires Matching(s, T)
    ensures Matching(s.(history := s.history + [Apply(s.history[|s.history| - 1], c).meta]), T)
  {
    CommitOk(s, T, c);
  }

  lemma PassMatching(s: Cluster, T: Terms, n: Node, view: nat, rebuilt: bool)
    requires Matching(s, T) && n in s.nodes && s.nodes[n].view <= view < |s.history|
    ensures var e, r := EpochIn(s.history[view], s.key), s.nodes[n];
      var opens := Led(s.history[view], s.key, n) && r.promoted < e && r.log.cur < e;
      var T' := if opens then T[e := Term(n, view, r.log.Next(), r.log.recs)] else T;
      Matching(s.With(n, ReconcilePass(r, s.history[view], s.key, n, view, rebuilt)), T')
  {
    hide Writers, ReconcilePass, Matching, Chain, Grows, Led, EpochIn, PLog.WellFormed, NodeOk, WireOk;
    var e, r := EpochIn(s.history[view], s.key), s.nodes[n];
    var q := ReconcilePass(r, s.history[view], s.key, n, view, rebuilt);
    MatchFact(s, T, n);
    PassOk(s, T, n, view, rebuilt);
    PassGives(s, T, n, view, rebuilt);
    MatchingFacts(s, T);
    if Led(s.history[view], s.key, n) && r.promoted < e && r.log.cur < e {
      var T' := T[e := Term(n, view, r.log.Next(), r.log.recs)];
      forall d | d in T' ensures Chain(T'[d].log, T') {
        ChainGrows(if d == e then r.log.recs else T[d].log, T, T');
      }
      ChainGrows(r.log.recs, T, T');
      StartsInRange(r.log);
      UpdateMatching(s, T, T', n, q);
    } else {
      SameRecordsMatching(s, T, n, q);
    }
  }

  lemma StartsInRange(p: PLog)
    requires p.WellFormed()
    ensures 1 <= p.first <= p.Next()
  {
  }

  lemma MatchingFacts(s: Cluster, T: Terms)
    requires Matching(s, T)
    ensures Writers(s, T) && forall e :: e in T ==> Chain(T[e].log, T)
  {
  }

  /** The shape a pass leaves behind, from the invariant. */
  lemma PassGives(s: Cluster, T: Terms, n: Node, view: nat, rebuilt: bool)
    requires Writers(s, T) && n in s.nodes && s.nodes[n].view <= view < |s.history|
    ensures PassResult(s.history[view], s.key, T, n, view, s.nodes[n],
                       ReconcilePass(s.nodes[n], s.history[view], s.key, n, view, rebuilt))
  {
    hide Writers, LeadsAt, ReconcilePass, PassResult, PLog.WellFormed;
    NodeFact(s, T, n);
    if Led(s.history[view], s.key, n) { GrantedTermHeld(s, T, n, view); }
    PassOutcome(s.history[view], s.key, T, n, view, s.nodes[n], rebuilt);
  }

  lemma AppendMatching(s: Cluster, T: Terms, n: Node, rec: Record)
    requires Matching(s, T) && n in s.nodes && s.nodes[n].log.leading && !Ephemeral(rec)
    ensures s.nodes[n].log.cur in T
    ensures var r := s.nodes[n];
      var p := r.log.Append(rec).log;
      var T' := T[r.log.cur := T[r.log.cur].(log := p.recs)];
      Matching(s.With(n, r.(log := p)), T')
  {
    hide Writers, Matching, Chain, Grows, PLog.WellFormed, WireOk, LeadsAt;
    var r := s.nodes[n];
    MatchFact(s, T, n);
    AppendOk(s, T, n, rec);
    MatchingFacts(s, T);
    HeldTermIsOk(s, T, n);
    AppendRooted(r.log, rec);
    var e, p := r.log.cur, r.log.Append(rec).log;
    var T' := T[e := T[e].(log := p.recs)];
    ExtendChain(r.log.recs, r.log.Stamp(rec), T, T');
    forall d | d in T' ensures Chain(T'[d].log, T') {
      if d != e { ChainGrows(T[d].log, T, T'); }
    }
    UpdateMatching(s, T, T', n, r.(log := p));
  }

  lemma ExtendChain(l: seq<Record>, x: Record, T: Terms, T': Terms)
    requires Chain(l, T) && Grows(T, T') && x.epoch in T' && T'[x.epoch].log == l + [x]
    ensures Chain(l + [x], T')
  {
    ChainGrows(l, T, T');
    forall i | 0 <= i < |l + [x]| ensures InTerm(l + [x], T', i) {
      if i < |l| { assert InTerm(l, T', i) && (l + [x])[..i + 1] == l[..i + 1]; }
    }
  }

  lemma QueryMatching(s: Cluster, T: Terms, n: Node)
    requires Matching(s, T) && Asks(s, n) && s.nodes[s.nodes[n].follow].log.WellFormed()
    ensures Matching(s.With(n, AfterQuery(s.nodes[n], s.nodes[n].follow, s.nodes[s.nodes[n].follow].log)), T)
  {
    hide Writers, Matching, Chain, Grows, LeadsAt;
    MatchFact(s, T, n);
    QueryOk(s, T, n);
    var r := s.nodes[n];
    RootedEpoch(r.log);
    var q := AfterQuery(r, r.follow, s.nodes[r.follow].log);
    if q.phase.Streaming? { assert q.log.recs == []; }
    SameRecordsMatching(s, T, n, q);
  }

  lemma RootedEpoch(p: PLog)
    requires p.WellFormed() && Rooted(p)
    ensures LatestEpoch(p.hist) == UNDEFINED_EPOCH ==> p.recs == []
  {
  }

  /** Settling leaves the follower holding its first Kept records. */
  lemma SettleKeeps(r: Replica)
    requires r.log.WellFormed() && r.phase.Answered?
    ensures var q := AfterSettle(r);
      && (q.phase.Streaming? ==>
            && q.phase == Streaming(r.phase.server, q.log.Next(), [])
            && Kept(r) <= |r.log.recs| && q.log.recs == r.log.recs[..Kept(r)])
      && (!q.phase.Streaming? ==> q == r.(phase := Idle))
      && (!Truncates(r) ==> q.log == r.log)
  {
  }

  lemma SettleMatching(s: Cluster, T: Terms, n: Node)
    requires s.Shaped() && Matching(s, T) && Settles(s, n) && Faithful(s, Settle(n))
    ensures Matching(s.With(n, AfterSettle(s.nodes[n])), T)
  {
    hide Writers, Matching, Chain, Grows, LeadsAt, PLog.WellFormed, AfterSettle, Serving, EpochsMeet, WireOk;
    var r := s.nodes[n];
    MatchFact(s, T, n);
    MatchFact(s, T, r.phase.server);
    SettleOk(s, T, n);
    SettleKeeps(r);
    CutRooted(r.log, r.phase.end);
    var q := AfterSettle(r);
    SettleRooted(r);
    if q.phase.Streaming? {
      var m := s.nodes[r.phase.server].log.recs;
      ChainsMeet(r.log.recs, m, T, Kept(r));
      EmptyWire(m);
      MeetIsPrefix(r.log.recs, m, Kept(r));
      FollowMatching(s, T, n, q, r.phase.server);
    } else {
      SameRecordsMatching(s, T, n, q);
    }
  }

  lemma MeetIsPrefix(l: seq<Record>, m: seq<Record>, k: nat)
    requires k <= |l| && EpochsMeet(l, m, k) && (k > 0 ==> l[..k] == m[..k])
    ensures l[..k] <= m
  {
  }

  lemma EmptyWire(m: seq<Record>)
    ensures WireOk([], m)
  {
  }

  lemma SettleRooted(r: Replica)
    requires r.log.WellFormed() && Rooted(r.log) && r.phase.Answered?
    ensures Rooted(AfterSettle(r).log)
  {
    CutRooted(r.log, r.phase.end);
  }

  lemma ShipMatching(s: Cluster, T: Terms, n: Node, count: nat)
    requires Matching(s, T) && Streams(s, n)
    ensures Matching(s.With(n, AfterShip(s.nodes[n], s.nodes[s.nodes[n].phase.server].log, count)), T)
  {
    hide Writers, Matching, Chain, Grows, LeadsAt;
    MatchFact(s, T, n);
    MatchFact(s, T, s.nodes[n].phase.server);
    ShipOk(s, T, n, count);
    SameRecordsMatching(s, T, n, AfterShip(s.nodes[n], s.nodes[s.nodes[n].phase.server].log, count));
  }

  /** An applied record is the leader's record at that sequence. */
  lemma DeliverExtends(r: Replica, drop: nat, l: seq<Record>)
    requires r.phase.Streaming? && r.phase.wire != [] && r.log.WellFormed() && Rooted(r.log)
    requires r.log.recs <= l && WireOk(r.phase.wire, l) && r.phase.wire[0].epoch > 0
    ensures var q := AfterDeliver(r, drop);
      && r.log.recs <= q.log.recs <= l && Rooted(q.log)
      && (q.phase.Idle? || (q.phase.Streaming? && q.phase.server == r.phase.server && WireOk(q.phase.wire, l)))
  {
    hide Rooted;
    AppendRooted(r.log, r.phase.wire[0]);
  }

  lemma DeliverMatching(s: Cluster, T: Terms, n: Node, drop: nat)
    requires Matching(s, T) && Delivers(s, n)
    ensures Matching(s.With(n, AfterDeliver(s.nodes[n], drop)), T)
  {
    hide Writers, Matching, Chain, Grows, LeadsAt, PLog.WellFormed, AfterDeliver, Rooted, WireOk, Serving;
    var r := s.nodes[n];
    MatchFact(s, T, n);
    WireEpochPositive(s, T, n);
    DeliverOk(s, T, n, drop);
    DeliverExtends(r, drop, s.nodes[r.phase.server].log.recs);
    var q := AfterDeliver(r, drop);
    FollowMatching(s, T, n, q, r.phase.server);
  }

  lemma WireEpochPositive(s: Cluster, T: Terms, n: Node)
    requires Writers(s, T) && Delivers(s, n)
    ensures s.nodes[n].phase.wire[0].epoch > 0
  {
    NodeFact(s, T, n);
    assert TermOk(s.history, s.key, s.nodes, T, s.nodes[n].phase.wire[0].epoch);
  }

  lemma DropMatching(s: Cluster, T: Terms, n: Node, q: Replica)
    requires Matching(s, T) && n in s.nodes
    requires var r := s.nodes[n];
      || q == r.(phase := Idle)
      || q == r.(log := r.log.Resign(), promoted := 0, follow := "", phase := Idle)
    ensures Matching(s.With(n, q), T)
  {
    hide Writers, Matching, LeadsAt;
    MatchFact(s, T, n);
    DropOk(s, T, n, q);
    SameRecordsMatching(s, T, n, q);
  }

  lemma ExpireMatching(s: Cluster, T: Terms, n: Node, first: nat)
    requires Matching(s, T) && n in s.nodes && s.nodes[n].log.WellFormed()
    ensures Matching(s.With(n, s.nodes[n].(log := s.nodes[n].log.Retain(first))), T)
  {
    hide Writers, Matching, LeadsAt, PLog.WellFormed, Rooted, Chain, WireOk;
    var r := s.nodes[n];
    MatchFact(s, T, n);
    ExpireOk(s, T, n, first);
    CutRooted(r.log, first);
    SameRecordsMatching(s, T, n, r.(log := r.log.Retain(first)));
  }

  lemma StepMatching(s: Cluster, T: Terms, step: Step)
    requires s.Shaped() && Matching(s, T) && Faithful(s, step)
    ensures Matching(Exec(s, step), NextTerms(s, T, step))
  {
    hide Matching, ReconcilePass, AfterQuery, AfterSettle, AfterShip, AfterDeliver, PLog.Append, PLog.Retain, Apply;
    hide Faithful;
    match step
    case Commit(c) => CommitMatching(s, T, c);
    case Pass(n, view, rebuilt) =>
      if n in s.nodes && s.nodes[n].view <= view < |s.history| { PassMatching(s, T, n, view, rebuilt); }
    case LocalAppend(n, r) => if Appends(s, step) { AppendMatching(s, T, n, r); }
    case Query(n) => if Asks(s, n) { QueryMatching(s, T, n); }
    case Settle(n) => if Settles(s, n) { SettleMatching(s, T, n); }
    case Ship(n, count) => if Streams(s, n) { ShipMatching(s, T, n, count); }
    case Deliver(n, drop) => if Delivers(s, n) { DeliverMatching(s, T, n, drop); }
    case Disconnect(n) => if n in s.nodes { DropMatching(s, T, n, Exec(s, step).nodes[n]); }
    case Restart(n) => if n in s.nodes { DropMatching(s, T, n, Exec(s, step).nodes[n]); }
    case Expire(n, first) => if n in s.nodes { ExpireMatching(s, T, n, first); }
  }

  /** Every settled reconciliation along the run is faithful. */
  predicate FaithfulRun(s: Cluster, steps: seq<Step>)
    requires s.Shaped()
  {
    forall i :: 0 <= i < |steps| ==> Faithful(Run(s, steps[..i]), steps[i])
  }

  lemma InitMatching(s: Cluster)
    requires Init(s)
    ensures Matching(s, map[])
  {
    hide Writers;
    InitOk(s);
  }

  lemma {:induction false} RunMatching(s: Cluster, steps: seq<Step>)
    requires Init(s) && FaithfulRun(s, steps)
    ensures Matching(Run(s, steps), TermsAfter(s, steps))
    decreases |steps|
  {
    hide Exec, NextTerms, Matching, Faithful, Init, Cluster.Shaped;
    if steps == [] {
      InitMatching(s);
    } else {
      var last := |steps| - 1;
      var prev := steps[..last];
      assert forall i :: 0 <= i < |prev| ==> prev[..i] == steps[..i] && prev[i] == steps[i];
      RunMatching(s, prev);
      StepMatching(Run(s, prev), TermsAfter(s, prev), steps[last]);
    }
  }

  /** In every faithful run, replicas with the same term at the same sequence are identical
      up to there, and an open session keeps the follower a prefix of its leader. */
  lemma LogsMatch(s: Cluster, steps: seq<Step>, n: Node, m: Node, i: nat)
    requires Init(s) && FaithfulRun(s, steps) && n in s.nodes && m in s.nodes
    ensures var z := Run(s, steps).nodes;
      && (i < |z[n].log.recs| && i < |z[m].log.recs| && z[n].log.recs[i].epoch == z[m].log.recs[i].epoch ==>
            z[n].log.recs[..i + 1] == z[m].log.recs[..i + 1])
      && (z[n].phase.Streaming? && z[n].phase.server == m ==> z[n].log.recs <= z[m].log.recs)
  {
    hide Exec, Init, Writers;
    RunMatching(s, steps);
    var z, T := Run(s, steps).nodes, TermsAfter(s, steps);
    var l, k := z[n].log.recs, z[m].log.recs;
    if i < |l| && i < |k| && l[i].epoch == k[i].epoch { ChainsMeet(l, k, T, i + 1); }
  }

  /** The condition on settling is exact: whatever the leader answered, the records kept are
      a prefix of the leader's log if and only if the last of them has the leader's term. */
  lemma KeptIsPrefixIff(s: Cluster, T: Terms, n: Node)
    requires Matching(s, T) && Settles(s, n) && s.nodes[n].log.WellFormed()
    requires AfterSettle(s.nodes[n]).phase.Streaming?
    ensures var r := s.nodes[n];
      var m := s.nodes[r.phase.server].log.recs;
      AfterSettle(r).log.recs <= m <==> EpochsMeet(r.log.recs, m, Kept(r))
  {
    hide Writers, AfterSettle;
    var r := s.nodes[n];
    var m := s.nodes[r.phase.server].log.recs;
    SettleKeeps(r);
    if EpochsMeet(r.log.recs, m, Kept(r)) {
      ChainsMeet(r.log.recs, m, T, Kept(r));
      MeetIsPrefix(r.log.recs, m, Kept(r));
    }
  }

  /** Why a serving node must not truncate: its session stays a prefix of what it keeps exactly
      when the follower had not got further than that. */
  lemma ServingTruncationIff(s: Cluster, T: Terms, n: Node, m: Node)
    requires Matching(s, T) && Settles(s, m) && n in s.nodes && s.nodes[m].log.WellFormed()
    requires s.nodes[n].phase.Streaming? && s.nodes[n].phase.server == m && AfterSettle(s.nodes[m]).phase.Streaming?
    ensures s.nodes[n].log.recs <= AfterSettle(s.nodes[m]).log.recs <==> |s.nodes[n].log.recs| <= Kept(s.nodes[m])
  {
    hide Writers, AfterSettle;
    SettleKeeps(s.nodes[m]);
    MatchFact(s, T, n);
  }
}
