/** Each term has at most one writer, and it never writes the same sequence twice.

    The proof follows every term's log: what its leader held when it opened the term,
    plus everything it has written since. */
module SingleWriter {
  import opened Records
  import opened EpochHistory
  import opened PartitionLog
  import opened Metadata
  import opened Replication

  /** `at` is the metadata version that granted the term, `start` the first sequence it
      could write, `log` the leader's whole log under the term. */
  datatype Term = Term(owner: Node, at: nat, start: nat, log: seq<Record>)

  type Terms = map<nat, Term>

  /** A pass that opens a new term, as opposed to reasserting one or doing nothing. */
  predicate Opens(s: Cluster, step: Step)
    requires s.Shaped()
  {
    && step.Pass? && step.n in s.nodes && s.nodes[step.n].view <= step.view < |s.history|
    && Led(s.history[step.view], s.key, step.n)
    && s.nodes[step.n].promoted < OpenedEpoch(s, step)
    && s.nodes[step.n].log.cur < OpenedEpoch(s, step)
  }

  function OpenedEpoch(s: Cluster, step: Step): nat
    requires step.Pass? && step.view < |s.history|
  {
    EpochIn(s.history[step.view], s.key)
  }

  function NextTerms(s: Cluster, T: Terms, step: Step): Terms
    requires s.Shaped()
  {
    if Appends(s, step) then
      var p := s.nodes[step.n].log;
      if p.cur in T then T[p.cur := T[p.cur].(log := p.Append(step.r).log.recs)] else T
    else if Opens(s, step) then
      var p := s.nodes[step.n].log;
      T[OpenedEpoch(s, step) := Term(step.n, step.view, p.Next(), p.recs)]
    else T
  }

  /** Terms are never forgotten, re-granted or shortened. */
  predicate Grows(T: Terms, T': Terms) {
    forall e :: e in T ==> e in T' && T'[e].(log := T[e].log) == T[e] && T[e].log <= T'[e].log
  }

  /** Version v of the metadata says that n leads partition k under term e. */
  predicate LeadsAt(h: seq<Meta>, k: PartitionKey, v: nat, n: Node, e: nat) {
    v < |h| && Led(h[v], k, n) && EpochIn(h[v], k) == e
  }

  /** Over the agreed history a partition's term only rises, and each term has one leader. */
  predicate HistoryOk(h: seq<Meta>, k: PartitionKey) {
    forall i, j :: 0 <= i <= j < |h| && k in h[i].partitions ==>
      && k in h[j].partitions
      && h[i].partitions[k].epoch <= h[j].partitions[k].epoch
      && (h[i].partitions[k].epoch == h[j].partitions[k].epoch ==>
            h[i].partitions[k].leader == h[j].partitions[k].leader)
  }

  predicate KnownEpochs(recs: seq<Record>, T: Terms) {
    forall i :: 0 <= i < |recs| ==> recs[i].epoch in T
  }

  predicate KnownHistory(hist: seq<Entry>, T: Terms) {
    forall i :: 0 <= i < |hist| ==> hist[i].epoch in T
  }

  /** The node holds exactly the log of term e and fetches from nobody. */
  predicate HoldsTerm(r: Replica, T: Terms, n: Node, e: nat) {
    e in T && T[e].owner == n && T[e].log == r.log.recs && r.log.cur == e && r.follow == ""
  }

  predicate NodeOk(h: seq<Meta>, k: PartitionKey, T: Terms, n: Node, r: Replica) {
    && (r.promoted > 0 <==> r.log.leading)
    && (r.log.leading ==> HoldsTerm(r, T, n, r.promoted))
    && (r.follow == "" ==> r.phase.Idle?)
    && (forall e :: e in T && LeadsAt(h, k, r.view, n, e) ==> HoldsTerm(r, T, n, e))
    && KnownEpochs(r.log.recs, T) && KnownHistory(r.log.hist, T)
    && (r.phase.Streaming? ==> KnownEpochs(r.phase.wire, T))
  }

  predicate TermOk(h: seq<Meta>, k: PartitionKey, nodes: map<Node, Replica>, T: Terms, e: nat)
    requires e in T
  {
    var t := T[e];
    && e > 0 && t.owner in nodes && t.at <= nodes[t.owner].view && LeadsAt(h, k, t.at, t.owner, e)
    && 1 <= t.start <= |t.log| + 1
    && KnownEpochs(t.log, T)
  }

  ghost predicate Writers(s: Cluster, T: Terms) {
    && s.Shaped() && HistoryOk(s.history, s.key)
    && (forall n :: n in s.nodes ==> NodeOk(s.history, s.key, T, n, s.nodes[n]))
    && (forall e :: e in T ==> TermOk(s.history, s.key, s.nodes, T, e))
  }

  lemma NodeFact(s: Cluster, T: Terms, n: Node)
    requires Writers(s, T) && n in s.nodes
    ensures NodeOk(s.history, s.key, T, n, s.nodes[n]) && s.nodes[n].log.WellFormed()
  {
  }

  lemma CommitKeepsHistory(s: Cluster, c: Command)
    requires s.Shaped() && HistoryOk(s.history, s.key)
    ensures HistoryOk(s.history + [Apply(s.history[|s.history| - 1], c).meta], s.key)
  {
    hide Apply;
    TermsNeverReused(s.history[|s.history| - 1], c, s.key);
  }

  /** Two grants of one term name the same node. */
  lemma OneLeaderPerTerm(h: seq<Meta>, k: PartitionKey, v: nat, n: Node, w: nat, m: Node, e: nat)
    requires HistoryOk(h, k) && LeadsAt(h, k, v, n, e) && LeadsAt(h, k, w, m, e)
    ensures n == m
  {
  }

  /** Between two versions that grant n the same term, every version does. */
  lemma GrantHolds(h: seq<Meta>, k: PartitionKey, v: nat, u: nat, w: nat, n: Node, e: nat)
    requires HistoryOk(h, k) && v <= u <= w && LeadsAt(h, k, v, n, e) && LeadsAt(h, k, w, n, e)
    ensures LeadsAt(h, k, u, n, e)
  {
  }

  lemma KnownGrows(recs: seq<Record>, hist: seq<Entry>, T: Terms, T': Terms)
    requires Grows(T, T')
    ensures KnownEpochs(recs, T) ==> KnownEpochs(recs, T')
    ensures KnownHistory(hist, T) ==> KnownHistory(hist, T')
  {
  }

  /** A node that did not act keeps its invariant when only the actor's term changes. */
  lemma BystanderOk(h: seq<Meta>, k: PartitionKey, T: Terms, e: nat, t: Term, n: Node, r: Replica)
    requires HistoryOk(h, k) && NodeOk(h, k, T, n, r) && Grows(T, T[e := t])
    requires n != t.owner && LeadsAt(h, k, t.at, t.owner, e)
    ensures NodeOk(h, k, T[e := t], n, r)
  {
    var T' := T[e := t];
    KnownGrows(r.log.recs, r.log.hist, T, T');
    if r.phase.Streaming? { KnownGrows(r.phase.wire, [], T, T'); }
    forall d | d in T' && LeadsAt(h, k, r.view, n, d) ensures HoldsTerm(r, T', n, d) {
      if d == e { OneLeaderPerTerm(h, k, r.view, n, t.at, t.owner, e); }
    }
  }

  lemma TermStays(h: seq<Meta>, k: PartitionKey, nodes: map<Node, Replica>, n: Node, r: Replica,
                  T: Terms, T': Terms, e: nat)
    requires n in nodes && nodes[n].view <= r.view
    requires e in T && e in T' && T'[e] == T[e] && TermOk(h, k, nodes, T, e) && Grows(T, T')
    ensures TermOk(h, k, nodes[n := r], T', e)
  {
    KnownGrows(T[e].log, [], T, T');
  }

  /** A step that changes no term and only one node. */
  lemma QuietStep(s: Cluster, T: Terms, n: Node, r: Replica)
    requires Writers(s, T) && n in s.nodes && r.log.WellFormed()
    requires s.nodes[n].view <= r.view < |s.history|
    requires NodeOk(s.history, s.key, T, n, r)
    ensures Writers(s.With(n, r), T)
  {
    hide NodeOk, TermOk, HistoryOk, PLog.WellFormed;
    UpdateKeepsShape(s, n, r);
    forall e | e in T ensures TermOk(s.history, s.key, s.nodes[n := r], T, e) {
      TermStays(s.history, s.key, s.nodes, n, r, T, T, e);
    }
  }

  /** The actor changed its own term and nothing else. */
  lemma TermStep(s: Cluster, T: Terms, n: Node, r: Replica, e: nat, t: Term)
    requires Writers(s, T) && n in s.nodes && r.log.WellFormed()
    requires s.nodes[n].view <= r.view < |s.history|
    requires t.owner == n && LeadsAt(s.history, s.key, t.at, n, e) && Grows(T, T[e := t])
    requires NodeOk(s.history, s.key, T[e := t], n, r)
    requires TermOk(s.history, s.key, s.nodes[n := r], T[e := t], e)
    ensures Writers(s.With(n, r), T[e := t])
  {
    hide NodeOk, TermOk, HistoryOk, PLog.WellFormed, LeadsAt, Grows;
    var T' := T[e := t];
    UpdateKeepsShape(s, n, r);
    forall m | m in s.nodes && m != n ensures NodeOk(s.history, s.key, T', m, s.nodes[m]) {
      BystanderOk(s.history, s.key, T, e, t, m, s.nodes[m]);
    }
    forall d | d in T' ensures TermOk(s.history, s.key, s.nodes[n := r], T', d) {
      if d != e { TermStays(s.history, s.key, s.nodes, n, r, T, T', d); }
    }
  }

  lemma NodeKeepsOnCommit(h: seq<Meta>, k: PartitionKey, m: Meta, T: Terms, n: Node, r: Replica)
    requires NodeOk(h, k, T, n, r) && r.view < |h|
    ensures NodeOk(h + [m], k, T, n, r)
  {
    assert forall e :: LeadsAt(h + [m], k, r.view, n, e) <==> LeadsAt(h, k, r.view, n, e);
  }

  lemma TermKeepsOnCommit(h: seq<Meta>, k: PartitionKey, m: Meta, nodes: map<Node, Replica>, T: Terms, e: nat)
    requires e in T && TermOk(h, k, nodes, T, e)
    ensures TermOk(h + [m], k, nodes, T, e)
  {
  }

  lemma CommitOk(s: Cluster, T: Terms, c: Command)
    requires Writers(s, T)
    ensures Writers(s.(history := s.history + [Apply(s.history[|s.history| - 1], c).meta]), T)
  {
    hide Apply, NodeOk, TermOk, HistoryOk;
    var m := Apply(s.history[|s.history| - 1], c).meta;
    ApplyKeepsValid(s.history[|s.history| - 1], c);
    CommitKeepsHistory(s, c);
    forall n | n in s.nodes ensures NodeOk(s.history + [m], s.key, T, n, s.nodes[n]) {
      NodeKeepsOnCommit(s.history, s.key, m, T, n, s.nodes[n]);
    }
    forall e | e in T ensures TermOk(s.history + [m], s.key, s.nodes, T, e) {
      TermKeepsOnCommit(s.history, s.key, m, s.nodes, T, e);
    }
  }

  lemma HeldTermIsOk(s: Cluster, T: Terms, n: Node)
    requires Writers(s, T) && n in s.nodes && s.nodes[n].log.leading
    ensures var e := s.nodes[n].log.cur;
      HoldsTerm(s.nodes[n], T, n, e) && TermOk(s.history, s.key, s.nodes, T, e) && s.nodes[n].promoted == e
  {
    NodeFact(s, T, n);
  }

  lemma AppendedNodeOk(h: seq<Meta>, k: PartitionKey, T: Terms, n: Node, r: Replica, rec: Record)
    requires NodeOk(h, k, T, n, r) && r.log.leading && !Ephemeral(rec)
    ensures r.log.cur in T
    ensures var p := r.log.Append(rec).log;
      var T' := T[r.log.cur := T[r.log.cur].(log := p.recs)];
      NodeOk(h, k, T', n, r.(log := p)) && Grows(T, T') && KnownEpochs(p.recs, T')
  {
    var e := r.log.cur;
    var p := r.log.Append(rec).log;
    var r' := r.(log := p);
    var T' := T[e := T[e].(log := p.recs)];
    assert p.recs == r.log.recs + [r.log.Stamp(rec)];
    KnownGrows(r.log.recs, r.log.hist, T, T');
    assert HoldsTerm(r', T', n, e);
    forall d | d in T' && LeadsAt(h, k, r'.view, n, d) ensures HoldsTerm(r', T', n, d) {
      assert d in T && LeadsAt(h, k, r.view, n, d);
    }
  }

  lemma AppendOk(s: Cluster, T: Terms, n: Node, rec: Record)
    requires Writers(s, T) && n in s.nodes && s.nodes[n].log.leading && !Ephemeral(rec)
    ensures s.nodes[n].log.cur in T
    ensures var r := s.nodes[n];
      var p := r.log.Append(rec).log;
      var T' := T[r.log.cur := T[r.log.cur].(log := p.recs)];
      Writers(s.With(n, r.(log := p)), T') && Grows(T, T')
  {
    hide NodeOk, Writers, PLog.WellFormed, LeadsAt;
    var r := s.nodes[n];
    NodeFact(s, T, n);
    HeldTermIsOk(s, T, n);
    AppendKeepsWellFormed(r.log, rec);
    AppendedNodeOk(s.history, s.key, T, n, r, rec);
    ShapedFact(s, T);
    var p := r.log.Append(rec).log;
    TermStep(s, T, n, r.(log := p), r.log.cur, T[r.log.cur].(log := p.recs));
  }

  lemma ShapedFact(s: Cluster, T: Terms)
    requires Writers(s, T)
    ensures s.Shaped() && HistoryOk(s.history, s.key)
  {
  }

  /** What a pass makes of a node: the records stay, and it leads only under a term it
      was granted, having opened it now or already holding it. */
  predicate PassResult(m: Meta, k: PartitionKey, T: Terms, n: Node, view: nat, r: Replica, q: Replica) {
    var e := EpochIn(m, k);
    var led := Led(m, k, n);
    var opens := led && r.promoted < e && r.log.cur < e;
    && q.log.recs == r.log.recs && q.log.first == r.log.first && q.view == view
    && (opens ==>
          && e !in T && q.log.leading && q.promoted == e && q.log.cur == e
          && q.log.hist == r.log.hist + [Entry(e, r.log.Next())])
    && (!opens ==> q.log.hist == r.log.hist && q.log.cur == r.log.cur)
    && (q.promoted > 0 <==> q.log.leading)
    && (q.log.leading ==> led && q.promoted == e && (!opens ==> HoldsTerm(r, T, n, e)))
    && (led ==> q.follow == "") && (q.follow == "" ==> q.phase.Idle?)
    && (q.phase == Idle || (q.phase == r.phase && q.follow == r.follow))
    && (q.follow == n ==> n == "")
  }

  /** If the granted term is already open, n opened it and still holds its whole log. */
  lemma GrantedTermHeld(s: Cluster, T: Terms, n: Node, view: nat)
    requires Writers(s, T) && n in s.nodes && s.nodes[n].view <= view < |s.history|
    requires Led(s.history[view], s.key, n)
    ensures var e := EpochIn(s.history[view], s.key);
      && (e in T ==> HoldsTerm(s.nodes[n], T, n, e))
      && (s.nodes[n].promoted >= e && s.nodes[n].promoted > 0 ==> e in T && s.nodes[n].promoted == e)
  {
    hide PLog.WellFormed;
    var r := s.nodes[n];
    var e := EpochIn(s.history[view], s.key);
    assert LeadsAt(s.history, s.key, view, n, e);
    NodeFact(s, T, n);
    if e in T {
      assert TermOk(s.history, s.key, s.nodes, T, e);
      OneLeaderPerTerm(s.history, s.key, T[e].at, T[e].owner, view, n, e);
      GrantHolds(s.history, s.key, T[e].at, r.view, view, n, e);
    }
    if r.promoted >= e && r.promoted > 0 {
      assert HoldsTerm(r, T, n, r.promoted);
      assert TermOk(s.history, s.key, s.nodes, T, r.promoted);
    }
  }

  lemma PassOutcome(m: Meta, k: PartitionKey, T: Terms, n: Node, view: nat, r: Replica, rebuilt: bool)
    requires r.log.WellFormed()
    requires (r.promoted > 0 <==> r.log.leading) && (r.log.leading ==> HoldsTerm(r, T, n, r.promoted))
    requires (r.follow == "" ==> r.phase.Idle?) && KnownHistory(r.log.hist, T)
    requires Led(m, k, n) ==>
      && (EpochIn(m, k) in T ==> HoldsTerm(r, T, n, EpochIn(m, k)))
      && (r.promoted >= EpochIn(m, k) && r.promoted > 0 ==> EpochIn(m, k) in T && r.promoted == EpochIn(m, k))
    ensures PassResult(m, k, T, n, view, r, ReconcilePass(r, m, k, n, view, rebuilt))
  {
    assert r.log.cur > 0 ==> r.log.cur in T;
  }

  lemma PassOpens(s: Cluster, T: Terms, n: Node, view: nat, q: Replica)
    requires Writers(s, T) && n in s.nodes && s.nodes[n].view <= view < |s.history|
    requires q.log.WellFormed() && PassResult(s.history[view], s.key, T, n, view, s.nodes[n], q)
    requires var e, r := EpochIn(s.history[view], s.key), s.nodes[n];
      Led(s.history[view], s.key, n) && r.promoted < e && r.log.cur < e
    ensures var e, r := EpochIn(s.history[view], s.key), s.nodes[n];
      var T' := T[e := Term(n, view, r.log.Next(), r.log.recs)];
      Writers(s.With(n, q), T') && Grows(T, T')
  {
    hide Writers, PLog.WellFormed;
    var r := s.nodes[n];
    var e := EpochIn(s.history[view], s.key);
    var t := Term(n, view, r.log.Next(), r.log.recs);
    var T' := T[e := t];
    NodeFact(s, T, n);
    KnownGrows(r.log.recs, r.log.hist, T, T');
    assert HoldsTerm(q, T', n, e);
    assert NodeOk(s.history, s.key, T', n, q) by {
      if r.phase.Streaming? { KnownGrows(r.phase.wire, [], T, T'); }
    }
    TermStep(s, T, n, q, e, t);
  }

  lemma PassKeeps(s: Cluster, T: Terms, n: Node, view: nat, q: Replica)
    requires Writers(s, T) && n in s.nodes && s.nodes[n].view <= view < |s.history|
    requires q.log.WellFormed() && PassResult(s.history[view], s.key, T, n, view, s.nodes[n], q)
    requires var e, r := EpochIn(s.history[view], s.key), s.nodes[n];
      !(Led(s.history[view], s.key, n) && r.promoted < e && r.log.cur < e)
    ensures Writers(s.With(n, q), T)
  {
    hide Writers, PLog.WellFormed;
    NodeFact(s, T, n);
    forall d | d in T && LeadsAt(s.history, s.key, view, n, d) ensures HoldsTerm(q, T, n, d) {
      GrantedTermHeld(s, T, n, view);
    }
    QuietStep(s, T, n, q);
  }

  /** A change that keeps the records, the term and the view. */
  lemma SameLogOk(s: Cluster, T: Terms, n: Node, q: Replica)
    requires Writers(s, T) && n in s.nodes && q.log.WellFormed()
    requires var r := s.nodes[n];
      && q.log.recs == r.log.recs && q.log.cur == r.log.cur && q.view == r.view
      && ((q.log.leading == r.log.leading && q.promoted == r.promoted) || (!q.log.leading && q.promoted == 0))
      && (q.follow == r.follow || q.follow == "") && (q.follow == "" ==> q.phase.Idle?)
      && KnownHistory(q.log.hist, T)
      && (q.phase.Streaming? ==> KnownEpochs(q.phase.wire, T))
    ensures Writers(s.With(n, q), T)
  {
    hide Writers, PLog.WellFormed, LeadsAt;
    NodeFact(s, T, n);
    ViewFact(s, T, n);
    QuietStep(s, T, n, q);
  }

  lemma ViewFact(s: Cluster, T: Terms, n: Node)
    requires Writers(s, T) && n in s.nodes
    ensures s.nodes[n].view < |s.history|
  {
  }

  /** A node in a session holds no term, so its log may change freely. */
  lemma FollowerOk(s: Cluster, T: Terms, n: Node, q: Replica)
    requires Writers(s, T) && n in s.nodes && !s.nodes[n].phase.Idle? && q.log.WellFormed()
    requires q.log.leading == s.nodes[n].log.leading
    requires q.(log := s.nodes[n].log, phase := s.nodes[n].phase) == s.nodes[n]
    requires KnownEpochs(q.log.recs, T) && KnownHistory(q.log.hist, T)
    requires q.phase.Streaming? ==> KnownEpochs(q.phase.wire, T)
    ensures Writers(s.With(n, q), T)
  {
    hide Writers, PLog.WellFormed, LeadsAt;
    NodeFact(s, T, n);
    ViewFact(s, T, n);
    QuietStep(s, T, n, q);
  }

  lemma ShipOk(s: Cluster, T: Terms, n: Node, count: nat)
    requires Writers(s, T) && Streams(s, n)
    ensures Writers(s.With(n, AfterShip(s.nodes[n], s.nodes[s.nodes[n].phase.server].log, count)), T)
  {
    hide Writers, LeadsAt;
    NodeFact(s, T, n);
    NodeFact(s, T, s.nodes[n].phase.server);
    FollowerOk(s, T, n, AfterShip(s.nodes[n], s.nodes[s.nodes[n].phase.server].log, count));
  }

  lemma SettleOk(s: Cluster, T: Terms, n: Node)
    requires Writers(s, T) && Settles(s, n)
    ensures Writers(s.With(n, AfterSettle(s.nodes[n])), T)
  {
    hide Writers, LeadsAt, FirstStartAbove;
    NodeFact(s, T, n);
    SettleKeepsWellFormed(s.nodes[n]);
    FollowerOk(s, T, n, AfterSettle(s.nodes[n]));
  }

  lemma DeliverKnown(r: Replica, drop: nat, T: Terms)
    requires r.phase.Streaming? && r.phase.wire != []
    requires KnownEpochs(r.log.recs, T) && KnownHistory(r.log.hist, T) && KnownEpochs(r.phase.wire, T)
    ensures var q := AfterDeliver(r, drop);
      && KnownEpochs(q.log.recs, T) && KnownHistory(q.log.hist, T) && q.log.leading == r.log.leading
      && (q.phase.Streaming? ==> KnownEpochs(q.phase.wire, T))
  {
  }

  lemma DeliverOk(s: Cluster, T: Terms, n: Node, drop: nat)
    requires Writers(s, T) && Delivers(s, n)
    ensures Writers(s.With(n, AfterDeliver(s.nodes[n], drop)), T)
  {
    hide Writers, LeadsAt, AfterDeliver;
    NodeFact(s, T, n);
    DeliverKeepsWellFormed(s.nodes[n], drop);
    DeliverKnown(s.nodes[n], drop, T);
    FollowerOk(s, T, n, AfterDeliver(s.nodes[n], drop));
  }

  lemma QueryOk(s: Cluster, T: Terms, n: Node)
    requires Writers(s, T) && Asks(s, n)
    requires s.nodes[s.nodes[n].follow].log.WellFormed()
    ensures Writers(s.With(n, AfterQuery(s.nodes[n], s.nodes[n].follow, s.nodes[s.nodes[n].follow].log)), T)
  {
    hide Writers, LeadsAt, PLog.EndOffsetForEpoch;
    NodeFact(s, T, n);
    SameLogOk(s, T, n, AfterQuery(s.nodes[n], s.nodes[n].follow, s.nodes[s.nodes[n].follow].log));
  }

  lemma ExpireOk(s: Cluster, T: Terms, n: Node, first: nat)
    requires Writers(s, T) && n in s.nodes && s.nodes[n].log.WellFormed()
    ensures Writers(s.With(n, s.nodes[n].(log := s.nodes[n].log.Retain(first))), T)
  {
    hide Writers, LeadsAt, PLog.WellFormed;
    var r := s.nodes[n];
    NodeFact(s, T, n);
    RetainKeepsWellFormed(r.log, first);
    SameLogOk(s, T, n, r.(log := r.log.Retain(first)));
  }

  lemma DropOk(s: Cluster, T: Terms, n: Node, q: Replica)
    requires Writers(s, T) && n in s.nodes
    requires var r := s.nodes[n];
      || q == r.(phase := Idle)
      || q == r.(log := r.log.Resign(), promoted := 0, follow := "", phase := Idle)
    ensures Writers(s.With(n, q), T)
  {
    hide Writers, LeadsAt;
    NodeFact(s, T, n);
    SameLogOk(s, T, n, q);
  }

  lemma PassOk(s: Cluster, T: Terms, n: Node, view: nat, rebuilt: bool)
    requires Writers(s, T) && n in s.nodes && s.nodes[n].view <= view < |s.history|
    ensures var e, r := EpochIn(s.history[view], s.key), s.nodes[n];
      var opens := Led(s.history[view], s.key, n) && r.promoted < e && r.log.cur < e;
      var T' := if opens then T[e := Term(n, view, r.log.Next(), r.log.recs)] else T;
      Writers(s.With(n, ReconcilePass(r, s.history[view], s.key, n, view, rebuilt)), T') && Grows(T, T')
  {
    hide Writers, LeadsAt, ReconcilePass, PassResult, PLog.WellFormed;
    var r, m := s.nodes[n], s.history[view];
    NodeFact(s, T, n);
    if Led(m, s.key, n) { GrantedTermHeld(s, T, n, view); }
    PassOutcome(m, s.key, T, n, view, r, rebuilt);
    PassKeepsWellFormed(r, m, s.key, n, view, rebuilt);
    var e, q := EpochIn(m, s.key), ReconcilePass(r, m, s.key, n, view, rebuilt);
    if Led(m, s.key, n) && r.promoted < e && r.log.cur < e {
      PassOpens(s, T, n, view, q);
    } else {
      PassKeeps(s, T, n, view, q);
    }
  }

  lemma StepOk(s: Cluster, T: Terms, step: Step)
    requires s.Shaped() && Writers(s, T)
    ensures Writers(Exec(s, step), NextTerms(s, T, step)) && Grows(T, NextTerms(s, T, step))
  {
    hide Writers, ReconcilePass, AfterQuery, AfterSettle, AfterShip, AfterDeliver, PLog.Append, PLog.Retain, Apply;
    match step
    case Commit(c) => CommitOk(s, T, c);
    case Pass(n, view, rebuilt) =>
      if n in s.nodes && s.nodes[n].view <= view < |s.history| { PassOk(s, T, n, view, rebuilt); }
    case LocalAppend(n, r) => if Appends(s, step) { AppendOk(s, T, n, r); }
    case Query(n) => if Asks(s, n) { QueryOk(s, T, n); }
    case Settle(n) => if Settles(s, n) { SettleOk(s, T, n); }
    case Ship(n, count) => if Streams(s, n) { ShipOk(s, T, n, count); }
    case Deliver(n, drop) => if Delivers(s, n) { DeliverOk(s, T, n, drop); }
    case Disconnect(n) => if n in s.nodes { DropOk(s, T, n, Exec(s, step).nodes[n]); }
    case Restart(n) => if n in s.nodes { DropOk(s, T, n, Exec(s, step).nodes[n]); }
    case Expire(n, first) => if n in s.nodes { ExpireOk(s, T, n, first); }
  }

  /** The terms opened and written during a run. */
  function TermsAfter(s: Cluster, steps: seq<Step>): Terms
    requires s.Shaped()
    decreases |steps|
  {
    if steps == [] then map[]
    else
      var last := |steps| - 1;
      NextTerms(Run(s, steps[..last]), TermsAfter(s, steps[..last]), steps[last])
  }

  lemma InitOk(s: Cluster)
    requires Init(s)
    ensures Writers(s, map[])
  {
  }

  lemma {:induction false} RunOk(s: Cluster, steps: seq<Step>)
    requires Init(s)
    ensures Writers(Run(s, steps), TermsAfter(s, steps))
    decreases |steps|
  {
    hide Exec, NextTerms, Writers, Init, Cluster.Shaped;
    if steps == [] {
      InitOk(s);
    } else {
      var last := |steps| - 1;
      RunOk(s, steps[..last]);
      StepOk(Run(s, steps[..last]), TermsAfter(s, steps[..last]), steps[last]);
    }
  }

  lemma {:induction false} RunGrows(s: Cluster, steps: seq<Step>, i: nat)
    requires Init(s) && i <= |steps|
    ensures Grows(TermsAfter(s, steps[..i]), TermsAfter(s, steps))
    decreases |steps|
  {
    hide Exec, NextTerms, Writers, Init, Cluster.Shaped, Grows;
    if i == |steps| {
      assert steps[..i] == steps;
      GrowsReflexive(TermsAfter(s, steps));
    } else {
      var last := |steps| - 1;
      var prev := steps[..last];
      RunGrows(s, prev, i);
      assert prev[..i] == steps[..i];
      RunOk(s, prev);
      StepOk(Run(s, prev), TermsAfter(s, prev), steps[last]);
      GrowsTransitive(TermsAfter(s, steps[..i]), TermsAfter(s, prev), TermsAfter(s, steps));
    }
  }

  lemma GrowsReflexive(a: Terms)
    ensures Grows(a, a)
  {
  }

  lemma GrowsTransitive(a: Terms, b: Terms, c: Terms)
    requires Grows(a, b) && Grows(b, c)
    ensures Grows(a, c)
  {
  }

  /** The record a local append creates. */
  function Created(s: Cluster, step: Step): Record
    requires Appends(s, step)
  {
    s.nodes[step.n].log.Stamp(step.r)
  }

  /** An append extends the log of its term, which the writer owns. */
  lemma AppendExtendsTerm(s: Cluster, T: Terms, step: Step)
    requires s.Shaped() && Writers(s, T) && Appends(s, step)
    ensures var c := Created(s, step);
      && c.epoch in T && T[c.epoch].owner == step.n && c.seqno == |T[c.epoch].log| + 1
      && c.epoch in NextTerms(s, T, step)
      && NextTerms(s, T, step)[c.epoch].owner == step.n && |NextTerms(s, T, step)[c.epoch].log| == c.seqno
  {
    hide Writers, PLog.WellFormed;
    NodeFact(s, T, step.n);
  }

  /** Over every run of metadata commands, passes on stale views, restarts and replication:
      two records created under one term come from one node, and the later one has the
      larger sequence. So no (term, sequence) pair is ever assigned twice. */
  lemma SingleWriterPerTerm(s: Cluster, steps: seq<Step>, i: nat, j: nat)
    requires Init(s) && i < j < |steps|
    requires Appends(Run(s, steps[..i]), steps[i]) && Appends(Run(s, steps[..j]), steps[j])
    requires Created(Run(s, steps[..i]), steps[i]).epoch == Created(Run(s, steps[..j]), steps[j]).epoch
    ensures steps[i].n == steps[j].n
    ensures Created(Run(s, steps[..i]), steps[i]).seqno < Created(Run(s, steps[..j]), steps[j]).seqno
  {
    hide Exec, NextTerms, Writers, Init, Cluster.Shaped, Created, Appends;
    var si, sj := Run(s, steps[..i]), Run(s, steps[..j]);
    var Ti, Tj := TermsAfter(s, steps[..i]), TermsAfter(s, steps[..j]);
    RunOk(s, steps[..i]);
    RunOk(s, steps[..j]);
    AppendExtendsTerm(si, Ti, steps[i]);
    AppendExtendsTerm(sj, Tj, steps[j]);
    var up := steps[..i + 1];
    assert up[..i] == steps[..i] && up[i] == steps[i] && steps[..j][..i + 1] == up;
    assert TermsAfter(s, up) == NextTerms(si, Ti, steps[i]);
    RunGrows(s, steps[..j], i + 1);
  }
}
