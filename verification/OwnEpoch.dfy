/** When every epoch query is answered with the follower's own term, reconciliation is
    always faithful, so the protocol keeps log matching without further conditions. */
module OwnEpoch {
  import opened Records
  import opened EpochHistory
  import opened PartitionLog
  import opened Metadata
  import opened Replication
  import opened SingleWriter
  import opened LogMatching

  /** The term's first record is on the log; or the term is n's own and it wrote nothing in it. */
  predicate Begun(T: Terms, n: Node, recs: seq<Record>, x: Entry)
    requires x.epoch in T && x.start >= 1
  {
    || (x.start <= |recs| && recs[x.start - 1].epoch == x.epoch)
    || (T[x.epoch].owner == n && |T[x.epoch].log| < x.start)
  }

  /** An entry of n's history names where its term really began, on the log that began it. */
  predicate EntryOk(T: Terms, n: Node, recs: seq<Record>, x: Entry) {
    && x.epoch in T && T[x.epoch].start == x.start && x.start >= 1
    && x.start - 1 <= |recs| && x.start - 1 <= |T[x.epoch].log|
    && recs[..x.start - 1] == T[x.epoch].log[..x.start - 1]
    && Begun(T, n, recs, x)
  }

  predicate EntriesOk(T: Terms, n: Node, recs: seq<Record>, h: seq<Entry>) {
    forall j :: 0 <= j < |h| ==> EntryOk(T, n, recs, h[j])
  }

  /** No record is of a later term than the current one, nor, before an entry's start, than the entry before. */
  predicate Bounded(recs: seq<Record>, h: seq<Entry>) {
    && (forall i :: 0 <= i < |recs| ==> recs[i].epoch <= LatestEpoch(h))
    && forall i, j :: 0 <= i < |recs| && 1 <= j < |h| && i + 1 < h[j].start ==> recs[i].epoch <= h[j - 1].epoch
  }

  /** What n's history says of its log. It need not agree with it: a term of n's own without records may lie
      over records of older terms that came later. */
  predicate NodeHist(T: Terms, n: Node, p: PLog) {
    p.WellFormed() && EntriesOk(T, n, p.recs, p.hist) && Bounded(p.recs, p.hist)
  }

  /** A term's log holds records of the term exactly from its start on, older ones before. */
  predicate TermHist(log: seq<Record>, start: nat, e: nat) {
    forall i :: 0 <= i < |log| ==> if i + 1 >= start then log[i].epoch == e else log[i].epoch < e
  }

  predicate AnswerOk(nodes: map<Node, Replica>, r: Replica) {
    r.phase.Answered? ==>
      r.phase.server in nodes && EpochsMeet(r.log.recs, nodes[r.phase.server].log.recs, Kept(r))
  }

  ghost predicate Reconciled(s: Cluster, T: Terms) {
    && Matching(s, T)
    && (forall n :: n in s.nodes ==> NodeHist(T, n, s.nodes[n].log))
    && (forall n :: n in s.nodes ==> AnswerOk(s.nodes, s.nodes[n]))
    && TermHists(T)
  }

  /** The conditions on a run: each query that is answered is answered with the follower's
      own latest term, and a follower that discards records serves no session meanwhile. */
  predicate Own(s: Cluster, step: Step)
    requires s.Shaped()
  {
    match step
    case Query(n) =>
      Asks(s, n) ==>
        var r := s.nodes[n];
        var q := AfterQuery(r, r.follow, s.nodes[r.follow].log);
        q.phase.Answered? ==> q.phase.epoch == LatestEpoch(r.log.hist)
    case Settle(n) => Settles(s, n) && Truncates(s.nodes[n]) ==> !Serving(s, n)
    case _ => true
  }

  predicate TermHists(T: Terms) {
    forall e :: e in T ==> TermHist(T[e].log, T[e].start, e)
  }

  /** Epochs never fall along a log. */
  lemma EpochsRise(l: seq<Record>, T: Terms, i: nat, k: nat)
    requires Chain(l, T) && TermHists(T) && i <= k < |l|
    ensures l[i].epoch <= l[k].epoch
  {
    assert InTerm(l, T, k);
    var t := T[l[k].epoch];
    assert t.log[i] == t.log[..k + 1][i] == l[i];
    assert TermHist(t.log, t.start, l[k].epoch);
  }

  /** Where an entry's first record is there, the records up to the next entry carry its term. */
  lemma TermAt(T: Terms, n: Node, p: PLog, j: nat, k: nat)
    requires NodeHist(T, n, p) && Chain(p.recs, T) && TermHists(T) && j < |p.hist|
    requires p.hist[j].start <= k <= |p.recs| && (j + 1 < |p.hist| ==> k < p.hist[j + 1].start)
    requires p.hist[j].start >= 1 && p.recs[p.hist[j].start - 1].epoch == p.hist[j].epoch
    ensures p.recs[k - 1].epoch == p.hist[j].epoch
  {
    hide Chain, TermHists, EntriesOk;
    EpochsRise(p.recs, T, p.hist[j].start - 1, k - 1);
  }

  /** Which entry an own-term answer comes from, and that it ends that entry's range. */
  lemma AnswerEntry(p: PLog, e: nat) returns (j: nat)
    requires p.WellFormed() && e > 0 && p.EndOffsetForEpoch(e).epoch == e
    ensures j < |p.hist| && p.hist[j].epoch == e
    ensures p.EndOffsetForEpoch(e).end == if j + 1 < |p.hist| then p.hist[j + 1].start else p.Next()
  {
    var last := |p.hist| - 1;
    if e >= p.hist[last].epoch {
      j := last;
    } else {
      j := FirstEpochAbove(p.hist, e) - 1;
    }
  }

  /** Two nodes that both hold records past the start of a term both hold its first record. */
  lemma BothBegun(T: Terms, n: Node, m: Node, f: seq<Record>, l: seq<Record>, x: Entry)
    requires n != m && EntryOk(T, n, f, x) && EntryOk(T, m, l, x) && Chain(f, T) && Chain(l, T)
    requires x.start <= |f| && x.start <= |l|
    ensures f[x.start - 1].epoch == x.epoch && l[x.start - 1].epoch == x.epoch
  {
    assert InTerm(f, T, x.start - 1) && InTerm(l, T, x.start - 1);
  }

  /** An own-term answer cuts the follower exactly where it still meets the leader. */
  lemma OwnAnswerMeets(T: Terms, n: Node, m: Node, f: PLog, l: PLog)
    requires n != m && NodeHist(T, n, f) && NodeHist(T, m, l) && f.cur > 0
    requires Chain(f.recs, T) && Chain(l.recs, T) && TermHists(T)
    requires l.EndOffsetForEpoch(f.cur).epoch == f.cur
    ensures var end := l.EndOffsetForEpoch(f.cur).end;
      end >= 1 && EpochsMeet(f.recs, l.recs, if end >= f.Next() then |f.recs| else end - 1)
  {
    hide PLog.EndOffsetForEpoch, Chain, TermHists, EntryOk, Bounded;
    var e := f.cur;
    var end := l.EndOffsetForEpoch(e).end;
    var j := AnswerEntry(l, e);
    var last := |f.hist| - 1;
    EntryFact(T, n, f, last);
    EntryFact(T, m, l, j);
    var start := T[e].start;
    var k := if end >= f.Next() then |f.recs| else end - 1;
    if k >= start {
      BothBegun(T, n, m, f.recs, l.recs, Entry(e, start));
      TermAt(T, n, f, last, k);
      TermAt(T, m, l, j, k);
    } else if k > 0 {
      assert k == start - 1;
      assert f.recs[..k][k - 1] == l.recs[..k][k - 1];
    }
  }

  lemma EntryFact(T: Terms, n: Node, p: PLog, j: nat)
    requires NodeHist(T, n, p) && j < |p.hist|
    ensures var x := p.hist[j];
      && EntryOk(T, n, p.recs, x) && x == Entry(x.epoch, x.start)
      && x.epoch in T && T[x.epoch].start == x.start && 1 <= x.start && x.start - 1 <= |p.recs|
      && x.start - 1 <= |T[x.epoch].log| && p.recs[..x.start - 1] == T[x.epoch].log[..x.start - 1]
  {
  }

  /** Only n's own terms have changed. */
  predicate OnlyBy(T: Terms, T': Terms, n: Node) {
    forall e :: e in T ==> e in T' && (T'[e] == T[e] || T[e].owner == n)
  }

  /** Another node's writing leaves n's entries right. */
  lemma EntriesGrow(T: Terms, T': Terms, n: Node, m: Node, recs: seq<Record>, h: seq<Entry>)
    requires EntriesOk(T, m, recs, h) && Grows(T, T') && OnlyBy(T, T', n) && m != n
    ensures EntriesOk(T', m, recs, h)
  {
    forall j | 0 <= j < |h| ensures EntryOk(T', m, recs, h[j]) {
      assert EntryOk(T, m, recs, h[j]);
    }
  }

  lemma EntriesExtend(T: Terms, n: Node, recs: seq<Record>, recs': seq<Record>, h: seq<Entry>)
    requires EntriesOk(T, n, recs, h) && recs <= recs'
    ensures EntriesOk(T, n, recs', h)
  {
    forall j | 0 <= j < |h| ensures EntryOk(T, n, recs', h[j]) {
      assert EntryOk(T, n, recs, h[j]);
    }
  }

  lemma AnswerGrows(nodes: map<Node, Replica>, n: Node, q: Replica, r: Replica)
    requires n in nodes && AnswerOk(nodes, r)
    requires ServedBy(r, n) ==> nodes[n].log.recs <= q.log.recs
    ensures AnswerOk(nodes[n := q], r)
  {
  }

  lemma UpdateReconciled(s: Cluster, T: Terms, T': Terms, n: Node, q: Replica)
    requires Reconciled(s, T) && n in s.nodes && Matching(s.With(n, q), T') && Grows(T, T') && OnlyBy(T, T', n)
    requires NodeHist(T', n, q.log) && AnswerOk(s.nodes[n := q], q) && TermHists(T')
    requires s.nodes[n].log.recs <= q.log.recs || !Serving(s, n)
    ensures Reconciled(s.With(n, q), T')
  {
    hide Matching, AnswerOk, TermHists, Grows, EntriesOk, PLog.WellFormed, Bounded, OnlyBy;
    forall m | m in s.nodes && m != n
      ensures NodeHist(T', m, s.nodes[m].log) && AnswerOk(s.nodes[n := q], s.nodes[m])
    {
      EntriesGrow(T, T', n, m, s.nodes[m].log.recs, s.nodes[m].log.hist);
      AnswerGrows(s.nodes, n, q, s.nodes[m]);
    }
  }

  lemma RecFact(s: Cluster, T: Terms, n: Node)
    requires Reconciled(s, T) && n in s.nodes
    ensures Matching(s, T) && NodeHist(T, n, s.nodes[n].log) && AnswerOk(s.nodes, s.nodes[n]) && TermHists(T)
  {
  }

  lemma SameHist(T: Terms, n: Node, p: PLog, q: PLog)
    requires NodeHist(T, n, p) && q.WellFormed() && q.recs == p.recs && q.hist == p.hist
    ensures NodeHist(T, n, q)
  {
  }

  lemma OnlyNew(T: Terms, e: nat, t: Term, n: Node)
    requires e !in T
    ensures OnlyBy(T, T[e := t], n)
  {
  }

  lemma OnlySame(T: Terms, n: Node)
    ensures OnlyBy(T, T, n)
  {
  }

  /** Opening a term over the records there are. */
  lemma OpenedHist(T: Terms, T': Terms, n: Node, p: PLog, q: PLog, e: nat)
    requires NodeHist(T, n, p) && q.WellFormed() && p.cur < e
    requires q.recs == p.recs && q.hist == p.hist + [Entry(e, p.Next())]
    requires e in T' && T'[e].start == p.Next() && T'[e].log == p.recs && T'[e].owner == n
    requires forall d :: d in T ==> d in T' && (d == e || T'[d] == T[d])
    ensures NodeHist(T', n, q) && TermHist(p.recs, p.Next(), e)
  {
    forall j | 0 <= j < |q.hist| ensures EntryOk(T', n, q.recs, q.hist[j]) {
      if j < |p.hist| { assert EntryOk(T, n, p.recs, p.hist[j]); }
    }
  }

  lemma PassReconciled(s: Cluster, T: Terms, n: Node, view: nat, rebuilt: bool)
    requires Reconciled(s, T) && n in s.nodes && s.nodes[n].view <= view < |s.history|
    ensures var e, r := EpochIn(s.history[view], s.key), s.nodes[n];
      var opens := Led(s.history[view], s.key, n) && r.promoted < e && r.log.cur < e;
      var T' := if opens then T[e := Term(n, view, r.log.Next(), r.log.recs)] else T;
      Reconciled(s.With(n, ReconcilePass(r, s.history[view], s.key, n, view, rebuilt)), T')
  {
    hide Writers, ReconcilePass, Reconciled, Matching, Grows, Led, EpochIn, PLog.WellFormed, NodeHist, TermHist;
    hide TermHists, OnlyBy;
    var e, r := EpochIn(s.history[view], s.key), s.nodes[n];
    var q := ReconcilePass(r, s.history[view], s.key, n, view, rebuilt);
    RecFact(s, T, n);
    MatchFact(s, T, n);
    PassMatching(s, T, n, view, rebuilt);
    PassOk(s, T, n, view, rebuilt);
    PassGives(s, T, n, view, rebuilt);
    PassKeepsWellFormed(r, s.history[view], s.key, n, view, rebuilt);
    if Led(s.history[view], s.key, n) && r.promoted < e && r.log.cur < e {
      var T' := T[e := Term(n, view, r.log.Next(), r.log.recs)];
      OpenedHist(T, T', n, r.log, q.log, e);
      OnlyNew(T, e, T'[e], n);
      OneMoreTerm(T, e, T'[e]);
      UpdateReconciled(s, T, T', n, q);
    } else {
      SameHist(T, n, r.log, q.log);
      OnlySame(T, n);
      UpdateReconciled(s, T, T, n, q);
    }
  }

  lemma OneMoreTerm(T: Terms, e: nat, t: Term)
    requires TermHists(T) && TermHist(t.log, t.start, e)
    ensures TermHists(T[e := t])
  {
  }

  /** A local write is the held term's next record. */
  lemma AppendHist(T: Terms, T': Terms, n: Node, p: PLog, rec: Record)
    requires NodeHist(T, n, p) && !Ephemeral(rec) && p.cur in T
    requires T[p.cur].log == p.recs && TermHist(T[p.cur].log, T[p.cur].start, p.cur)
    requires T' == T[p.cur := T[p.cur].(log := p.Append(rec).log.recs)] && T[p.cur].start <= p.Next()
    ensures NodeHist(T', n, p.Append(rec).log)
    ensures TermHist(p.Append(rec).log.recs, T[p.cur].start, p.cur)
  {
    AppendKeepsWellFormed(p, rec);
    var q := p.Append(rec).log;
    forall j | 0 <= j < |q.hist| ensures EntryOk(T', n, q.recs, q.hist[j]) {
      assert EntryOk(T, n, p.recs, p.hist[j]);
      AppendEntry(T, T', n, p, p.Stamp(rec), p.hist[j]);
    }
  }

  lemma AppendEntry(T: Terms, T': Terms, n: Node, p: PLog, r: Record, x: Entry)
    requires EntryOk(T, n, p.recs, x) && p.cur in T && T[p.cur].log == p.recs && r.epoch == p.cur
    requires T' == T[p.cur := T[p.cur].(log := p.recs + [r])]
    ensures EntryOk(T', n, p.recs + [r], x)
  {
  }

  lemma AppendReconciled(s: Cluster, T: Terms, n: Node, rec: Record)
    requires Reconciled(s, T) && n in s.nodes && s.nodes[n].log.leading && !Ephemeral(rec)
    ensures s.nodes[n].log.cur in T
    ensures var r := s.nodes[n];
      var p := r.log.Append(rec).log;
      var T' := T[r.log.cur := T[r.log.cur].(log := p.recs)];
      Reconciled(s.With(n, r.(log := p)), T')
  {
    hide Writers, Reconciled, Matching, Grows, PLog.WellFormed, NodeHist, TermHist, LeadsAt, OnlyBy;
    var r := s.nodes[n];
    RecFact(s, T, n);
    MatchFact(s, T, n);
    AppendMatching(s, T, n, rec);
    AppendOk(s, T, n, rec);
    HeldTermIsOk(s, T, n);
    var e, p := r.log.cur, r.log.Append(rec).log;
    var T' := T[e := T[e].(log := p.recs)];
    AppendHist(T, T', n, r.log, rec);
    OneMoreTerm(T, e, T'[e]);
    OnlyOwn(T, e, p.recs, n);
    UpdateReconciled(s, T, T', n, r.(log := p));
  }

  lemma OnlyOwn(T: Terms, e: nat, log: seq<Record>, n: Node)
    requires e in T && T[e].owner == n
    ensures OnlyBy(T, T[e := T[e].(log := log)], n)
  {
  }

  /** A change that leaves the log's records and history alone. */
  lemma QuietReconciled(s: Cluster, T: Terms, n: Node, q: Replica)
    requires Reconciled(s, T) && n in s.nodes && Matching(s.With(n, q), T)
    requires NodeHist(T, n, q.log) && q.log.recs == s.nodes[n].log.recs && AnswerOk(s.nodes[n := q], q)
    ensures Reconciled(s.With(n, q), T)
  {
    hide Reconciled, Matching, NodeHist, AnswerOk;
    RecFact(s, T, n);
    GrowsReflexive(T);
    OnlySame(T, n);
    UpdateReconciled(s, T, T, n, q);
  }

  lemma QueryReconciled(s: Cluster, T: Terms, n: Node)
    requires s.Shaped() && Reconciled(s, T) && Asks(s, n) && Own(s, Query(n))
    ensures Reconciled(s.With(n, AfterQuery(s.nodes[n], s.nodes[n].follow, s.nodes[s.nodes[n].follow].log)), T)
  {
    hide Reconciled, Matching, NodeHist, Writers, Cluster.Shaped, PLog.WellFormed, PLog.EndOffsetForEpoch, Chain,
      TermHists;
    var r := s.nodes[n];
    RecFact(s, T, n);
    RecFact(s, T, r.follow);
    MatchFact(s, T, n);
    MatchFact(s, T, r.follow);
    QueryMatching(s, T, n);
    CurrentIsLatest(r.log);
    var q := AfterQuery(r, r.follow, s.nodes[r.follow].log);
    if q.phase.Answered? {
      OwnAnswerMeets(T, n, r.follow, r.log, s.nodes[r.follow].log);
    }
    QuietReconciled(s, T, n, q);
  }

  lemma CurrentIsLatest(p: PLog)
    requires p.WellFormed()
    ensures p.cur == LatestEpoch(p.hist)
  {
  }

  lemma SettleHist(T: Terms, n: Node, r: Replica)
    requires NodeHist(T, n, r.log) && Rooted(r.log) && r.phase.Answered?
    ensures NodeHist(T, n, AfterSettle(r).log)
  {
    hide Begun;
    SettleKeepsWellFormed(r);
    var q := AfterSettle(r).log;
    if q != r.log { TruncatedHist(T, n, r.log, r.phase.end); }
  }

  /** A cut keeps the entries begun before it, and with them the bound on what is left. */
  lemma TruncatedHist(T: Terms, n: Node, p: PLog, s: nat)
    requires NodeHist(T, n, p) && Rooted(p) && p.first < s < p.Next()
    ensures var q := p.TruncateTo(s).log; EntriesOk(T, n, q.recs, q.hist) && Bounded(q.recs, q.hist)
  {
    var q := p.TruncateTo(s).log;
    forall j | 0 <= j < |q.hist| ensures EntryOk(T, n, q.recs, q.hist[j]) {
      assert EntryOk(T, n, p.recs, p.hist[j]) && p.hist[j].start < s;
    }
    CutBounded(p, s);
  }

  lemma CutBounded(p: PLog, s: nat)
    requires p.WellFormed() && Bounded(p.recs, p.hist) && Rooted(p) && p.first < s < p.Next()
    ensures Bounded(p.recs[..s - 1], CutFrom(p.hist, s))
  {
    var h := CutFrom(p.hist, s);
    assert p.hist[0].start < s;
    forall i | 0 <= i < s - 1 ensures p.recs[i].epoch <= LatestEpoch(h) {
      if |h| < |p.hist| { assert p.hist[|h|].start >= s; }
    }
  }

  lemma SettleIsFaithful(s: Cluster, T: Terms, n: Node)
    requires s.Shaped() && Reconciled(s, T) && Settles(s, n) && Own(s, Settle(n))
    ensures Faithful(s, Settle(n))
  {
    hide Matching, NodeHist, PLog.WellFormed, TermHist, AfterSettle, Serving;
    RecFact(s, T, n);
  }

  lemma SettleReconciled(s: Cluster, T: Terms, n: Node)
    requires s.Shaped() && Reconciled(s, T) && Settles(s, n) && Own(s, Settle(n))
    ensures Reconciled(s.With(n, AfterSettle(s.nodes[n])), T)
  {
    hide Reconciled, Matching, NodeHist, Writers, PLog.WellFormed, AfterSettle, Cluster.Shaped, Serving, Faithful;
    hide OnlyBy, TermHists, Rooted;
    var r := s.nodes[n];
    RecFact(s, T, n);
    MatchFact(s, T, n);
    SettleIsFaithful(s, T, n);
    SettleMatching(s, T, n);
    SettleHist(T, n, r);
    SettleKeeps(r);
    GrowsReflexive(T);
    OnlySame(T, n);
    UpdateReconciled(s, T, T, n, AfterSettle(r));
  }

  lemma LogFactsOnly(p: PLog, r: Record)
    requires p.WellFormed() && p.AppendReplicated(r).outcome == Ok
    ensures p.AppendReplicated(r).log.recs == p.recs + [r] && r.seqno == p.Next()
    ensures p.AppendReplicated(r).log.hist == if r.epoch > p.cur then p.hist + [Entry(r.epoch, p.Next())] else p.hist
  {
  }

  /** A record that opens a newer term on a follower sits where that term began. */
  lemma FirstOfTerm(T: Terms, n: Node, p: PLog, r: Record)
    requires NodeHist(T, n, p) && r.epoch > p.cur && Chain(p.recs + [r], T) && TermHists(T)
    requires forall e :: e in T ==> 1 <= T[e].start
    ensures EntryOk(T, n, p.recs + [r], Entry(r.epoch, p.Next()))
  {
    var l, k := p.recs + [r], |p.recs|;
    assert InTerm(l, T, k);
    var t := T[r.epoch];
    assert t.log[k] == t.log[..k + 1][k] == l[k];
    assert TermHist(t.log, t.start, r.epoch);
    if k > 0 {
      assert t.log[k - 1] == t.log[..k + 1][k - 1] == l[k - 1] == p.recs[k - 1];
    }
    assert l[..k] == l[..k + 1][..k] == t.log[..k + 1][..k] == t.log[..k];
  }

  /** An applied record, of whatever term, keeps what the history says. */
  lemma ApplyHist(T: Terms, n: Node, p: PLog, r: Record)
    requires NodeHist(T, n, p) && p.AppendReplicated(r).outcome == Ok
    requires Chain(p.recs + [r], T) && TermHists(T)
    requires forall e :: e in T ==> 1 <= T[e].start
    ensures NodeHist(T, n, p.AppendReplicated(r).log)
  {
    hide TermHists, Chain, PLog.AppendReplicated, EntryOk;
    ReplicateKeepsWellFormed(p, r);
    LogFactsOnly(p, r);
    EntriesExtend(T, n, p.recs, p.recs + [r], p.hist);
    if r.epoch > p.cur { FirstOfTerm(T, n, p, r); }
    ExtendBounded(p, r);
  }

  lemma ExtendBounded(p: PLog, r: Record)
    requires p.WellFormed() && Bounded(p.recs, p.hist)
    ensures Bounded(p.recs + [r], if r.epoch > p.cur then p.hist + [Entry(r.epoch, p.Next())] else p.hist)
  {
  }

  lemma DeliverHist(T: Terms, n: Node, r: Replica, drop: nat)
    requires NodeHist(T, n, r.log) && r.phase.Streaming? && r.phase.wire != []
    requires Chain(AfterDeliver(r, drop).log.recs, T) && TermHists(T)
    requires forall e :: e in T ==> 1 <= T[e].start
    ensures NodeHist(T, n, AfterDeliver(r, drop).log)
  {
    hide NodeHist, TermHists, Chain, PLog.AppendReplicated;
    var p, x := r.log, r.phase.wire[0];
    if p.AppendReplicated(x).outcome == Ok {
      NodeHistWellFormed(T, n, p);
      LogFactsOnly(p, x);
      ApplyHist(T, n, p, x);
    }
  }

  lemma NodeHistWellFormed(T: Terms, n: Node, p: PLog)
    requires NodeHist(T, n, p)
    ensures p.WellFormed()
  {
  }

  lemma DeliverReconciled(s: Cluster, T: Terms, n: Node, drop: nat)
    requires s.Shaped() && Reconciled(s, T) && Delivers(s, n)
    ensures Reconciled(s.With(n, AfterDeliver(s.nodes[n], drop)), T)
  {
    hide Reconciled, Matching, NodeHist, Writers, PLog.WellFormed, AfterDeliver, Cluster.Shaped, Chain, TermHists;
    hide Rooted, WireOk, NodeOk, LeadsAt, OnlyBy;
    var r := s.nodes[n];
    RecFact(s, T, n);
    MatchFact(s, T, n);
    DeliverMatching(s, T, n, drop);
    WireEpochPositive(s, T, n);
    DeliverExtends(r, drop, s.nodes[r.phase.server].log.recs);
    var q := AfterDeliver(r, drop);
    MatchFact(s.With(n, q), T, n);
    TermStarts(s, T);
    DeliverHist(T, n, r, drop);
    GrowsReflexive(T);
    OnlySame(T, n);
    UpdateReconciled(s, T, T, n, q);
  }

  lemma TermStarts(s: Cluster, T: Terms)
    requires Writers(s, T)
    ensures forall e :: e in T ==> 1 <= T[e].start
  {
    forall e | e in T ensures 1 <= T[e].start { assert TermOk(s.history, s.key, s.nodes, T, e); }
  }

  lemma ShipReconciled(s: Cluster, T: Terms, n: Node, count: nat)
    requires Reconciled(s, T) && Streams(s, n)
    ensures Reconciled(s.With(n, AfterShip(s.nodes[n], s.nodes[s.nodes[n].phase.server].log, count)), T)
  {
    hide Reconciled, Matching, NodeHist;
    RecFact(s, T, n);
    ShipMatching(s, T, n, count);
    QuietReconciled(s, T, n, AfterShip(s.nodes[n], s.nodes[s.nodes[n].phase.server].log, count));
  }

  lemma DropReconciled(s: Cluster, T: Terms, n: Node, q: Replica)
    requires Reconciled(s, T) && n in s.nodes
    requires var r := s.nodes[n];
      || q == r.(phase := Idle)
      || q == r.(log := r.log.Resign(), promoted := 0, follow := "", phase := Idle)
    ensures Reconciled(s.With(n, q), T)
  {
    hide Reconciled, Matching, NodeHist;
    RecFact(s, T, n);
    NodeHistWellFormed(T, n, s.nodes[n].log);
    SameHist(T, n, s.nodes[n].log, q.log);
    DropMatching(s, T, n, q);
    QuietReconciled(s, T, n, q);
  }

  lemma ExpireHist(T: Terms, n: Node, p: PLog, f: nat)
    requires NodeHist(T, n, p)
    ensures NodeHist(T, n, p.Retain(f)) && p.Retain(f).recs == p.recs
  {
    hide Begun;
    RetainKeepsWellFormed(p, f);
    assert forall j :: 0 <= j < |p.hist| ==> EntryOk(T, n, p.recs, p.hist[j]);
  }

  lemma ExpireReconciled(s: Cluster, T: Terms, n: Node, first: nat)
    requires Reconciled(s, T) && n in s.nodes && s.nodes[n].log.WellFormed()
    ensures Reconciled(s.With(n, s.nodes[n].(log := s.nodes[n].log.Retain(first))), T)
  {
    hide Reconciled, Matching, NodeHist, PLog.Retain;
    RecFact(s, T, n);
    ExpireMatching(s, T, n, first);
    ExpireHist(T, n, s.nodes[n].log, first);
    QuietReconciled(s, T, n, s.nodes[n].(log := s.nodes[n].log.Retain(first)));
  }

  lemma CommitReconciled(s: Cluster, T: Terms, c: Command)
    requires Reconciled(s, T)
    ensures Reconciled(s.(history := s.history + [Apply(s.history[|s.history| - 1], c).meta]), T)
  {
    hide Matching, NodeHist, AnswerOk, TermHists;
    CommitMatching(s, T, c);
  }

  lemma StepReconciled(s: Cluster, T: Terms, step: Step)
    requires s.Shaped() && Reconciled(s, T) && Own(s, step)
    ensures Faithful(s, step)
    ensures Reconciled(Exec(s, step), NextTerms(s, T, step))
  {
    hide Reconciled, ReconcilePass, AfterQuery, AfterSettle, AfterShip, AfterDeliver, PLog.Append, PLog.Retain, Apply;
    hide Own, Serving, EpochsMeet;
    match step
    case Commit(c) => CommitReconciled(s, T, c);
    case Pass(n, view, rebuilt) =>
      if n in s.nodes && s.nodes[n].view <= view < |s.history| { PassReconciled(s, T, n, view, rebuilt); }
    case LocalAppend(n, r) => if Appends(s, step) { AppendReconciled(s, T, n, r); }
    case Query(n) => if Asks(s, n) { QueryReconciled(s, T, n); }
    case Settle(n) => if Settles(s, n) { SettleIsFaithful(s, T, n); SettleReconciled(s, T, n); }
    case Ship(n, count) => if Streams(s, n) { ShipReconciled(s, T, n, count); }
    case Deliver(n, drop) => if Delivers(s, n) { DeliverReconciled(s, T, n, drop); }
    case Disconnect(n) => if n in s.nodes { DropReconciled(s, T, n, Exec(s, step).nodes[n]); }
    case Restart(n) => if n in s.nodes { DropReconciled(s, T, n, Exec(s, step).nodes[n]); }
    case Expire(n, first) => if n in s.nodes { ExpireReconciled(s, T, n, first); }
  }

  predicate OwnRun(s: Cluster, steps: seq<Step>)
    requires s.Shaped()
  {
    forall i :: 0 <= i < |steps| ==> Own(Run(s, steps[..i]), steps[i])
  }

  lemma InitReconciled(s: Cluster)
    requires Init(s)
    ensures Reconciled(s, map[])
  {
    hide Matching;
    InitMatching(s);
  }

  lemma OwnRunPrefix(s: Cluster, steps: seq<Step>, k: nat)
    requires s.Shaped() && OwnRun(s, steps) && k <= |steps|
    ensures OwnRun(s, steps[..k])
  {
    hide Own, Run, Cluster.Shaped;
    forall i | 0 <= i < k ensures Own(Run(s, steps[..k][..i]), steps[..k][i]) {
      assert steps[..k][..i] == steps[..i];
    }
  }

  lemma {:induction false} RunReconciled(s: Cluster, steps: seq<Step>)
    requires Init(s) && OwnRun(s, steps)
    ensures Reconciled(Run(s, steps), TermsAfter(s, steps))
    decreases |steps|
  {
    hide Exec, NextTerms, Reconciled, Own, Faithful, Init, Cluster.Shaped;
    if steps == [] {
      InitReconciled(s);
    } else {
      var last := |steps| - 1;
      OwnRunPrefix(s, steps, last);
      RunReconciled(s, steps[..last]);
      StepReconciled(Run(s, steps[..last]), TermsAfter(s, steps[..last]), steps[last]);
    }
  }

  /** Own-term runs are faithful: the exact condition on settling follows. */
  lemma OwnRunsAreFaithful(s: Cluster, steps: seq<Step>)
    requires Init(s) && OwnRun(s, steps)
    ensures FaithfulRun(s, steps)
  {
    hide Exec, NextTerms, Reconciled, Own, Faithful, Init, Cluster.Shaped, Run;
    forall i | 0 <= i < |steps| ensures Faithful(Run(s, steps[..i]), steps[i]) {
      OwnRunPrefix(s, steps, i);
      RunReconciled(s, steps[..i]);
      StepReconciled(Run(s, steps[..i]), TermsAfter(s, steps[..i]), steps[i]);
    }
  }

  /** Log matching for the protocol as its design intends it: in every run whose queries are answered with the
      follower's own term and in which no serving node truncates, logs match wherever their terms meet, and an
      open session keeps the follower a prefix of its leader. */
  lemma OwnEpochRunsMatch(s: Cluster, steps: seq<Step>, n: Node, m: Node, i: nat)
    requires Init(s) && OwnRun(s, steps) && n in s.nodes && m in s.nodes
    ensures var z := Run(s, steps).nodes;
      && (i < |z[n].log.recs| && i < |z[m].log.recs| && z[n].log.recs[i].epoch == z[m].log.recs[i].epoch ==>
            z[n].log.recs[..i + 1] == z[m].log.recs[..i + 1])
      && (z[n].phase.Streaming? && z[n].phase.server == m ==> z[n].log.recs <= z[m].log.recs)
  {
    hide Exec, Init, Writers, OwnRun, FaithfulRun, Matching;
    OwnRunsAreFaithful(s, steps);
    LogsMatch(s, steps, n, m, i);
  }

  /** Along every such run a node's log never falls back to an older term, and holds no record later than its
      current one. */
  lemma OwnEpochRunsRise(s: Cluster, steps: seq<Step>, n: Node, i: nat, k: nat)
    requires Init(s) && OwnRun(s, steps) && n in s.nodes && i <= k < |Run(s, steps).nodes[n].log.recs|
    ensures var p := Run(s, steps).nodes[n].log; p.recs[i].epoch <= p.recs[k].epoch <= p.cur
  {
    hide Exec, Init, Writers, OwnRun, Matching, Run, Chain;
    var z, T := Run(s, steps), TermsAfter(s, steps);
    RunReconciled(s, steps);
    RecFact(z, T, n);
    MatchFact(z, T, n);
    EpochsRise(z.nodes[n].log.recs, T, i, k);
  }
}
