/** A partition as a value: one flat list of records with its epoch history.

    The segmented implementation refines these operations, and the replication
    protocol is stated over them. */
module PartitionLog {
  import opened Records
  import opened EpochHistory

  datatype Outcome =
    | Ok | AlreadyApplied | EphemeralRecord | NoSequence | ReplicationGap
    | EpochNotNewer | EpochMismatch | ZeroEpoch | HistoryRefused | BelowFirst

  datatype Result = Result(log: PLog, outcome: Outcome)

  /** `recs[i]` is the record with sequence i+1. Retention removes the records below
      `first` from disk; the list keeps them so that whole histories can be compared. */
  datatype PLog = PLog(recs: seq<Record>, first: nat, hist: seq<Entry>, cur: nat, leading: bool) {

    function Next(): nat {
      |recs| + 1
    }

    predicate WellFormed() {
      && 1 <= first <= Next()
      && (forall i :: 0 <= i < |recs| ==> recs[i].seqno == i + 1)
      && Sorted(hist)
      && cur == LatestEpoch(hist)
      && (forall i :: 0 <= i < |hist| ==> 1 <= hist[i].start <= Next())
    }

    /** The broker overwrites sequence and epoch; a client's values are never trusted. */
    function Stamp(r: Record): Record {
      r.(seqno := Next(), epoch := cur)
    }

    function Append(r: Record): Result {
      if Ephemeral(r) then Result(this, EphemeralRecord)
      else Result(this.(recs := recs + [Stamp(r)]), Ok)
    }

    function AppendReplicated(r: Record): Result {
      if Ephemeral(r) then Result(this, EphemeralRecord)
      else if r.seqno == 0 then Result(this, NoSequence)
      else if r.seqno < Next() then Result(this, AlreadyApplied)
      else if r.seqno > Next() then Result(this, ReplicationGap)
      else if r.epoch > cur then
        var a := AssignTerm(hist, r.epoch, r.seqno);
        if !a.ok then Result(this, HistoryRefused)
        else Result(this.(recs := recs + [r], hist := a.entries, cur := r.epoch), Ok)
      else Result(this.(recs := recs + [r]), Ok)
    }

    function BecomeLeader(e: nat): Result {
      if e == UNDEFINED_EPOCH then Result(this, ZeroEpoch)
      else if e <= cur then Result(this, EpochNotNewer)
      else
        var a := AssignTerm(hist, e, Next());
        if !a.ok then Result(this, HistoryRefused)
        else Result(this.(hist := a.entries, cur := e, leading := true), Ok)
    }

    function ReassertLeadership(e: nat): Result {
      if e != cur then Result(this, EpochMismatch)
      else Result(this.(leading := true), Ok)
    }

    /** The per-partition promotion of the node's log: reassert a held term, refuse
        an older one, open a newer one. */
    function BecomeLeaderFor(e: nat): Result {
      if e == UNDEFINED_EPOCH then Result(this, ZeroEpoch)
      else if e == LatestEpoch(hist) then ReassertLeadership(e)
      else if e < LatestEpoch(hist) then Result(this, EpochNotNewer)
      else BecomeLeader(e)
    }

    function Resign(): PLog {
      this.(leading := false)
    }

    function TruncateTo(s: nat): Result
      requires Sorted(hist)
    {
      if s >= Next() then Result(this, Ok)
      else if s <= first then Result(this, BelowFirst)
      else
        var h := CutFrom(hist, s);
        Result(this.(recs := recs[..s - 1], hist := h, cur := LatestEpoch(h)), Ok)
    }

    /** Retention drops whole segments, so that the log now starts at `f`. */
    function Retain(f: nat): PLog
      requires Sorted(hist)
    {
      if first < f <= Next() then this.(first := f, hist := CutBefore(hist, f)) else this
    }

    function EndOffsetForEpoch(e: nat): EpochEnd
      requires Sorted(hist)
    {
      EndOffsetFor(hist, e, Next())
    }

    /** Record i's own epoch is what the history says of its sequence, or it lies
        below both the horizon and the shortened history, under an older term. */
    predicate Placed(i: nat)
      requires Sorted(hist) && i < |recs|
    {
      || recs[i].epoch == EpochForSeq(hist, i + 1)
      || (hist != [] && i + 1 < hist[0].start <= first && recs[i].epoch < hist[0].epoch)
    }

    predicate HistoryAgrees()
      requires Sorted(hist)
    {
      forall i :: 0 <= i < |recs| ==> Placed(i)
    }
  }

  const EMPTY := PLog([], 1, [], UNDEFINED_EPOCH, false)

  datatype Op =
    | Append(r: Record) | Replicate(r: Record) | Promote(e: nat) | Reassert(e: nat)
    | Resign | Truncate(s: nat) | Retain(f: nat)

  function Do(p: PLog, op: Op): PLog
    requires Sorted(p.hist)
  {
    match op
    case Append(r) => p.Append(r).log
    case Replicate(r) => p.AppendReplicated(r).log
    case Promote(e) => p.BecomeLeader(e).log
    case Reassert(e) => p.ReassertLeadership(e).log
    case Resign => p.Resign()
    case Truncate(s) => p.TruncateTo(s).log
    case Retain(f) => p.Retain(f)
  }

  /** The one way an operation can contradict the history: the follower write path
      accepts a record of a term older than the current one. */
  predicate Backdated(p: PLog, op: Op) {
    op.Replicate? && !Ephemeral(op.r) && op.r.seqno == p.Next() && op.r.epoch < p.cur
  }

  lemma AppendKeepsWellFormed(p: PLog, r: Record)
    requires p.WellFormed()
    ensures p.Append(r).log.WellFormed()
  {
  }

  lemma ReplicateKeepsWellFormed(p: PLog, r: Record)
    requires p.WellFormed()
    ensures p.AppendReplicated(r).log.WellFormed()
  {
  }

  lemma PromoteKeepsWellFormed(p: PLog, e: nat)
    requires p.WellFormed()
    ensures p.BecomeLeader(e).log.WellFormed() && p.BecomeLeaderFor(e).log.WellFormed()
  {
  }

  lemma TruncateKeepsWellFormed(p: PLog, s: nat)
    requires p.WellFormed()
    ensures p.TruncateTo(s).log.WellFormed()
  {
  }

  lemma RetainKeepsWellFormed(p: PLog, f: nat)
    requires p.WellFormed()
    ensures p.Retain(f).WellFormed()
  {
  }

  lemma DoKeepsWellFormed(p: PLog, op: Op)
    requires p.WellFormed()
    ensures Do(p, op).WellFormed()
  {
    match op
    case Append(r) => AppendKeepsWellFormed(p, r);
    case Replicate(r) => ReplicateKeepsWellFormed(p, r);
    case Promote(e) => PromoteKeepsWellFormed(p, e);
    case Reassert(e) =>
    case Resign =>
    case Truncate(s) => TruncateKeepsWellFormed(p, s);
    case Retain(f) => RetainKeepsWellFormed(p, f);
  }

  /** Extending the history at the end changes the term of no earlier sequence. */
  lemma OpenTermKeepsTerms(h: seq<Entry>, e: Entry, t: int)
    requires Sorted(h) && Sorted(h + [e]) && t < e.start
    ensures EpochForSeq(h + [e], t) == EpochForSeq(h, t)
  {
    FirstStartAboveUnique(h + [e], t, FirstStartAbove(h, t));
  }

  /** At and after the start of the latest term, the history answers that term. */
  lemma LatestCovers(h: seq<Entry>, t: int)
    requires Sorted(h) && (h != [] ==> h[|h| - 1].start <= t)
    ensures EpochForSeq(h, t) == LatestEpoch(h)
  {
    FirstStartAboveUnique(h, t, |h|);
  }

  lemma ExtendAgrees(p: PLog, q: PLog)
    requires p.WellFormed() && p.HistoryAgrees() && q.WellFormed()
    requires |q.recs| == |p.recs| + 1 && q.recs[..|p.recs|] == p.recs && q.first == p.first
    requires q.hist == p.hist || (q.cur > p.cur && q.hist == p.hist + [Entry(q.cur, p.Next())])
    ensures q.HistoryAgrees() <==> q.recs[|p.recs|].epoch == q.cur
  {
    var n := |p.recs|;
    LatestCovers(q.hist, n + 1);
    assert q.Placed(n) <==> q.recs[n].epoch == q.cur;
    forall i | 0 <= i < n ensures q.Placed(i) {
      assert p.Placed(i) && q.recs[i] == p.recs[i];
      if q.hist != p.hist { OpenTermPlaces(p, q, q.cur, i); }
    }
  }

  lemma AppendAgrees(p: PLog, r: Record)
    requires p.WellFormed() && p.HistoryAgrees()
    ensures p.Append(r).log.WellFormed() && p.Append(r).log.HistoryAgrees()
  {
    AppendKeepsWellFormed(p, r);
    if !Ephemeral(r) { ExtendAgrees(p, p.Append(r).log); }
  }

  lemma ReplicateAgreesIff(p: PLog, r: Record)
    requires p.WellFormed() && p.HistoryAgrees()
    ensures p.AppendReplicated(r).log.WellFormed()
    ensures p.AppendReplicated(r).log.HistoryAgrees() <==> !Backdated(p, Replicate(r))
  {
    hide PLog.Placed;
    ReplicateKeepsWellFormed(p, r);
    if p.AppendReplicated(r).outcome == Ok { ExtendAgrees(p, p.AppendReplicated(r).log); }
  }

  lemma SameLogAgrees(p: PLog, q: PLog)
    requires p.WellFormed() && p.HistoryAgrees() && q == p.(leading := q.leading)
    ensures q.HistoryAgrees()
  {
    forall i | 0 <= i < |q.recs| ensures q.Placed(i) { assert p.Placed(i); }
  }

  lemma PromoteAgrees(p: PLog, e: nat)
    requires p.WellFormed() && p.HistoryAgrees()
    ensures p.BecomeLeader(e).log.HistoryAgrees()
  {
    var q := p.BecomeLeader(e).log;
    if e > p.cur {
      assert q.hist == p.hist + [Entry(e, p.Next())];
      forall i | 0 <= i < |q.recs| ensures q.Placed(i) { OpenTermPlaces(p, q, e, i); }
    }
  }

  lemma OpenTermPlaces(p: PLog, q: PLog, e: nat, i: nat)
    requires p.WellFormed() && i < |p.recs| && p.Placed(i) && e > p.cur
    requires i < |q.recs| && q.recs[i] == p.recs[i] && q.first == p.first
    requires q.hist == p.hist + [Entry(e, p.Next())] && Sorted(q.hist)
    ensures q.Placed(i)
  {
    OpenTermKeepsTerms(p.hist, Entry(e, p.Next()), i + 1);
  }

  lemma TruncateAgrees(p: PLog, s: nat)
    requires p.WellFormed() && p.HistoryAgrees()
    ensures p.TruncateTo(s).log.HistoryAgrees()
  {
    var q := p.TruncateTo(s).log;
    if q != p {
      forall i | 0 <= i < |q.recs| ensures q.Placed(i) {
        assert p.Placed(i);
        CutFromKeepsTerms(p.hist, s, i + 1);
      }
    }
  }

  lemma RetainPlaces(p: PLog, f: nat, i: nat)
    requires p.WellFormed() && p.first < f <= p.Next() && i < |p.recs| && p.Placed(i)
    ensures p.Retain(f).Placed(i)
  {
    var k := CutIndex(p.hist, f);
    if k > 0 {
      if i + 1 >= p.hist[k].start {
        CutBeforeKeepsTerms(p.hist, f, i + 1);
      } else {
        OlderTermsBelow(p.hist, k, i + 1);
      }
    }
  }

  lemma RetainAgrees(p: PLog, f: nat)
    requires p.WellFormed() && p.HistoryAgrees()
    ensures p.Retain(f).HistoryAgrees()
  {
    if p.first < f <= p.Next() {
      forall i | 0 <= i < |p.recs| ensures p.Retain(f).Placed(i) { RetainPlaces(p, f, i); }
    }
  }

  /** An operation keeps the epoch history in agreement with the log exactly when it
      does not slip a record of an older term in under the current one. */
  lemma StepAgreesIff(p: PLog, op: Op)
    requires p.WellFormed() && p.HistoryAgrees()
    ensures Do(p, op).WellFormed()
    ensures Do(p, op).HistoryAgrees() <==> !Backdated(p, op)
  {
    DoKeepsWellFormed(p, op);
    match op
    case Append(r) => AppendAgrees(p, r);
    case Replicate(r) => ReplicateAgreesIff(p, r);
    case Promote(e) => PromoteAgrees(p, e);
    case Reassert(e) => SameLogAgrees(p, Do(p, op));
    case Resign => SameLogAgrees(p, Do(p, op));
    case Truncate(s) => TruncateAgrees(p, s);
    case Retain(f) => RetainAgrees(p, f);
  }

  function RunOps(p: PLog, ops: seq<Op>): (q: PLog)
    requires p.WellFormed()
    ensures q.WellFormed()
    decreases |ops|
  {
    if ops == [] then p else (DoKeepsWellFormed(p, ops[0]); RunOps(Do(p, ops[0]), ops[1..]))
  }

  /** No step of the run backdates a record. */
  predicate TermsMoveForward(p: PLog, ops: seq<Op>)
    requires p.WellFormed()
    decreases |ops|
  {
    ops != [] ==>
      && !Backdated(p, ops[0])
      && (DoKeepsWellFormed(p, ops[0]); TermsMoveForward(Do(p, ops[0]), ops[1..]))
  }

  lemma {:induction false} RunAgrees(p: PLog, ops: seq<Op>)
    requires p.WellFormed() && p.HistoryAgrees() && TermsMoveForward(p, ops)
    ensures RunOps(p, ops).HistoryAgrees()
    decreases |ops|
  {
    hide Do, Backdated;
    if ops != [] {
      StepAgreesIff(p, ops[0]);
      RunAgrees(Do(p, ops[0]), ops[1..]);
    }
  }

  /** After any run that never backdates, the history answers the stored epoch of every
      readable record, and the current term is the history's latest. */
  lemma HistoryMatchesLog(ops: seq<Op>, s: nat)
    requires TermsMoveForward(EMPTY, ops)
    ensures var p := RunOps(EMPTY, ops);
      && p.cur == LatestEpoch(p.hist)
      && (p.first <= s < p.Next() ==> EpochForSeq(p.hist, s) == p.recs[s - 1].epoch)
  {
    RunAgrees(EMPTY, ops);
    var p := RunOps(EMPTY, ops);
    if p.first <= s < p.Next() { assert p.Placed(s - 1); }
  }

  /** Without that condition it fails: a leader that wrote nothing in term 5, then
      follows a leader still shipping records of term 4. */
  lemma BackdatedRecordBreaksHistory(r: Record)
    requires !Ephemeral(r) && r.seqno == 1 && r.epoch == 4
    ensures var p := Do(Do(EMPTY, Promote(5)), Replicate(r));
      p.WellFormed() && p.recs == [r] && EpochForSeq(p.hist, 1) == 5
  {
    hide FirstStartAbove, EpochForSeq, PLog.BecomeLeader, PLog.WellFormed;
    OpensTermFive();
    var p1 := PLog([], 1, [Entry(5, 1)], 5, true);
    assert p1.AppendReplicated(r) == Result(p1.(recs := [r]), Ok);
    OneRecordWellFormed(r);
    LatestCovers(p1.hist, 1);
  }

  lemma OpensTermFive()
    ensures EMPTY.BecomeLeader(5).log == PLog([], 1, [Entry(5, 1)], 5, true)
  {
    hide FirstStartAbove;
  }

  lemma OneRecordWellFormed(r: Record)
    requires r.seqno == 1
    ensures PLog([r], 1, [Entry(5, 1)], 5, true).WellFormed()
  {
    hide FirstStartAbove;
  }

  lemma EpochsBelowCurrent(p: PLog, i: nat)
    requires p.WellFormed() && p.HistoryAgrees() && i < |p.recs|
    ensures p.recs[i].epoch <= p.cur
  {
    assert p.Placed(i);
  }

  /** A defined answer is the exact boundary of term e among the retained records:
      everything of e or older lies below it, everything newer at or above it. */
  lemma EndOffsetIsBoundary(p: PLog, e: nat, s: nat)
    requires p.WellFormed() && p.HistoryAgrees() && p.first <= s < p.Next()
    requires p.EndOffsetForEpoch(e).epoch != UNDEFINED_EPOCH
    ensures p.recs[s - 1].epoch <= e <==> s < p.EndOffsetForEpoch(e).end
  {
    assert p.Placed(s - 1);
    EpochsBelowCurrent(p, s - 1);
  }

  /** The answer is undefined exactly when the history knows no term up to e. */
  lemma EndOffsetUndefinedIff(p: PLog, e: nat)
    requires p.WellFormed()
    ensures p.EndOffsetForEpoch(e).epoch == UNDEFINED_EPOCH
      <==> forall i :: 0 <= i < |p.hist| ==> p.hist[i].epoch > e
  {
  }

  /** A crash that lost the records after k, while the checkpointed history stayed. */
  function Reopened(p: PLog, k: nat): PLog
    requires k <= |p.recs|
  {
    p.(recs := p.recs[..k], leading := false)
  }

  /** The history begins its latest term past the end of the log. */
  predicate HistoryAhead(h: seq<Entry>, k: nat) {
    h != [] && h[|h| - 1].start > k + 1
  }

  /** After such a crash the next record written in the current term disagrees with the history exactly
      when that term had not begun by then. */
  lemma LossyRestartIff(p: PLog, k: nat, r: Record)
    requires p.WellFormed() && p.HistoryAgrees() && k <= |p.recs| && !Ephemeral(r)
    ensures Reopened(p, k).Append(r).log.HistoryAgrees() <==> !HistoryAhead(p.hist, k)
  {
    hide EpochForSeq;
    var z := Reopened(p, k).Append(r).log;
    forall i | 0 <= i < k ensures z.Placed(i) {
      assert p.Placed(i) && z.recs[i] == p.recs[i];
    }
    assert z.recs[k].epoch == p.cur;
    CurrentCoversIff(p.hist, k + 1);
    assert z.HistoryAgrees() <==> z.Placed(k);
  }

  /** In exactly the same case the replica is stuck: every promotion and every record of a newer term
      is refused, because the history does not take a start before its last. */
  lemma LossyRestartRefuses(p: PLog, k: nat, e: nat, r: Record)
    requires p.WellFormed() && k <= |p.recs| && e > p.cur
    requires !Ephemeral(r) && r.seqno == k + 1 && r.epoch > p.cur
    ensures var q := Reopened(p, k);
      && (q.BecomeLeader(e).outcome == HistoryRefused <==> HistoryAhead(p.hist, k))
      && (q.AppendReplicated(r).outcome == HistoryRefused <==> HistoryAhead(p.hist, k))
  {
  }

  /** A failing input: two records, a promotion to term 5 at sequence 3, and a crash that keeps one
      record. The next record of term 5 is answered as of no term, and term 6 is refused. */
  lemma LostTailStrandsReplica(a: Record, b: Record, r: Record)
    requires a.seqno == 1 && b.seqno == 2 && a.epoch == 0 && b.epoch == 0 && !Ephemeral(r)
    ensures var p := PLog([a, b], 1, [Entry(5, 3)], 5, true);
      && p.WellFormed() && p.HistoryAgrees()
      && !Reopened(p, 1).Append(r).log.HistoryAgrees()
      && Reopened(p, 1).BecomeLeader(6).outcome == HistoryRefused
  {
    hide FirstStartAbove;
    var p := PLog([a, b], 1, [Entry(5, 3)], 5, true);
    assert p.WellFormed();
    forall i | 0 <= i < 2 ensures p.Placed(i) { assert FirstStartAbove(p.hist, i + 1) == 0; }
    LossyRestartIff(p, 1, r);
  }

  /** The latest term is the answer for s exactly when it had begun by s. */
  lemma CurrentCoversIff(h: seq<Entry>, s: nat)
    requires Sorted(h)
    ensures EpochForSeq(h, s) == LatestEpoch(h) <==> h == [] || h[|h| - 1].start <= s
  {
    hide FirstStartAbove;
    var k := FirstStartAbove(h, s);
    if h != [] && h[|h| - 1].start <= s { LatestCovers(h, s); }
  }
}
