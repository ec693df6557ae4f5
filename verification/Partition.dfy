/** The segmented partition, refining the flat list of PartitionLog. */
module Partitions {
  import opened Records
  import opened EpochHistory
  import opened Metadata
  import opened Codec
  import opened Segments
  import PL = PartitionLog

  type PLog = PL.PLog

  // --- sizes -------------------------------------------------------------

  ghost function SizeOf(recs: seq<Record>): nat {
    if recs == [] then 0 else SizeOf(recs[..|recs| - 1]) + EncodedSize(recs[|recs| - 1])
  }

  lemma SizeOfAppend(recs: seq<Record>, r: Record)
    ensures SizeOf(recs + [r]) == SizeOf(recs) + EncodedSize(r)
  {
    assert (recs + [r])[..|recs|] == recs;
  }

  lemma {:induction false} SizeOfConcat(a: seq<Record>, b: seq<Record>)
    ensures SizeOf(a + b) == SizeOf(a) + SizeOf(b)
    decreases |b|
  {
    hide EncodedSize;
    if b == [] {
      assert a + b == a;
    } else {
      var n := |b| - 1;
      SizeOfConcat(a, b[..n]);
      assert a + b == (a + b[..n]) + [b[n]];
      SizeOfAppend(a + b[..n], b[n]);
    }
  }

  lemma SizeOfSplit(recs: seq<Record>, i: nat, j: nat, k: nat)
    requires i <= j <= k <= |recs|
    ensures SizeOf(recs[i..k]) == SizeOf(recs[i..j]) + SizeOf(recs[j..k])
  {
    hide SizeOf;
    assert recs[i..k] == recs[i..j] + recs[j..k];
    SizeOfConcat(recs[i..j], recs[j..k]);
  }

  lemma SizeOfTail(recs: seq<Record>, i: nat, j: nat)
    requires i <= j <= |recs|
    ensures SizeOf(recs[i..]) == SizeOf(recs[i..j]) + SizeOf(recs[j..])
    ensures recs[j..|recs|] == recs[j..] && recs[..j][i..] == recs[i..j]
  {
    hide SizeOf;
    SizeOfSplit(recs, i, j, |recs|);
    assert recs[i..|recs|] == recs[i..] && recs[j..|recs|] == recs[j..];
    assert recs[..j][i..] == recs[i..j];
  }

  lemma {:induction false} BodiesPlusHeaders(recs: seq<Record>)
    ensures SizeOf(recs) == BodyBytes(recs) + FRAME_HEADER * |recs|
  {
    hide EncodedSize;
    if recs != [] { BodiesPlusHeaders(recs[..|recs| - 1]); }
  }

  /** The boundaries of a laid-out file are the running sizes of its records. */
  lemma {:induction false} LaidSize(crc: Checksum, base: nat, file: Bytes, offs: seq<nat>, recs: seq<Record>, k: nat)
    requires Laid(crc, base, file, offs, recs) && k <= |recs|
    ensures offs[k] == SizeOf(recs[..k])
    decreases k
  {
    hide EncodedSize, FrameOk, SizeOf;
    if k == 0 {
      NoSize();
    } else {
      LaidSize(crc, base, file, offs, recs, k - 1);
      FrameSize(crc, file[offs[k - 1]..offs[k]], recs[k - 1]);
      assert recs[..k] == recs[..k - 1] + [recs[k - 1]];
      SizeOfAppend(recs[..k - 1], recs[k - 1]);
    }
  }

  lemma NoSize()
    ensures SizeOf([]) == 0
  {
  }

  // --- layout ------------------------------------------------------------

  /** Sequence of the last record segment i holds, given the log's length. */
  function EndSeq(segs: seq<Segment>, n: nat, i: nat): int
    requires i < |segs|
  {
    if i + 1 < |segs| then segs[i + 1].base - 1 else n
  }

  /** Segment g holds exactly the records base .. end of the log. */
  ghost predicate PieceOk(crc: Checksum, g: Segment, end: int, log: seq<Record>)
    reads g
  {
    && g.Valid() && g.Sealed() && g.crc == crc
    && 1 <= g.base <= end + 1 <= |log| + 1 && g.recs == log[g.base - 1..end]
  }

  predicate Rising(segs: seq<Segment>) {
    forall i, j :: 0 <= i < j < |segs| ==> segs[i].base < segs[j].base
  }

  /** Consecutive segments split the log from the first base on, none but the last empty. */
  ghost predicate Layout(crc: Checksum, segs: seq<Segment>, log: seq<Record>)
    reads segs
  {
    && |segs| > 0 && Rising(segs)
    && forall i :: 0 <= i < |segs| ==> PieceOk(crc, segs[i], EndSeq(segs, |log|, i), log)
  }

  lemma PieceFacts(crc: Checksum, g: Segment, end: int, log: seq<Record>)
    requires PieceOk(crc, g, end, log)
    ensures 1 <= g.base <= end + 1 <= |log| + 1 && g.lastSeq == end
    ensures g.size == SizeOf(log[g.base - 1..end]) && g.IsEmpty() == (end < g.base)
  {
    hide SizeOf;
    LaidSize(g.crc, g.base, g.file[..g.size], g.offs, g.recs, |g.recs|);
    assert g.recs[..|g.recs|] == g.recs;
  }

  lemma LayoutFact(crc: Checksum, segs: seq<Segment>, log: seq<Record>, i: nat)
    requires Layout(crc, segs, log) && i < |segs|
    ensures PieceOk(crc, segs[i], EndSeq(segs, |log|, i), log)
  {
  }

  lemma LayoutParts(crc: Checksum, segs: seq<Segment>, log: seq<Record>)
    requires Layout(crc, segs, log)
    ensures |segs| > 0 && Rising(segs)
    ensures forall i :: 0 <= i < |segs| ==> PieceOk(crc, segs[i], EndSeq(segs, |log|, i), log) && segs[i].crc == crc
    ensures forall i :: 0 <= i < |segs| - 1 ==> segs[i] != segs[|segs| - 1]
  {
    hide PieceOk;
    forall i | 0 <= i < |segs| ensures segs[i].crc == crc {
      PieceCrc(crc, segs[i], EndSeq(segs, |log|, i), log);
    }
  }

  lemma PieceCrc(crc: Checksum, g: Segment, end: int, log: seq<Record>)
    requires PieceOk(crc, g, end, log)
    ensures g.crc == crc
  {
  }

  lemma FirstBase(segs: seq<Segment>)
    requires |segs| > 0 && Rising(segs)
    ensures segs[0].base <= segs[|segs| - 1].base
  {
  }

  lemma FirstTwo(segs: seq<Segment>)
    requires |segs| > 1 && Rising(segs)
    ensures segs[0].base < segs[1].base
  {
  }

  lemma RisingSnoc(segs: seq<Segment>, g: Segment)
    requires |segs| > 0 && Rising(segs) && segs[|segs| - 1].base < g.base
    ensures Rising(segs + [g])
  {
  }

  lemma RisingSlice(segs: seq<Segment>, a: nat, b: nat)
    requires Rising(segs) && a <= b <= |segs|
    ensures Rising(segs[a..b])
  {
  }

  lemma PieceShorter(crc: Checksum, g: Segment, end: int, log: seq<Record>, log': seq<Record>)
    requires PieceOk(crc, g, end, log) && end <= |log'| <= |log| && log' == log[..|log'|]
    ensures PieceOk(crc, g, end, log')
  {
    assert log'[g.base - 1..end] == log[g.base - 1..end];
  }

  lemma BaseInside(crc: Checksum, segs: seq<Segment>, log: seq<Record>, i: nat)
    requires Layout(crc, segs, log) && i < |segs|
    ensures 1 <= segs[i].base <= EndSeq(segs, |log|, i) + 1 <= |log| + 1
  {
    hide Rising;
    LayoutFact(crc, segs, log, i);
    PieceFacts(crc, segs[i], EndSeq(segs, |log|, i), log);
  }

  lemma EndsOrdered(crc: Checksum, segs: seq<Segment>, log: seq<Record>, i: nat, j: nat)
    requires Layout(crc, segs, log) && i <= j < |segs|
    ensures EndSeq(segs, |log|, i) <= EndSeq(segs, |log|, j)
  {
    hide PieceOk;
    BaseInside(crc, segs, log, i);
  }

  /** Segments a .. b-1 are a layout of the log up to the base of segment b. */
  lemma LayoutSlice(crc: Checksum, segs: seq<Segment>, log: seq<Record>, a: nat, b: nat, log': seq<Record>)
    requires Layout(crc, segs, log) && a < b <= |segs|
    requires log' <= log && |log'| == EndSeq(segs, |log|, b - 1)
    ensures Layout(crc, segs[a..b], log')
  {
    hide PieceOk, Rising;
    var part := segs[a..b];
    forall i | 0 <= i < |part| ensures PieceOk(crc, part[i], EndSeq(part, |log'|, i), log') {
      LayoutFact(crc, segs, log, a + i);
      EndsOrdered(crc, segs, log, a + i, b - 1);
      PieceShorter(crc, segs[a + i], EndSeq(segs, |log|, a + i), log, log');
    }
    assert Rising(part) by { RisingSlice(segs, a, b); }
  }

  lemma PieceLonger(crc: Checksum, g: Segment, end: int, log: seq<Record>, r: Record)
    requires PieceOk(crc, g, end, log)
    ensures PieceOk(crc, g, end, log + [r])
  {
    assert (log + [r])[g.base - 1..end] == log[g.base - 1..end];
  }

  /** The last segment took one more record; the others did not change. */
  lemma LayoutExtend(crc: Checksum, segs: seq<Segment>, log: seq<Record>, r: Record)
    requires |segs| > 0 && Rising(segs)
    requires forall i :: 0 <= i < |segs| - 1 ==> PieceOk(crc, segs[i], EndSeq(segs, |log|, i), log)
    requires PieceOk(crc, segs[|segs| - 1], |log| + 1, log + [r])
    ensures Layout(crc, segs, log + [r])
  {
    hide PieceOk, Rising;
    var log' := log + [r];
    forall i | 0 <= i < |segs| ensures PieceOk(crc, segs[i], EndSeq(segs, |log'|, i), log') {
      if i < |segs| - 1 { PieceLonger(crc, segs[i], EndSeq(segs, |log|, i), log, r); }
    }
  }

  /** A new empty segment at the end of the log. */
  lemma LayoutRoll(crc: Checksum, segs: seq<Segment>, log: seq<Record>, g: Segment)
    requires Layout(crc, segs, log) && segs[|segs| - 1].base <= |log|
    requires PieceOk(crc, g, |log|, log) && g.base == |log| + 1
    ensures Layout(crc, segs + [g], log)
  {
    hide PieceOk, Rising;
    LayoutParts(crc, segs, log);
    RisingSnoc(segs, g);
    var segs' := segs + [g];
    forall i | 0 <= i < |segs'| ensures PieceOk(crc, segs'[i], EndSeq(segs', |log|, i), log) {
      if i < |segs| { LayoutFact(crc, segs, log, i); }
    }
  }

  lemma LayoutCut(crc: Checksum, segs: seq<Segment>, cut: seq<Record>, s: nat)
    requires |segs| > 0 && Rising(segs) && segs[|segs| - 1].base < s <= |cut| + 1
    requires forall i :: 0 <= i < |segs| - 1 ==> PieceOk(crc, segs[i], EndSeq(segs, |cut|, i), cut)
    requires PieceOk(crc, segs[|segs| - 1], s - 1, cut[..s - 1])
    ensures Layout(crc, segs, cut[..s - 1])
  {
    hide PieceOk;
    var log' := cut[..s - 1];
    forall i | 0 <= i < |segs| ensures PieceOk(crc, segs[i], EndSeq(segs, |log'|, i), log') {
      if i < |segs| - 1 { PieceShorter(crc, segs[i], EndSeq(segs, |cut|, i), cut, log'); }
    }
  }

  lemma CutSize(cut: seq<Record>, first: nat, base: nat, s: nat)
    requires 1 <= first <= base < s <= |cut| + 1
    ensures var kept := cut[..s - 1];
      SizeOf(cut[first - 1..]) - SizeOf(cut[base - 1..]) == SizeOf(kept[first - 1..]) - SizeOf(kept[base - 1..])
  {
    hide SizeOf;
    SizeOfSplit(cut, first - 1, base - 1, |cut|);
    SizeOfSplit(cut, first - 1, base - 1, s - 1);
    assert cut[first - 1..|cut|] == cut[first - 1..] && cut[base - 1..|cut|] == cut[base - 1..];
    assert cut[..s - 1][first - 1..] == cut[first - 1..s - 1] && cut[..s - 1][base - 1..] == cut[base - 1..s - 1];
  }

  lemma PieceNew(crc: Checksum, g: Segment, log: seq<Record>)
    requires g.Valid() && g.Sealed() && g.crc == crc && g.base == |log| + 1 && g.recs == []
    ensures PieceOk(crc, g, |log|, log)
  {
    hide Laid, IndexOk;
  }

  lemma LayoutNew(crc: Checksum, g: Segment)
    requires PieceOk(crc, g, 0, [])
    ensures Layout(crc, [g], [])
  {
    hide PieceOk;
  }

  lemma PieceAppend(crc: Checksum, g: Segment, log: seq<Record>, r: Record)
    requires g.Valid() && g.Sealed() && g.crc == crc && 1 <= g.base <= |log| + 1 && g.recs == log[g.base - 1..] + [r]
    ensures PieceOk(crc, g, |log| + 1, log + [r])
  {
  }

  /** The flag bits take no part in the size. */
  lemma EncodableFlags(r: Record)
    ensures Encodable(Normal(r)) == Encodable(r)
  {
  }

  lemma NormalEphemeral(r: Record)
    ensures Ephemeral(Normal(r)) == Ephemeral(r)
  {
  }

  lemma LearnedThenStored(p: PLog, r: Record)
    requires p.WellFormed() && r.seqno == p.Next() && !Ephemeral(Normal(r))
    ensures var a := AssignTerm(p.hist, r.epoch, r.seqno);
      var q := if r.epoch > p.cur then p.(hist := a.entries, cur := r.epoch) else p;
      p.AppendReplicated(Normal(r)) == PL.Result(q.(recs := p.recs + [Normal(r)]), PL.Ok)
  {
  }

  lemma WellFormedFacts(p: PLog)
    requires p.WellFormed()
    ensures Sorted(p.hist) && 1 <= p.first <= p.Next() && p.cur == LatestEpoch(p.hist)
  {
  }

  // --- the partition -----------------------------------------------------

  datatype Reply = Did(outcome: PL.Outcome) | Closed | NotLeader | Unencodable

  datatype Fetched = Got(recs: seq<Record>) | SeqTruncated | LogClosed

  /** The sequence a read starts from: 0 stands for the oldest record. */
  function ReadStart(fromSeq: nat, first: nat): nat {
    if fromSeq == 0 then first else fromSeq
  }

  /** Index of the first record at or past s. */
  ghost function ReadIndex(log: seq<Record>, s: nat): nat {
    if s == 0 then 0 else if s - 1 <= |log| then s - 1 else |log|
  }

  /** What a read owes its caller, stated on the flat list. */
  ghost predicate ReadOk(log: seq<Record>, s: nat, max: int, maxBytes: int, out: seq<Record>) {
    var a := ReadIndex(log, s);
    && out <= log[a..] && |out| <= max
    && (a < |log| ==> |out| > 0)
    && (a + |out| == |log| || Filled(out, max, maxBytes))
  }

  /** out is the run from index a, and the cursor stands right after it. */
  ghost predicate Progress(log: seq<Record>, a: nat, out: seq<Record>, cursor: nat) {
    a + |out| <= |log| && out == log[a..a + |out|] && ReadIndex(log, cursor) == a + |out|
  }

  ghost predicate Filled(out: seq<Record>, max: int, maxBytes: int) {
    |out| == max || (maxBytes > 0 && SizeOf(out) >= maxBytes)
  }

  lemma ProgressFacts(log: seq<Record>, a: nat, out: seq<Record>, cursor: nat)
    ensures Progress(log, a, out, cursor) ==>
      a + |out| <= |log| && out <= log[a..] && ReadIndex(log, cursor) == a + |out|
    ensures a == ReadIndex(log, cursor) ==> Progress(log, a, [], cursor)
  {
  }

  lemma SeqnoAt(p: PLog, i: nat)
    requires p.WellFormed() && i < |p.recs|
    ensures p.recs[i].seqno == i + 1
  {
  }

  lemma SlicesMeet(log: seq<Record>, a: nat, b: nat, c: nat)
    requires a <= b <= c <= |log|
    ensures log[a..b] + log[b..c] == log[a..c] && (b < c ==> log[b..c][c - b - 1] == log[c - 1])
  {
  }

  lemma Advance(p: PLog, a: nat, out: seq<Record>, cursor: nat, batch: seq<Record>)
    requires p.WellFormed() && Progress(p.recs, a, out, cursor)
    requires a + |out| + |batch| <= |p.recs| && batch == p.recs[a + |out|..a + |out| + |batch|]
    ensures Progress(p.recs, a, out + batch, if batch == [] then cursor else batch[|batch| - 1].seqno + 1)
    ensures SizeOf(out + batch) == SizeOf(out) + SizeOf(batch) && SizeOf(batch) >= BodyBytes(batch)
  {
    hide SizeOf, BodyBytes, PL.PLog.WellFormed;
    SizeOfConcat(out, batch);
    BodiesPlusHeaders(batch);
    if |batch| > 0 { SeqnoAt(p, a + |out| + |batch| - 1); }
    SlicesMeet(p.recs, a, a + |out|, a + |out| + |batch|);
  }

  /** The sequence before segment i, or the end of the log. */
  ghost function Reached(segs: seq<Segment>, n: nat, i: nat): int {
    if i < |segs| then segs[i].base - 1 else n
  }

  /** Segment 1 is empty only when the log ends before it. */
  lemma AgeOf(crc: Checksum, segs: seq<Segment>, log: seq<Record>)
    requires Layout(crc, segs, log) && |segs| > 1
    ensures segs[1].base <= EndSeq(segs, |log|, 1) <==> segs[1].base <= |log|
  {
    hide PieceOk;
    BaseInside(crc, segs, log, 1);
  }

  /** The oldest segment, from a up to b, is over the size limit or wholly past its age. */
  ghost predicate Due(log: seq<Record>, a: nat, b: nat, maxBytes: int, cutoff: int) {
    || (maxBytes > 0 && 1 <= a <= |log| + 1 && SizeOf(log[a - 1..]) > maxBytes)
    || (cutoff > 0 && 1 <= b <= |log| && 0 < log[b - 1].timestamp < cutoff)
  }

  lemma RetainTwice(p: PLog, f: nat, g: nat)
    requires p.WellFormed() && p.first <= f < g <= p.Next()
    ensures p.Retain(f).WellFormed() && p.Retain(f).Retain(g) == p.Retain(g)
  {
    hide CutBefore;
    PL.RetainKeepsWellFormed(p, f);
    if f > p.first { CutBeforeTwice(p.hist, f, g); }
  }

  lemma EmptyWellFormed()
    ensures PL.EMPTY.WellFormed()
  {
  }

  class Partition {
    const crc: Checksum
    const segmentBytes: int
    const interval: int
    const retentionBytes: int
    const retentionAge: int
    var segments: seq<Segment>
    var nextSeq: nat
    var firstSeq: nat
    var closed: bool
    const epochs: LeaderEpochCache
    var curEpoch: nat
    var enforceLeadership: bool
    var isLeader: bool
    var byteCount: int
    ghost var log: seq<Record>

    /** The flat list this partition stands for. */
    ghost function Abs(): PLog
      reads this, epochs
    {
      PL.PLog(log, firstSeq, epochs.entries, curEpoch, isLeader)
    }

    ghost predicate Valid()
      reads this, epochs, segments
    {
      && Abs().WellFormed() && nextSeq == |log| + 1
      && (!closed ==> Stored())
    }

    /** The segments hold the log from firstSeq on. */
    ghost predicate Stored()
      reads this`segments, this`log, this`firstSeq, this`byteCount, segments
    {
      && Layout(crc, segments, log) && segments[0].base == firstSeq && !segments[|segments| - 1].readOnly
      && 1 <= firstSeq <= |log| + 1 && byteCount == SizeOf(log[firstSeq - 1..])
    }

    constructor (crc: Checksum, segmentBytes: int, interval: int, retentionBytes: int, retentionAge: int)
      ensures Valid() && !closed && Abs() == PL.EMPTY && fresh(epochs) && |segments| == 1 && fresh(segments[0])
    {
      hide *;
      var g := new Segment.Create(crc, 1, interval);
      this.crc, this.segmentBytes, this.interval := crc, segmentBytes, interval;
      this.retentionBytes, this.retentionAge := retentionBytes, retentionAge;
      segments, nextSeq, firstSeq, closed := [g], 1, 1, false;
      epochs := new LeaderEpochCache();
      curEpoch, enforceLeadership, isLeader, byteCount, log := 0, false, false, 0, [];
      new;
      StartsEmpty();
    }

    lemma StartsEmpty()
      requires |segments| == 1 && nextSeq == 1 && firstSeq == 1 && !closed && epochs.entries == []
      requires curEpoch == 0 && !isLeader && byteCount == 0 && log == []
      requires var g := segments[0];
        g.Valid() && g.Sealed() && g.crc == crc && g.base == 1 && g.recs == [] && !g.readOnly
      ensures Valid() && Abs() == PL.EMPTY
    {
      hide Layout, PieceOk, SizeOf, Segment.Valid, PL.PLog.WellFormed;
      PieceNew(crc, segments[0], []);
      LayoutNew(crc, segments[0]);
      assert segments == [segments[0]];
      NoSize();
      EmptyWellFormed();
    }

    /** Seals the active segment and starts one at the next sequence. */
    method Roll()
      requires Stored() && nextSeq == |log| + 1 && segments[|segments| - 1].base <= |log|
      modifies this`segments
      ensures Stored() && |segments| == |old(segments)| + 1 && segments[..|old(segments)|] == old(segments)
      ensures var g := segments[|old(segments)|]; fresh(g) && g.base == nextSeq && g.size == 0
    {
      hide SizeOf, Layout, PieceOk, Laid, IndexOk;
      LayoutParts(crc, segments, log);
      var g := new Segment.Create(crc, nextSeq, interval);
      PieceNew(crc, g, log);
      LayoutRoll(crc, segments, log, g);
      segments := segments + [g];
    }

    /** Writes bytes at the end of the active segment, under the next sequence. */
    method Write(encoded: Bytes, ghost r: Record)
      requires Stored() && nextSeq == |log| + 1 && r.seqno == nextSeq
      modifies this`nextSeq, this`byteCount, this`log, segments
      ensures nextSeq == old(nextSeq) + 1 && byteCount == old(byteCount) + |encoded| && EndsIn(encoded)
      ensures FrameOk(crc, encoded, r) ==> Stored() && log == old(log) + [r]
      ensures |segments| > 0 && segments[|segments| - 1].size == old(segments[|segments| - 1].size) + |encoded|
    {
      hide SizeOf, FrameOk, Layout, PieceOk, EncodedSize, Rising;
      LayoutParts(crc, segments, log);
      var n := |segments| - 1;
      var ok := AppendTo(segments[n], encoded, r, log);
      if FrameOk(crc, encoded, r) {
        LayoutExtend(crc, segments, log, r);
        FrameSize(crc, encoded, r);
        SizeOfAppend(log[firstSeq - 1..], r);
        assert (log + [r])[firstSeq - 1..] == log[firstSeq - 1..] + [r];
        log := log + [r];
      }
      nextSeq := nextSeq + 1;
      byteCount := byteCount + |encoded|;
    }

    /** The active segment's file ends in these bytes. */
    ghost predicate EndsIn(encoded: Bytes)
      reads this`segments, segments
    {
      && |segments| > 0
      && var file := segments[|segments| - 1].file;
      |encoded| <= |file| && file[|file| - |encoded|..] == encoded
    }

    /** The active segment holds a record and n more bytes would take it over its size. */
    predicate Full(n: nat)
      reads this`segments, segments
    {
      |segments| > 0 && var g := segments[|segments| - 1]; g.lastSeq >= g.base && g.size + n > segmentBytes
    }

    /** Writes at the next sequence, rolling first when the active segment is full. */
    method Store(encoded: Bytes, ghost r: Record)
      requires Stored() && nextSeq == |log| + 1 && r.seqno == nextSeq
      modifies this`segments, this`nextSeq, this`byteCount, this`log, segments
      ensures nextSeq == old(nextSeq) + 1 && byteCount == old(byteCount) + |encoded| && EndsIn(encoded)
      ensures FrameOk(crc, encoded, r) ==> Stored() && log == old(log) + [r]
      ensures forall g :: g in segments ==> g in old(segments) || fresh(g)
      ensures |segments| == |old(segments)| + (if old(Full(|encoded|)) then 1 else 0)
      ensures |old(segments)| > 0 && segments[..|old(segments)|] == old(segments)
      ensures var g := segments[|segments| - 1]; g.size <= segmentBytes || g.base == old(nextSeq)
    {
      hide SizeOf, FrameOk, Layout, PieceOk, Rising, EndsIn;
      LayoutParts(crc, segments, log);
      var n := |segments| - 1;
      PieceFacts(crc, segments[n], |log|, log);
      if segments[n].size + |encoded| > segmentBytes && !segments[n].IsEmpty() {
        Roll();
      }
      Write(encoded, r);
    }

    /** Encodes and stores; nothing changes when the encoder refuses. The encoder does not check the headers: what
        it stores reads back as the record exactly when they fit. */
    method EncodeAndStore(rec: Record) returns (ok: bool, ghost frame: Bytes)
      requires Stored() && nextSeq == |log| + 1 && rec.seqno == nextSeq && FieldsFit(rec)
      modifies this`segments, this`nextSeq, this`byteCount, this`log, segments
      ensures ok == Encodable(rec)
      ensures if ok then nextSeq == old(nextSeq) + 1 && Ends(frame, rec) else nextSeq == old(nextSeq)
      ensures HeadersFit(rec.headers) || !ok ==> Stored() && log == if ok then old(log) + [Normal(rec)] else old(log)
      ensures forall g :: g in segments ==> g in old(segments) || fresh(g)
    {
      hide Encode, Stored, FieldsFit, HeadersFit, Encodable, Whole, DecodeRecord, EncodedSize, Lists, EndsIn,
        Passed;
      var e, ps := EncodeRecord(crc, rec);
      frame := [];
      EncodableIff(crc, rec, ps);
      if !e.Framed? {
        return false, frame;
      }
      if HeadersFit(rec.headers) { EncodedFrame(crc, rec, ps); }
      EncodedPasses(crc, rec, ps);
      frame := e.frame;
      Store(e.frame, Normal(rec));
      return true, frame;
    }

    /** The active segment ends in a frame of rec: every scan passes it under rec's sequence, and a read gets
        rec from it exactly when its headers fit. */
    ghost predicate Ends(frame: Bytes, rec: Record)
      reads this`segments, segments
    {
      EndsIn(frame) && Passed(crc, frame, rec)
    }

    ghost function Clocked(r: Record, now: int): Record {
      Normal(r.(timestamp := if r.timestamp == 0 then now else r.timestamp))
    }

    /** x is r as the broker stores it last: sequence and term its own, the time filled in where missing, and key,
        headers and payload untouched. */
    predicate Stamped(x: Record, r: Record, now: int)
      reads this
    {
      && x.seqno + 1 == nextSeq && x.epoch == curEpoch
      && x.timestamp == (if r.timestamp == 0 then now else r.timestamp)
      && x.key == r.key && x.headers == r.headers && x.payload == r.payload
    }

    /** A local write: sequence, epoch and a missing timestamp are the broker's. */
    method Append(r: Record, now: int) returns (reply: Reply, s: nat, ghost frame: Bytes)
      requires Valid()
      requires nextSeq < U64 && curEpoch < U32 && FieldsFit(Clocked(r, now))
      modifies this`segments, this`nextSeq, this`byteCount, this`log, segments
      ensures reply ==
        if Ephemeral(r) then Did(PL.EphemeralRecord)
        else if closed then Closed
        else if enforceLeadership && !isLeader then NotLeader
        else if Encodable(old(Abs()).Stamp(Clocked(r, now))) then Did(PL.Ok) else Unencodable
      ensures HeadersFit(r.headers) || reply != Did(PL.Ok) ==>
        Valid() && Abs() == if reply == Did(PL.Ok) then old(Abs()).Append(Clocked(r, now)).log else old(Abs())
      ensures HeadersFit(r.headers) && reply == Did(PL.Ok) ==> |log| > 0 && Stamped(log[|log| - 1], r, now)
      ensures reply == Did(PL.Ok) ==>
        s == old(nextSeq) && nextSeq == s + 1 && Ends(frame, old(Abs()).Stamp(Clocked(r, now)))
      ensures forall g :: g in segments ==> g in old(segments) || fresh(g)
    {
      hide Stored, HeadersFit, Encodable, EndsIn, Passed;
      s, frame := 0, [];
      if Ephemeral(r) { return Did(PL.EphemeralRecord), 0, frame; }
      if closed { return Closed, 0, frame; }
      if enforceLeadership && !isLeader { return NotLeader, 0, frame; }
      var ts := if r.timestamp == 0 then now else r.timestamp;
      var rec := r.(seqno := nextSeq, epoch := curEpoch, timestamp := ts);
      EncodableFlags(rec);
      assert Normal(rec) == Abs().Stamp(Clocked(r, now));
      PL.AppendKeepsWellFormed(Abs(), Clocked(r, now));
      var ok;
      ok, frame := EncodeAndStore(rec);
      if ok { PassedNormal(crc, frame, rec); }
      NormalEphemeral(r);
      return if ok then Did(PL.Ok) else Unencodable, rec.seqno, frame;
    }

    /** The history learns of a newer term before the record that carries it lands. */
    ghost function Learned(r: Record): PLog
      reads this, epochs
    {
      if r.epoch <= curEpoch then Abs()
      else Abs().(hist := AssignTerm(Abs().hist, r.epoch, r.seqno).entries, cur := r.epoch)
    }

    method Learn(r: Record) returns (ok: bool)
      requires Valid() && r.seqno == nextSeq
      modifies this`curEpoch, epochs
      ensures Valid() && ok && Abs() == old(Learned(r))
    {
      hide Stored;
      if r.epoch > curEpoch {
        ok := epochs.Assign(r.epoch, r.seqno);
        if !ok { return false; }
        curEpoch := r.epoch;
      }
      return true;
    }

    /** The follower's write path: the sequence is the leader's. */
    method AppendReplicated(r: Record) returns (reply: Reply, ghost frame: Bytes)
      requires Valid() && FieldsFit(r)
      modifies this`segments, this`nextSeq, this`byteCount, this`log, this`curEpoch, segments, epochs
      ensures reply.Did? || (reply.Closed? && closed) || (reply.Unencodable? && !Encodable(r))
      ensures HeadersFit(r.headers) || reply != Did(PL.Ok) ==> Valid()
      ensures HeadersFit(r.headers) && reply.Did? ==>
        PL.Result(Abs(), reply.outcome) == old(Abs()).AppendReplicated(Normal(r))
      ensures reply.Did? ==> reply.outcome == old(Abs()).AppendReplicated(Normal(r)).outcome
      ensures reply == Did(PL.Ok) ==> nextSeq == old(nextSeq) + 1 && Ends(frame, r)
      ensures reply.Closed? ==> Abs() == old(Abs())
      ensures reply.Unencodable? ==> Abs() == old(Learned(r))
      ensures forall g :: g in segments ==> g in old(segments) || fresh(g)
    {
      hide Stored, HeadersFit, Encodable, FieldsFit, PL.PLog.WellFormed, Ends;
      frame := [];
      NormalEphemeral(r);
      if Ephemeral(r) { return Did(PL.EphemeralRecord), frame; }
      if r.seqno == 0 { return Did(PL.NoSequence), frame; }
      if closed { return Closed, frame; }
      if r.seqno < nextSeq { return Did(PL.AlreadyApplied), frame; }
      if r.seqno > nextSeq { return Did(PL.ReplicationGap), frame; }
      PL.ReplicateKeepsWellFormed(Abs(), Normal(r));
      LearnedThenStored(Abs(), r);
      var ok := Learn(r);
      if !ok { return Did(PL.HistoryRefused), frame; }
      ok, frame := EncodeAndStore(r);
      return if ok then Did(PL.Ok) else Unencodable, frame;
    }

    method BecomeLeader(e: nat) returns (reply: Reply)
      requires Valid()
      modifies this`curEpoch, this`isLeader, epochs
      ensures Valid()
      ensures reply == if e == UNDEFINED_EPOCH then Did(PL.ZeroEpoch)
                       else if closed then Closed else Did(old(Abs()).BecomeLeader(e).outcome)
      ensures Abs() == if reply.Did? then old(Abs()).BecomeLeader(e).log else old(Abs())
    {
      hide Stored, PL.PLog.WellFormed, Sorted, LatestEpoch;
      WellFormedFacts(Abs());
      if e == UNDEFINED_EPOCH { return Did(PL.ZeroEpoch); }
      if closed { return Closed; }
      if e <= curEpoch { return Did(PL.EpochNotNewer); }
      PL.PromoteKeepsWellFormed(Abs(), e);
      var ok := epochs.Assign(e, nextSeq);
      if !ok { return Did(PL.HistoryRefused); }
      curEpoch := e;
      isLeader := true;
      return Did(PL.Ok);
    }

    method ReassertLeadership(e: nat) returns (reply: Reply)
      requires Valid()
      modifies this`isLeader
      ensures Valid()
      ensures reply == if closed then Closed else Did(old(Abs()).ReassertLeadership(e).outcome)
      ensures Abs() == if reply.Did? then old(Abs()).ReassertLeadership(e).log else old(Abs())
    {
      hide Stored;
      if closed { return Closed; }
      if e != curEpoch { return Did(PL.EpochMismatch); }
      isLeader := true;
      return Did(PL.Ok);
    }

    method Resign()
      requires Valid()
      modifies this`isLeader
      ensures Valid() && Abs() == old(Abs()).Resign()
    {
      hide Stored;
      isLeader := false;
    }

    method EndOffsetForEpoch(e: nat) returns (answer: EpochEnd)
      requires Valid()
      ensures answer == Abs().EndOffsetForEpoch(e)
    {
      hide Stored;
      answer := EndOffsetFor(epochs.entries, e, nextSeq);
    }

    /** Drops whole segments that begin at or after s, newest first. */
    method DropFrom(s: nat, ghost whole: seq<Record>) returns (ghost cut: seq<Record>)
      requires Layout(crc, segments, whole) && 1 <= segments[0].base == firstSeq < s <= |whole|
      requires byteCount == SizeOf(whole[firstSeq - 1..])
      modifies this`segments, this`byteCount
      ensures segments <= old(segments) && Layout(crc, segments, cut) && segments[0].base == firstSeq
      ensures cut <= whole && firstSeq <= segments[|segments| - 1].base < s <= |cut| + 1
      ensures byteCount == SizeOf(cut[firstSeq - 1..])
    {
      hide SizeOf, Layout, PieceOk, Rising;
      cut := whole;
      LayoutParts(crc, segments, whole);
      while |segments| > 1
        invariant 0 < |segments| && segments <= old(segments) && Layout(crc, segments, cut)
        invariant segments[0].base == firstSeq
        invariant cut <= whole && firstSeq < s <= |cut| + 1 && byteCount == SizeOf(cut[firstSeq - 1..])
        decreases |segments|
      {
        var n := |segments| - 1;
        var last := segments[n];
        if last.base < s { break; }
        LayoutFact(crc, segments, cut, n);
        PieceFacts(crc, last, |cut|, cut);
        var kept := cut[..last.base - 1];
        LayoutSlice(crc, segments, cut, 0, n, kept);
        SizeOfTail(cut, firstSeq - 1, last.base - 1);
        assert segments[0..n] == segments[..n];
        byteCount := byteCount - last.size;
        segments := segments[..n];
        cut := kept;
      }
      LayoutParts(crc, segments, cut);
      FirstBase(segments);
    }

    /** The storage half of a truncation. */
    method CutStorage(s: nat)
      requires Stored() && firstSeq < s <= |log|
      modifies this`segments, this`byteCount, this`log, segments
      ensures Stored() && segments <= old(segments) && log == old(log)[..s - 1]
    {
      hide SizeOf, Layout, PieceOk, Rising;
      ghost var cut := DropFrom(s, log);
      LayoutParts(crc, segments, cut);
      var active := segments[|segments| - 1];
      var before := active.size;
      PieceFacts(crc, active, |cut|, cut);
      var ok := CutTo(active, s, cut);
      assert cut[..s - 1] == log[..s - 1];
      LayoutCut(crc, segments, cut, s);
      CutSize(cut, firstSeq, active.base, s);
      PieceFacts(crc, active, s - 1, log[..s - 1]);
      assert cut[active.base - 1..|cut|] == cut[active.base - 1..];
      assert log[..s - 1][active.base - 1..s - 1] == log[..s - 1][active.base - 1..];
      byteCount := byteCount + active.size - before;
      log := log[..s - 1];
    }

    /** Discards every record from s on. */
    method TruncateTo(s: nat) returns (reply: Reply, removed: nat)
      requires Valid()
      modifies this`segments, this`nextSeq, this`byteCount, this`log, this`curEpoch, segments, epochs
      ensures Valid() && segments <= old(segments)
      ensures reply == if closed then Closed else Did(old(Abs()).TruncateTo(s).outcome)
      ensures Abs() == if closed then old(Abs()) else old(Abs()).TruncateTo(s).log
      ensures removed == old(nextSeq) - nextSeq
    {
      hide Stored, PL.PLog.WellFormed, Sorted, CutFrom, LatestEpoch;
      WellFormedFacts(Abs());
      if closed { return Closed, 0; }
      if s >= nextSeq { return Did(PL.Ok), 0; }
      if s <= firstSeq { return Did(PL.BelowFirst), 0; }
      PL.TruncateKeepsWellFormed(Abs(), s);
      removed := nextSeq - s;
      CutStorage(s);
      nextSeq := s;
      epochs.TruncateFromSeq(s);
      curEpoch := LatestEpoch(epochs.entries);
      return Did(PL.Ok), removed;
    }

    /** A contiguous run from the requested record, across segments, within the two budgets. */
    method Read(fromSeq: nat, maxRecords: int, maxBytes: int) returns (res: Fetched)
      requires Valid()
      ensures res.LogClosed? <==> closed
      ensures res.SeqTruncated? <==> !closed && 0 < fromSeq < firstSeq
      ensures res.Got? ==>
        ReadOk(log, if fromSeq == 0 then firstSeq else fromSeq, if maxRecords <= 0 then 100 else maxRecords, maxBytes,
               res.recs)
    {
      hide SizeOf, Layout, PieceOk, Rising, PL.PLog.WellFormed, Progress;
      if closed { return LogClosed; }
      var max := if maxRecords <= 0 then 100 else maxRecords;
      var cursor: nat := ReadStart(fromSeq, firstSeq);
      if cursor < firstSeq { return SeqTruncated; }
      LayoutParts(crc, segments, log);
      ghost var a := ReadIndex(log, cursor);
      var out, bytesRead: nat, i, stop := [], 0, 0, false;
      NoSize();
      ProgressFacts(log, a, out, cursor);
      while i < |segments| && !stop
        invariant 0 <= i <= |segments| && Progress(log, a, out, cursor) && cursor >= 1
        invariant |out| <= max && bytesRead == SizeOf(out)
        invariant Filled(out, max, maxBytes) || (!stop && a + |out| >= Reached(segments, |log|, i))
      {
        out, cursor, bytesRead, stop := ReadStep(segments[i], i == |segments| - 1, EndSeq(segments, |log|, i), Abs(), a,
                                                 out, cursor, bytesRead, max, maxBytes);
        i := i + 1;
      }
      ProgressFacts(log, a, out, cursor);
      return Fetched.Got(out);
    }

    /** Drops the oldest segment from storage. */
    method Unlink()
      requires Stored() && |segments| > 1
      modifies this`segments, this`firstSeq, this`byteCount
      ensures Stored() && segments == old(segments)[1..] && firstSeq == segments[0].base > old(firstSeq)
    {
      hide SizeOf, Layout, PieceOk, Rising;
      LayoutParts(crc, segments, log);
      LayoutSlice(crc, segments, log, 1, |segments|, log);
      BaseInside(crc, segments, log, 1);
      FirstTwo(segments);
      assert segments[1..|segments|] == segments[1..];
      var oldest := segments[0];
      PieceFacts(crc, oldest, segments[1].base - 1, log);
      SizeOfTail(log, firstSeq - 1, segments[1].base - 1);
      segments := segments[1..];
      firstSeq := segments[0].base;
      byteCount := byteCount - oldest.size;
    }

    /** Drops the oldest segment and the history that only it needed. */
    method DropOldest()
      requires Valid() && !closed && |segments| > 1
      modifies this`segments, this`firstSeq, this`byteCount, epochs
      ensures Valid() && segments == old(segments)[1..] && firstSeq == segments[0].base > old(firstSeq)
      ensures Abs() == old(Abs()).Retain(firstSeq)
    {
      hide Layout, SizeOf, PL.PLog.WellFormed, Sorted, CutBefore, LatestEpoch;
      ghost var was := Abs();
      WellFormedFacts(was);
      Unlink();
      PL.RetainKeepsWellFormed(was, firstSeq);
      epochs.TruncateBeforeSeq(firstSeq);
    }

    method Overdue(cutoff: int) returns (drop: bool)
      requires Valid() && !closed && |segments| > 1
      ensures drop == Due(log, segments[0].base, segments[1].base, retentionBytes, cutoff)
    {
      hide SizeOf, Layout, PieceOk, PL.PLog.WellFormed, Rising;
      LayoutParts(crc, segments, log);
      BaseInside(crc, segments, log, 1);
      drop := false;
      if retentionBytes > 0 && byteCount > retentionBytes { drop := true; }
      if !drop && cutoff > 0 {
        var ts := PieceTimestamp(segments[1], EndSeq(segments, |log|, 1), log);
        AgeOf(crc, segments, log);
        if 0 < ts < cutoff { drop := true; }
      }
    }

    /** Drops old segments while the log is too big or the next one is already too old. */
    method EnforceRetention(now: int) returns (removed: nat)
      requires Valid()
      modifies this`segments, this`firstSeq, this`byteCount, epochs
      ensures Valid() && Abs() == old(Abs()).Retain(firstSeq)
      ensures removed <= |old(segments)| && segments == old(segments)[removed..]
      ensures removed == 0 || removed < |old(segments)|
      ensures forall k :: 0 <= k < removed ==>
        Due(log, old(segments)[k].base, old(segments)[k + 1].base, retentionBytes,
            if retentionAge > 0 then now - retentionAge else 0)
      ensures !closed && |segments| > 1 ==>
        !Due(log, segments[0].base, segments[1].base, retentionBytes,
             if retentionAge > 0 then now - retentionAge else 0)
    {
      hide SizeOf, Layout, PieceOk, PL.PLog.WellFormed, Sorted, CutBefore;
      removed := 0;
      ghost var was := Abs();
      var segs := segments;
      WellFormedFacts(was);
      if retentionBytes <= 0 && retentionAge <= 0 { return; }
      var cutoff := Cutoff(now);
      while true
        invariant Valid() && removed <= |segs| && segments == segs[removed..] && (removed == 0 || removed < |segs|)
        invariant Abs() == was.Retain(firstSeq) && firstSeq >= was.first && log == was.recs
        invariant forall k :: 0 <= k < removed ==> Due(log, segs[k].base, segs[k + 1].base, retentionBytes, cutoff)
        decreases |segments|
      {
        if closed || |segments| <= 1 { return; }
        var drop := Overdue(cutoff);
        if !drop { return; }
        ghost var mid := firstSeq;
        DropOldest();
        WellFormedFacts(Abs());
        RetainTwice(was, mid, firstSeq);
        removed := removed + 1;
      }
    }

    function Cutoff(now: int): int {
      if retentionAge > 0 then now - retentionAge else 0
    }

    method Close()
      requires Valid()
      modifies this`closed, this`segments
      ensures Valid() && closed && Abs() == old(Abs())
    {
      hide Stored;
      if closed { return; }
      closed := true;
      segments := [];
    }
  }

  /** The active segment takes the record that follows the log. */
  method AppendTo(g: Segment, encoded: Bytes, ghost r: Record, ghost log: seq<Record>) returns (ok: bool)
    requires PieceOk(g.crc, g, |log|, log) && !g.readOnly && r.seqno == |log| + 1
    modifies g
    ensures ok && !g.readOnly && g.file == old(g.file) + encoded && g.size == old(g.size) + |encoded|
    ensures FrameOk(g.crc, encoded, r) ==> PieceOk(g.crc, g, |log| + 1, log + [r])
  {
    hide FrameOk, Laid, IndexOk;
    assert g.recs == log[g.base - 1..];
    ok := g.Append(encoded, g.lastSeq + 1, r);
    if FrameOk(g.crc, encoded, r) { PieceAppend(g.crc, g, log, r); }
  }

  /** The segment the cut falls in becomes the active one and loses its tail. */
  method CutTo(g: Segment, s: nat, ghost cut: seq<Record>) returns (ok: bool)
    requires PieceOk(g.crc, g, |cut|, cut) && g.base < s <= |cut| + 1
    modifies g
    ensures ok && PieceOk(g.crc, g, s - 1, cut[..s - 1]) && !g.readOnly
  {
    hide Laid, IndexOk;
    g.ReopenWritable();
    var removed;
    ok, removed := g.TruncateTo(s);
    assert cut[g.base - 1..][..s - g.base] == cut[..s - 1][g.base - 1..s - 1];
  }

  method Measure(recs: seq<Record>) returns (n: nat)
    ensures n == SizeOf(recs)
  {
    hide EncodedSize, SizeOf;
    n := 0;
    NoSize();
    assert recs[..0] == [];
    for i := 0 to |recs|
      invariant n == SizeOf(recs[..i])
    {
      var m := Footprint(recs[i]);
      SizeOfAppend(recs[..i], recs[i]);
      assert recs[..i + 1] == recs[..i] + [recs[i]];
      n := n + m;
    }
    assert recs[..|recs|] == recs;
  }

  /** One segment's share of a read. */
  method ReadPiece(g: Segment, ghost end: int, ghost log: seq<Record>, cursor: nat, max: int, budget: int)
    returns (batch: seq<Record>)
    requires PieceOk(g.crc, g, end, log) && g.base <= cursor && max > 0
    ensures var at := ReadIndex(log, cursor);
      && at + |batch| <= |log| && batch == log[at..at + |batch|] && |batch| <= max
      && (at + |batch| >= end || |batch| == max || (budget > 0 && BodyBytes(batch) >= budget))
  {
    hide Laid, IndexOk, BodyBytes;
    var corrupt;
    batch, corrupt := g.Read(cursor, max, budget);
    ghost var k := g.Skip(cursor);
    assert batch == g.recs[k..][..|batch|] == g.recs[k..k + |batch|];
    ghost var at := ReadIndex(log, cursor);
    if cursor - 1 <= end {
      assert log[g.base - 1..end][k..k + |batch|] == log[at..at + |batch|];
    }
  }

  /** One turn of the read loop; a segment wholly before the cursor is skipped, except the last. */
  method ReadStep(g: Segment, last: bool, ghost end: int, ghost p: PLog, ghost a: nat,
                  out: seq<Record>, cursor: nat, bytesRead: nat, max: int, maxBytes: int)
    returns (out': seq<Record>, cursor': nat, bytes': nat, stop: bool)
    requires PieceOk(g.crc, g, end, p.recs) && p.WellFormed()
    requires Progress(p.recs, a, out, cursor) && cursor >= 1 && |out| <= max && bytesRead == SizeOf(out)
    requires Filled(out, max, maxBytes) || a + |out| >= g.base - 1
    ensures Progress(p.recs, a, out', cursor') && cursor' >= 1 && |out'| <= max && bytes' == SizeOf(out')
    ensures Filled(out', max, maxBytes) || (!stop && a + |out'| >= end)
  {
    hide SizeOf, PieceOk, BodyBytes, PL.PLog.WellFormed, Progress;
    PieceFacts(g.crc, g, end, p.recs);
    ProgressFacts(p.recs, a, out, cursor);
    out', cursor', bytes', stop := out, cursor, bytesRead, false;
    if !last && g.lastSeq < cursor { return; }
    var remaining := max - |out|;
    if remaining <= 0 { stop := true; return; }
    var budget := 0;
    if maxBytes > 0 {
      budget := maxBytes - bytesRead;
      if budget <= 0 { stop := true; return; }
    }
    var batch := ReadPiece(g, end, p.recs, cursor, remaining, budget);
    Advance(p, a, out, cursor, batch);
    var more := Measure(batch);
    if |batch| > 0 { cursor' := batch[|batch| - 1].seqno + 1; }
    out' := out + batch;
    bytes' := bytesRead + more;
  }

  method PieceTimestamp(g: Segment, ghost end: int, ghost log: seq<Record>) returns (ts: int)
    requires PieceOk(g.crc, g, end, log)
    ensures ts == if g.base <= end then log[g.base - 1].timestamp else 0
  {
    hide Laid, IndexOk;
    ts := g.FirstTimestamp();
  }
}
