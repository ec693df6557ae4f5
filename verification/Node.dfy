/** One node's side of the protocol for one partition, over the segmented log: the reconcile pass,
    the settling of an epoch answer and the applying of a received batch, each proved to be the
    step the replication model takes. */
module Nodes {
  import opened Records
  import opened EpochHistory
  import opened Metadata
  import opened Codec
  import opened Segments
  import PA = Partitions
  import PL = PartitionLog
  import RE = Replication

  type PLog = PL.PLog
  type Replica = RE.Replica

  // --- what a batch does to a log ----------------------------------------

  /** `taken` records were applied or already there; `stop` is Ok, or why the next one was not. */
  datatype Ingested = Ingested(log: PLog, taken: nat, stop: PL.Outcome)

  predicate Absorbed(o: PL.Outcome) {
    o == PL.Ok || o == PL.AlreadyApplied
  }

  function Ingest(p: PLog, recs: seq<Record>, i: nat): Ingested
    requires i <= |recs|
    decreases |recs| - i
  {
    if i == |recs| then Ingested(p, i, PL.Ok)
    else
      var r := p.AppendReplicated(recs[i]);
      if Absorbed(r.outcome) then Ingest(r.log, recs, i + 1) else Ingested(r.log, i, r.outcome)
  }

  /** A batch of n records of the wire delivered, one step each; a step that ends the batch drops its rest. */
  function DeliverMany(r: Replica, n: nat): Replica
    requires r.phase.Streaming? && n <= |r.phase.wire|
    decreases n
  {
    if n == 0 then r
    else
      var q := RE.AfterDeliver(r, n - 1);
      if q.phase.Streaming? && |q.phase.wire| == |r.phase.wire| - 1 then DeliverMany(q, n - 1) else q
  }

  /** The replica once a batch is in: streaming on, asking again from its end after a gap, or cut off. */
  function AfterBatch(r: Replica, n: nat): Replica
    requires r.phase.Streaming? && n <= |r.phase.wire|
  {
    var p := r.phase;
    var out := Ingest(r.log, p.wire[..n], 0);
    if Absorbed(out.stop) then r.(log := out.log, phase := p.(wire := p.wire[n..]))
    else if out.stop == PL.ReplicationGap then
      r.(log := out.log, phase := p.(from := out.log.Next(), wire := p.wire[n..]))
    else r.(log := out.log, phase := RE.Idle)
  }

  /** Applying a batch is delivering its records one by one, whether it is absorbed, meets a gap or is refused. */
  lemma {:induction false} BatchIsDeliveries(r: Replica, n: nat)
    requires r.phase.Streaming? && n <= |r.phase.wire|
    ensures DeliverMany(r, n) == AfterBatch(r, n)
    decreases n
  {
    hide PLog.AppendReplicated;
    var wire := r.phase.wire;
    if n > 0 {
      var first := r.log.AppendReplicated(wire[0]);
      assert wire[..n][0] == wire[0];
      RefusedUnchanged(r.log, wire[0]);
      assert wire[1 + (n - 1)..] == wire[n..];
      if Absorbed(first.outcome) {
        IngestTail(first.log, wire[..n]);
        assert wire[..n][1..] == wire[1..][..n - 1];
        BatchIsDeliveries(RE.AfterDeliver(r, n - 1), n - 1);
        assert wire[1..][n - 1..] == wire[n..];
      }
    }
  }

  lemma RefusedUnchanged(p: PLog, r: Record)
    ensures var b := p.AppendReplicated(r); b.outcome != PL.Ok ==> b.log == p
  {
  }

  lemma IngestTail(p: PLog, recs: seq<Record>)
    requires |recs| > 0
    ensures Ingest(p, recs, 1).log == Ingest(p, recs[1..], 0).log
    ensures Ingest(p, recs, 1).stop == Ingest(p, recs[1..], 0).stop
  {
    IngestShift(p, recs, 1);
  }

  lemma {:induction false} IngestShift(p: PLog, recs: seq<Record>, i: nat)
    requires 1 <= i <= |recs|
    ensures Ingest(p, recs, i).log == Ingest(p, recs[1..], i - 1).log
    ensures Ingest(p, recs, i).stop == Ingest(p, recs[1..], i - 1).stop
    decreases |recs| - i
  {
    if i < |recs| {
      var r := p.AppendReplicated(recs[i]);
      assert recs[1..][i - 1] == recs[i];
      if Absorbed(r.outcome) { IngestShift(r.log, recs, i + 1); }
    }
  }

  /** A batch of the leader's records that starts at or before a prefix follower's end leaves the
      follower the longer prefix, with nothing refused. */
  lemma {:induction false} BatchExtendsPrefix(f: PLog, leader: seq<Record>, recs: seq<Record>, at: nat, i: nat)
    requires f.WellFormed() && f.recs <= leader && at + |recs| <= |leader| && recs == leader[at..at + |recs|]
    requires i <= |recs| && at + i <= |f.recs|
    requires forall j :: 0 <= j < |leader| ==> leader[j].seqno == j + 1 && !Ephemeral(leader[j])
    ensures var out := Ingest(f, recs, i);
      && out.stop == PL.Ok && out.taken == |recs|
      && out.log.recs == leader[..if at + |recs| > |f.recs| then at + |recs| else |f.recs|]
    decreases |recs| - i
  {
    hide PL.PLog.WellFormed;
    if i < |recs| {
      var r := f.AppendReplicated(recs[i]);
      assert recs[i] == leader[at + i];
      NeverRefused(f, recs[i]);
      PL.ReplicateKeepsWellFormed(f, recs[i]);
      BatchExtendsPrefix(r.log, leader, recs, at, i + 1);
    }
  }

  /** A persistent record at or before the end is absorbed. */
  lemma NeverRefused(f: PLog, r: Record)
    requires f.WellFormed() && !Ephemeral(r) && 1 <= r.seqno <= f.Next()
    ensures var a := f.AppendReplicated(r);
      && Absorbed(a.outcome) && a.log.recs == if r.seqno == f.Next() then f.recs + [r] else f.recs
  {
  }

  // --- decoded records ---------------------------------------------------

  /** A decoded record fits its fields, and is as the encoder would give it back. */
  lemma DecodedFits(crc: Checksum, f: Bytes)
    requires DecodeRecord(crc, f).Some?
    ensures var r := DecodeRecord(crc, f).value;
      FieldsFit(r) && HeadersFit(r.headers) && Normal(r) == r && |r.key| < U16
  {
    hide FromLE, DecodeHeaders, HeadersFit;
    Widths();
    var body := f[FRAME_HEADER..FRAME_HEADER + FromLE(f[4..8])];
    var keyLen, hdrLen := FromLE(body[17..19]), FromLE(body[19..23]);
    var at := if EpochFlag(body[16]) then BODY_HEADER + EPOCH_SIZE else BODY_HEADER;
    NoHeadersFit();
    DecodedHeadersFit(body[at + keyLen..at + keyLen + hdrLen], map[]);
  }

  lemma NoHeadersFit()
    ensures HeadersFit(map[])
  {
  }

  // --- the node ----------------------------------------------------------

  datatype BatchReply = BatchDone | Refetch(from: nat) | BatchFailed

  /** The frames carry exactly these records, as a log stores them. */
  ghost predicate Carries(crc: Checksum, fs: seq<Bytes>, recs: seq<Record>) {
    |fs| == |recs| && forall i :: 0 <= i < |fs| ==> FrameOk(crc, fs[i], recs[i])
  }

  lemma CarriesAll(crc: Checksum, fs: seq<Bytes>, recs: seq<Record>)
    requires Carries(crc, fs, recs)
    ensures |fs| == |recs|
  {
  }

  lemma CarriedRecord(crc: Checksum, fs: seq<Bytes>, recs: seq<Record>, i: nat)
    requires Carries(crc, fs, recs) && i < |fs|
    ensures Whole(crc, fs[i]) && DecodeRecord(crc, fs[i]) == Some(recs[i]) && Encodable(recs[i])
    ensures Normal(recs[i]) == recs[i]
  {
    hide DecodeBody;
    assert FrameOk(crc, fs[i], recs[i]);
    DecodedFits(crc, fs[i]);
  }

  /** One frame on, with the rest of the batch still to come. */
  lemma NextCarried(crc: Checksum, fs: seq<Bytes>, recs: seq<Record>, i: nat)
    requires Carries(crc, fs, recs) && i < |fs|
    ensures NextFrame(Concat(fs[i..])) == Some(fs[i]) && Concat(fs[i..])[|fs[i]|..] == Concat(fs[i + 1..])
  {
    hide FrameOk, NextFrame, DecodeRecord;
    CarriedRecord(crc, fs, recs, i);
    assert fs[i..][1..] == fs[i + 1..];
    NextIsFirst(crc, fs[i], Concat(fs[i + 1..]));
  }

  // --- what a log holds can be sent --------------------------------------

  /** A record that some stored frame decodes to. */
  ghost predicate Sendable(r: Record) {
    FieldsFit(r) && HeadersFit(r.headers) && Encodable(r) && Normal(r) == r
  }

  lemma FrameSendable(crc: Checksum, f: Bytes, r: Record)
    requires FrameOk(crc, f, r)
    ensures Sendable(r)
  {
    hide DecodeBody, FieldsFit, HeadersFit;
    DecodedFits(crc, f);
  }

  /** The segment that holds record i of the log. */
  lemma {:induction false} HoldingSegment(crc: Checksum, segs: seq<Segment>, log: seq<Record>, i: nat, n: nat)
    returns (j: nat)
    requires PA.Layout(crc, segs, log) && 0 < n <= |segs| && segs[0].base - 1 <= i < PA.EndSeq(segs, |log|, n - 1)
    ensures j < n && segs[j].base - 1 <= i < PA.EndSeq(segs, |log|, j)
    decreases n
  {
    hide PA.PieceOk;
    if segs[n - 1].base - 1 <= i { j := n - 1; } else { j := HoldingSegment(crc, segs, log, i, n - 1); }
  }

  lemma PieceSendable(crc: Checksum, g: Segment, end: int, log: seq<Record>, i: nat)
    requires PA.PieceOk(crc, g, end, log) && g.base - 1 <= i < end
    ensures Sendable(log[i])
  {
    hide Sendable, IndexOk, FrameOk;
    var k := i - (g.base - 1);
    assert g.recs[k] == log[i];
    var data := g.file[..g.size];
    assert FrameOk(crc, data[g.offs[k]..g.offs[k + 1]], g.recs[k]);
    FrameSendable(crc, data[g.offs[k]..g.offs[k + 1]], g.recs[k]);
  }

  lemma StoredSendable(part: PA.Partition, i: nat)
    requires part.Valid() && !part.closed && part.firstSeq - 1 <= i < |part.log|
    ensures Sendable(part.log[i])
  {
    hide Sendable, PA.PieceOk, PL.PLog.WellFormed, PA.SizeOf;
    var j := HoldingSegment(part.crc, part.segments, part.log, i, |part.segments|);
    PA.LayoutFact(part.crc, part.segments, part.log, j);
    PieceSendable(part.crc, part.segments[j], PA.EndSeq(part.segments, |part.log|, j), part.log, i);
  }

  /** Encodes records one after the other. */
  method EncodeAll(crc: Checksum, recs: seq<Record>) returns (body: Bytes, ok: bool, ghost fs: seq<Bytes>)
    ensures (forall i :: 0 <= i < |recs| ==> Sendable(recs[i])) ==> ok
    ensures ok && (forall i :: 0 <= i < |recs| ==> Sendable(recs[i])) ==> body == Concat(fs) && Carries(crc, fs, recs)
  {
    hide Sendable, FrameOk, Encode, Concat;
    body, ok, fs := [], true, [];
    ConcatNone();
    for k := 0 to |recs|
      invariant ok
      invariant (forall i :: 0 <= i < |recs| ==> Sendable(recs[i])) ==>
        body == Concat(fs) && Carries(crc, fs, recs[..k])
    {
      var e, ps := EncodeRecord(crc, recs[k]);
      if forall i :: 0 <= i < |recs| ==> Sendable(recs[i]) {
        SentFrame(crc, recs[k], ps);
        ConcatSnoc(fs, e.frame);
      }
      if !e.Framed? { return [], false, []; }
      assert recs[..k + 1] == recs[..k] + [recs[k]];
      body := body + e.frame;
      fs := fs + [e.frame];
    }
    assert recs[..|recs|] == recs;
  }

  lemma SentFrame(crc: Checksum, r: Record, ps: seq<Pair>)
    requires Sendable(r) && Lists(ps, r.headers)
    ensures Encode(crc, r, ps).Framed? && FrameOk(crc, Encode(crc, r, ps).frame, r)
  {
    hide Encode, FieldsFit, HeadersFit, Encodable, EncodedSize, DecodeRecord;
    EncodableIff(crc, r, ps);
    EncodedFrame(crc, r, ps);
  }

  lemma ConcatNone()
    ensures Concat([]) == []
  {
  }

  lemma {:induction false} ConcatSnoc(fs: seq<Bytes>, f: Bytes)
    ensures Concat(fs + [f]) == Concat(fs) + f
    decreases |fs|
  {
    if fs == [] {
      assert fs + [f] == [f];
      assert Concat([f]) == f + Concat([]);
    } else {
      ConcatSnoc(fs[1..], f);
      assert (fs + [f])[1..] == fs[1..] + [f];
    }
  }

  /** What the leader's stream does next at position `from`. */
  datatype Shipped = Nothing | SkipTo(first: nat) | Frames(body: Bytes, count: nat) | Stopped

  class StreamNode {
    const part: PA.Partition
    var promoted: nat
    var follow: Node
    var phase: RE.Phase
    var view: nat

    /** This node's replica as the protocol sees it. */
    ghost function State(): Replica
      reads this, part, part.epochs
    {
      RE.Replica(part.Abs(), promoted, follow, phase, view)
    }

    ghost predicate Valid()
      reads part, part.epochs, part.segments
    {
      part.Valid() && !part.closed
    }

    constructor (part: PA.Partition)
      ensures this.part == part && promoted == 0 && follow == "" && phase == RE.Idle && view == 0
    {
      this.part, promoted, follow, phase, view := part, 0, "", RE.Idle, 0;
    }

    /** Reasserts a term already held, refuses an older one, opens a newer one. */
    method BecomeLeaderFor(e: nat) returns (ok: bool)
      requires Valid()
      modifies part, part.epochs
      ensures Valid() && part.segments == old(part.segments)
      ensures part.Abs() == old(part.Abs()).BecomeLeaderFor(e).log
      ensures ok <==> old(part.Abs()).BecomeLeaderFor(e).outcome == PL.Ok
    {
      hide PA.Partition.Stored, PL.PLog.WellFormed, Sorted, LatestEpoch;
      PA.WellFormedFacts(part.Abs());
      if e == UNDEFINED_EPOCH { return false; }
      var cur := LatestEpoch(part.epochs.entries);
      var reply;
      if e == cur {
        reply := part.ReassertLeadership(e);
      } else if e < cur {
        return false;
      } else {
        reply := part.BecomeLeader(e);
      }
      return reply == PA.Did(PL.Ok);
    }

    /** One pass over one metadata snapshot: resign, then promote, then open, keep or drop the session. */
    method Reconcile(m: Meta, k: PartitionKey, n: Node, at: nat, rebuilt: bool)
      requires Valid()
      modifies this, part, part.epochs
      ensures Valid()
      ensures State() == RE.ReconcilePass(old(State()), m, k, n, at, rebuilt)
    {
      hide PA.Partition.Valid, PLog.BecomeLeaderFor;
      var led := RE.Led(m, k, n);
      if promoted != 0 && !led {
        promoted := 0;
        part.Resign();
      }
      if led && promoted < m.partitions[k].epoch {
        var ok := BecomeLeaderFor(m.partitions[k].epoch);
        if ok {
          promoted := m.partitions[k].epoch;
        } else {
          RefusedChangesNothing(old(part.Abs()), m.partitions[k].epoch);
        }
      }
      var target := RE.Target(m, k, n);
      if !(target == follow && !rebuilt) { phase := RE.Idle; }
      follow := target;
      view := at;
    }

    /** The destructive half of reconciliation: truncates past the answered end. */
    method ReconcileEpoch()
      requires Valid() && phase.Answered?
      modifies this`phase, part, part.epochs, part.segments
      ensures Valid()
      ensures old(part.Abs()).WellFormed() && State() == RE.AfterSettle(old(State()))
    {
      hide PA.Partition.Stored, PL.PLog.WellFormed, PLog.TruncateTo;
      var server := phase.server;
      if phase.end >= part.nextSeq {
        phase := RE.Streaming(server, part.nextSeq, []);
        return;
      }
      ghost var was := part.Abs();
      PA.WellFormedFacts(was);
      var reply, removed := part.TruncateTo(phase.end);
      if reply == PA.Did(PL.Ok) {
        phase := RE.Streaming(server, part.nextSeq, []);
      } else {
        RefusedTruncation(was, phase.end);
        phase := RE.Idle;
      }
    }

    /** The leader's side: reads a batch at its position and frames it, or skips to the retention horizon. */
    method Ship(from0: nat, batch: int) returns (out: Shipped, ghost fs: seq<Bytes>)
      requires Valid()
      ensures var from := if from0 == 0 then 1 else from0;
        && !out.Stopped?
        && (out.SkipTo? <==> from < part.firstSeq)
        && (out.SkipTo? ==> out.first == part.firstSeq)
        && (out.Nothing? ==> from > |part.log|)
        && (out.Frames? ==>
              && 1 <= out.count && from + out.count <= |part.log| + 1 && |fs| == out.count && out.body == Concat(fs)
              && Carries(part.crc, fs, part.log[from - 1..from - 1 + out.count]))
    {
      hide PA.Partition.Stored, PL.PLog.WellFormed, Carries, Concat, Sendable, PA.SizeOf;
      var from := if from0 == 0 then 1 else from0;
      fs := [];
      var res := part.Read(from, batch, 4 * 1024 * 1024);
      if res.LogClosed? { return Stopped, []; }
      if res.SeqTruncated? { return SkipTo(part.firstSeq), []; }
      if |res.recs| == 0 { return Nothing, []; }
      ShippedRun(part, from, res.recs);
      var body, ok;
      body, ok, fs := EncodeAll(part.crc, res.recs);
      if !ok { return Stopped, []; }
      CarriesAll(part.crc, fs, res.recs);
      return Frames(body, |res.recs|), fs;
    }

    /** Writes a received batch; a gap asks for a fetch from the true local end. */
    method ApplyBatch(body: Bytes, count: nat, ghost fs: seq<Bytes>, ghost recs: seq<Record>)
      returns (reply: BatchReply)
      requires Valid()
      modifies part, part.epochs, part.segments
      ensures Valid()
      ensures reply.Refetch? ==> reply.from == part.nextSeq
      ensures body == Concat(fs) && count == |fs| && Carries(part.crc, fs, recs) ==>
        var out := Ingest(old(part.Abs()), recs, 0);
        && part.Abs() == out.log
        && reply == if out.stop == PL.Ok then BatchDone
                    else if out.stop == PL.ReplicationGap then Refetch(part.nextSeq) else BatchFailed
    {
      hide PA.Partition.Valid, PLog.AppendReplicated, NextFrame, DecodeRecord, Carries, FrameOk, Encodable, Concat,
        FieldsFit, HeadersFit;
      ghost var was := part.Abs();
      ghost var good := body == Concat(fs) && count == |fs| && Carries(part.crc, fs, recs);
      var rest := body;
      assert fs[0..] == fs;
      if good { CarriesAll(part.crc, fs, recs); }
      var i := 0;
      while i < count
        invariant Valid() && i <= count && forall g :: g in part.segments ==> g in old(part.segments) || fresh(g)
        invariant good ==> |recs| == |fs| && rest == Concat(fs[i..])
        invariant good ==> Ingest(part.Abs(), recs, i) == Ingest(was, recs, 0)
      {
        if good { NextCarried(part.crc, fs, recs, i); CarriedRecord(part.crc, fs, recs, i); }
        var f := NextFrame(rest);
        if f.None? { return BatchFailed; }
        var d := DecodeRecord(part.crc, f.value);
        if d.None? { return BatchFailed; }
        rest := rest[|f.value|..];
        DecodedFits(part.crc, f.value);
        assert forall j :: 0 <= j < |part.segments| ==>
          part.segments[j] in old(part.segments) || fresh(part.segments[j]);
        var r, _ := part.AppendReplicated(d.value);
        if r == PA.Did(PL.ReplicationGap) { return Refetch(part.nextSeq); }
        if !(r.Did? && Absorbed(r.outcome)) { return BatchFailed; }
        i := i + 1;
      }
      return BatchDone;
    }
  }

  lemma ShippedRun(part: PA.Partition, from: nat, recs: seq<Record>)
    requires part.Valid() && !part.closed && part.firstSeq <= from && |recs| > 0
    requires from >= 1 && recs <= part.log[PA.ReadIndex(part.log, from)..]
    ensures from - 1 + |recs| <= |part.log| && recs == part.log[from - 1..from - 1 + |recs|]
    ensures forall i :: 0 <= i < |recs| ==> Sendable(recs[i])
  {
    hide Sendable, PA.Partition.Valid;
    var a := PA.ReadIndex(part.log, from);
    assert recs == part.log[a..][..|recs|];
    forall i | 0 <= i < |recs| ensures Sendable(recs[i]) {
      assert recs[i] == part.log[a + i];
      StoredSendable(part, a + i);
    }
  }

  lemma RefusedChangesNothing(p: PLog, e: nat)
    ensures p.BecomeLeaderFor(e).outcome != PL.Ok ==> p.BecomeLeaderFor(e).log == p
  {
  }

  lemma RefusedTruncation(p: PLog, s: nat)
    requires Sorted(p.hist)
    ensures p.TruncateTo(s).outcome != PL.Ok ==> p.TruncateTo(s).log == p
  {
  }
}
