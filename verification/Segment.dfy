/** One segment of a partition: an append-only file of frames with a sparse index. */
module Segments {
  import opened Records
  import opened Metadata
  import opened Codec

  /** The record `seqno` starts at byte `pos`. */
  datatype IndexEntry = IndexEntry(seqno: nat, pos: nat)

  // --- layout ------------------------------------------------------------

  /** The stored frame of record r. */
  ghost predicate FrameOk(crc: Checksum, f: Bytes, r: Record) {
    Whole(crc, f) && DecodeRecord(crc, f) == Some(r) && |f| == EncodedSize(r)
  }

  /** offs are the frame boundaries of n frames filling the file. */
  ghost predicate Bounds(file: Bytes, offs: seq<nat>, n: nat) {
    && |offs| == n + 1 && offs[0] == 0 && offs[n] == |file|
    && forall i, j :: 0 <= i < j <= n ==> offs[i] < offs[j]
  }

  ghost predicate Numbered(base: nat, recs: seq<Record>) {
    forall i :: 0 <= i < |recs| ==> recs[i].seqno == base + i
  }

  /** The file is exactly the frames of recs, which carry base, base+1, ... */
  ghost predicate Laid(crc: Checksum, base: nat, file: Bytes, offs: seq<nat>, recs: seq<Record>) {
    && Bounds(file, offs, |recs|) && Numbered(base, recs)
    && forall i :: 0 <= i < |recs| ==> FrameOk(crc, file[offs[i]..offs[i + 1]], recs[i])
  }

  /** Entries are in order and point at frame boundaries; the last may point at the end. */
  ghost predicate IndexOk(index: seq<IndexEntry>, base: nat, offs: seq<nat>) {
    && Ordered(index)
    && forall i :: 0 <= i < |index| ==> EntryOk(index[i], base, offs)
  }

  predicate Ordered(index: seq<IndexEntry>) {
    forall i, j :: 0 <= i < j < |index| ==> index[i].seqno <= index[j].seqno
  }

  ghost predicate EntryOk(e: IndexEntry, base: nat, offs: seq<nat>) {
    base <= e.seqno < base + |offs| && e.pos == offs[e.seqno - base]
  }

  lemma LaidPrefix(crc: Checksum, base: nat, file: Bytes, offs: seq<nat>, recs: seq<Record>, k: nat)
    requires Laid(crc, base, file, offs, recs) && k <= |recs|
    ensures offs[k] <= |file| && Laid(crc, base, file[..offs[k]], offs[..k + 1], recs[..k])
  {
    hide FrameOk;
    var part := file[..offs[k]];
    forall i | 0 <= i < k ensures FrameOk(crc, part[offs[i]..offs[i + 1]], recs[i]) {
      assert part[offs[i]..offs[i + 1]] == file[offs[i]..offs[i + 1]];
    }
  }

  lemma LaidAppend(crc: Checksum, base: nat, file: Bytes, offs: seq<nat>, recs: seq<Record>, f: Bytes, r: Record)
    requires Laid(crc, base, file, offs, recs) && FrameOk(crc, f, r) && r.seqno == base + |recs| && |f| > 0
    ensures Laid(crc, base, file + f, offs + [|file| + |f|], recs + [r])
  {
    hide FrameOk;
    var offs', recs' := offs + [|file| + |f|], recs + [r];
    forall i | 0 <= i < |recs'| ensures FrameOk(crc, (file + f)[offs'[i]..offs'[i + 1]], recs'[i]) {
      if i < |recs| {
        assert (file + f)[offs[i]..offs[i + 1]] == file[offs[i]..offs[i + 1]];
      } else {
        assert (file + f)[|file|..|file| + |f|] == f;
      }
    }
  }

  // --- index -------------------------------------------------------------

  lemma EntryFact(e: IndexEntry, base: nat, offs: seq<nat>)
    requires EntryOk(e, base, offs)
    ensures base <= e.seqno < base + |offs| && e.pos == offs[e.seqno - base]
  {
  }

  lemma IndexFact(index: seq<IndexEntry>, base: nat, offs: seq<nat>)
    requires IndexOk(index, base, offs)
    ensures Ordered(index)
  {
  }

  lemma LaidFacts(crc: Checksum, base: nat, file: Bytes, offs: seq<nat>, recs: seq<Record>)
    requires Laid(crc, base, file, offs, recs)
    ensures Bounds(file, offs, |recs|) && Numbered(base, recs) && |offs| == |recs| + 1
    ensures offs[0] == 0 && offs[|recs|] == |file|
  {
  }

  lemma OffsetFact(file: Bytes, offs: seq<nat>, n: nat, j: nat)
    requires Bounds(file, offs, n) && j <= n
    ensures offs[j] <= |file| && (offs[j] == |file| <==> j == n)
    ensures j < n ==> offs[j] < offs[j + 1] <= |file|
  {
  }

  /** sort.Search for the first entry past s. */
  function FirstAbove(index: seq<IndexEntry>, s: int): (k: nat)
    requires Ordered(index)
    ensures k <= |index|
    ensures forall j :: 0 <= j < k ==> index[j].seqno <= s
    ensures forall j :: k <= j < |index| ==> index[j].seqno > s
  {
    if |index| == 0 || index[|index| - 1].seqno <= s then |index| else FirstAbove(index[..|index| - 1], s)
  }

  /** Where to start scanning in order to reach s. */
  function SeekPos(index: seq<IndexEntry>, s: nat): nat
    requires Ordered(index)
  {
    var k := FirstAbove(index, s);
    if k == 0 then 0 else index[k - 1].pos
  }

  /** The seek lands on a frame boundary not past the record sought, and as close to it as the index allows. */
  lemma SeekLands(index: seq<IndexEntry>, base: nat, offs: seq<nat>, s: nat) returns (j: nat)
    requires |offs| > 0 && offs[0] == 0 && IndexOk(index, base, offs)
    ensures j < |offs| && offs[j] == SeekPos(index, s) && (j == 0 || base + j <= s)
    ensures forall i :: 0 <= i < |index| && index[i].seqno <= s ==> index[i].seqno <= base + j
  {
    var k := FirstAbove(index, s);
    if k == 0 {
      j := 0;
    } else {
      assert EntryOk(index[k - 1], base, offs);
      j := index[k - 1].seqno - base;
    }
  }

  /** Entries up to boundary k stay right for any file that shares the first k frames. */
  lemma IndexKeep(index: seq<IndexEntry>, base: nat, offs: seq<nat>, offs': seq<nat>, n: nat, k: nat)
    requires IndexOk(index, base, offs) && n <= |index| && k < |offs| && k < |offs'|
    requires forall i :: 0 <= i <= k ==> offs'[i] == offs[i]
    requires forall i :: 0 <= i < n ==> index[i].seqno <= base + k
    ensures IndexOk(index[..n], base, offs')
  {
    forall i | 0 <= i < n ensures EntryOk(index[..n][i], base, offs') {
      assert EntryOk(index[i], base, offs);
    }
  }

  /** Appending a frame, with or without an entry for it. */
  lemma IndexGrows(index: seq<IndexEntry>, base: nat, offs: seq<nat>, end: nat)
    requires IndexOk(index, base, offs) && |offs| > 0
    ensures IndexOk(index, base, offs + [end])
    ensures IndexOk(index + [IndexEntry(base + |offs| - 1, offs[|offs| - 1])], base, offs + [end])
  {
    var offs' := offs + [end];
    forall i | 0 <= i < |index| ensures EntryOk(index[i], base, offs') && index[i].seqno < base + |offs| {
      assert EntryOk(index[i], base, offs);
    }
  }

  // --- scanning ----------------------------------------------------------

  /** Reading one frame: a partial frame ends the scan. */
  datatype Scan = End | Corrupt | Got(body: Bytes)

  function ScanAt(crc: Checksum, data: Bytes, pos: nat): (s: Scan)
    requires pos <= |data|
    ensures s.Got? ==> BODY_HEADER <= |s.body| <= MAX_RECORD && pos + FRAME_HEADER + |s.body| <= |data|
  {
    if |data| - pos < FRAME_HEADER then End
    else
      var bodyLen := FromLE(data[pos + 4..pos + 8]);
      if bodyLen < BODY_HEADER || bodyLen > MAX_RECORD then Corrupt
      else if |data| - pos - FRAME_HEADER < bodyLen then End
      else
        var body := data[pos + FRAME_HEADER..pos + FRAME_HEADER + bodyLen];
        if crc(body) != FromLE(data[pos..pos + 4]) then Corrupt else Got(body)
  }

  function BodySeq(body: Bytes): nat
    requires |body| >= BODY_HEADER
  {
    FromLE(body[..8])
  }

  /** What a stored frame yields to the scanner. */
  lemma WholeFrame(crc: Checksum, f: Bytes, r: Record)
    requires FrameOk(crc, f, r)
    ensures |f| >= FRAME_HEADER + BODY_HEADER
    ensures var b := f[FRAME_HEADER..];
      && |b| <= MAX_RECORD && FromLE(f[4..8]) == |b| && crc(b) == FromLE(f[..4])
      && DecodeBody(b) == Some(r) && BodySeq(b) == r.seqno
  {
    hide FromLE, DecodeHeaders, HeaderSize, EncodedSize;
    assert f[FRAME_HEADER..FRAME_HEADER + (|f| - FRAME_HEADER)] == f[FRAME_HEADER..];
  }

  lemma SubSlice(data: Bytes, a: nat, b: nat, c: nat, d: nat)
    requires a <= b <= |data| && c <= d <= b - a
    ensures data[a..b][c..d] == data[a + c..a + d]
  {
    var left, right := data[a..b][c..d], data[a + c..a + d];
    assert |left| == |right|;
    forall i | 0 <= i < |left| ensures left[i] == right[i] {
      assert left[i] == data[a..b][c + i];
    }
  }

  /** A stored frame at pos is what the scan gets there. */
  lemma ScanFrame(crc: Checksum, data: Bytes, pos: nat, f: Bytes, r: Record)
    requires pos + |f| <= |data| && data[pos..pos + |f|] == f && FrameOk(crc, f, r)
    ensures var s := ScanAt(crc, data, pos);
      && s.Got? && |s.body| + FRAME_HEADER == |f| == EncodedSize(r)
      && BodySeq(s.body) == r.seqno && DecodeBody(s.body) == Some(r)
  {
    hide FromLE, DecodeBody, EncodedSize, DecodeRecord, BodySeq;
    FrameSize(crc, f, r);
    WholeFrame(crc, f, r);
    SubSlice(data, pos, pos + |f|, 4, 8);
    SubSlice(data, pos, pos + |f|, 0, 4);
    SubSlice(data, pos, pos + |f|, FRAME_HEADER, |f|);
    assert f[0..4] == f[..4] && f[FRAME_HEADER..|f|] == f[FRAME_HEADER..];
  }

  lemma FrameSize(crc: Checksum, f: Bytes, r: Record)
    requires FrameOk(crc, f, r)
    ensures |f| == EncodedSize(r)
  {
  }

  lemma FramePositive(crc: Checksum, f: Bytes, r: Record)
    requires FrameOk(crc, f, r)
    ensures |f| > 0
  {
  }

  /** Every scan passes f under r's sequence, and a read gets r from it exactly when r's headers fit. */
  ghost predicate Passed(crc: Checksum, f: Bytes, r: Record) {
    && |f| >= FRAME_HEADER + BODY_HEADER && ScanAt(crc, f, 0) == Got(f[FRAME_HEADER..])
    && BodySeq(f[FRAME_HEADER..]) == r.seqno
    && (DecodeBody(f[FRAME_HEADER..]) == Some(Normal(r)) <==> HeadersFit(r.headers))
  }

  /** What the encoder produces is passed by scans, headers that do not fit included. */
  lemma EncodedPasses(crc: Checksum, r: Record, ps: seq<Pair>)
    requires FieldsFit(r) && Lists(ps, r.headers) && Encode(crc, r, ps).Framed?
    ensures Passed(crc, Encode(crc, r, ps).frame, r)
  {
    hide LE, FromLE, Pow256, DecodeBody, Lists, HeadersFit, FieldsFit, DecodeRecord, HeaderBytes, Fixed;
    var hdr := HeaderBytes(ps);
    var body, f := Body(r, hdr), Encode(crc, r, ps).frame;
    BodySize(r, hdr);
    RecordRoundTripIff(crc, r, ps);
    FrameRoundTrip(crc, body);
    FrameLength(crc, body);
    assert f[FRAME_HEADER..] == body && f[FRAME_HEADER..FRAME_HEADER + |body|] == body;
    Widths();
    LERoundTrip(crc(body), 4);
    assert f[..4] == LE(crc(body), 4);
    FixedFields(r, |hdr|);
    assert body[..8] == Fixed(r, |hdr|)[..8];
  }

  lemma PassedNormal(crc: Checksum, f: Bytes, r: Record)
    requires Passed(crc, f, r)
    ensures Passed(crc, f, Normal(r))
  {
    hide FromLE, DecodeBody, ScanAt, HeadersFit;
    assert Normal(Normal(r)) == Normal(r);
  }

  /** Wherever it lies. */
  lemma PassedAnywhere(crc: Checksum, data: Bytes, pos: nat, f: Bytes, r: Record)
    requires Passed(crc, f, r) && pos + |f| <= |data| && data[pos..pos + |f|] == f
    ensures ScanAt(crc, data, pos) == Got(f[FRAME_HEADER..])
  {
    hide FromLE, DecodeBody, BodySeq;
    SubSlice(data, pos, pos + |f|, 4, 8);
    SubSlice(data, pos, pos + |f|, 0, 4);
    SubSlice(data, pos, pos + |f|, FRAME_HEADER, |f|);
    assert f[0..4] == f[..4] && f[FRAME_HEADER..|f|] == f[FRAME_HEADER..];
  }

  /** A proper prefix of a frame, at the end of the data, ends the scan. */
  lemma TornEnds(crc: Checksum, data: Bytes, pos: nat, f: Bytes, r: Record)
    requires pos <= |data| && FrameOk(crc, f, r) && data[pos..] <= f && |data| - pos < |f|
    ensures ScanAt(crc, data, pos) == End
  {
    hide FromLE, DecodeBody, EncodedSize, DecodeRecord, BodySeq;
    WholeFrame(crc, f, r);
    if |data| - pos >= FRAME_HEADER {
      assert data[pos + 4..pos + 8] == data[pos..][4..8] == f[4..8];
    }
  }

  /** What a scan meets at boundary j when the data is a prefix of a laid-out file. */
  lemma ScanPrefix(crc: Checksum, base: nat, w: Bytes, offs: seq<nat>, recs: seq<Record>, data: Bytes, j: nat)
    requires Laid(crc, base, w, offs, recs) && data <= w && j <= |recs| && offs[j] <= |data|
    ensures var s := ScanAt(crc, data, offs[j]);
      if j < |recs| && offs[j + 1] <= |data|
      then s.Got? && offs[j] + FRAME_HEADER + |s.body| == offs[j + 1] && BodySeq(s.body) == base + j
           && DecodeBody(s.body) == Some(recs[j]) && FRAME_HEADER + |s.body| == EncodedSize(recs[j])
      else s.End?
  {
    hide FrameOk, ScanAt, EncodedSize, DecodeBody, BodySeq;
    if j < |recs| {
      var p, q := offs[j], offs[j + 1];
      assert p < q <= |w|;
      assert FrameOk(crc, w[p..q], recs[j]);
      if q <= |data| {
        assert data[p..p + |w[p..q]|] == w[p..q];
        ScanFrame(crc, data, p, w[p..q], recs[j]);
      } else {
        assert data[p..] <= w[p..q];
        TornEnds(crc, data, p, w[p..q], recs[j]);
      }
    } else {
      NothingLeft(crc, data, offs[j]);
    }
  }

  lemma NothingLeft(crc: Checksum, data: Bytes, pos: nat)
    requires pos == |data|
    ensures ScanAt(crc, data, pos) == End
  {
  }

  ghost function BodyBytes(recs: seq<Record>): int {
    if recs == [] then 0 else BodyBytes(recs[..|recs| - 1]) + EncodedSize(recs[|recs| - 1]) - FRAME_HEADER
  }

  lemma NoBytes()
    ensures BodyBytes([]) == 0
  {
  }

  lemma BodyBytesAppend(recs: seq<Record>, r: Record)
    ensures BodyBytes(recs + [r]) == BodyBytes(recs) + EncodedSize(r) - FRAME_HEADER
  {
    assert (recs + [r])[..|recs|] == recs;
  }

  ghost function Span(recs: seq<Record>, a: nat, j: nat): seq<Record>
    requires a <= |recs| && j <= |recs|
  {
    if j <= a then [] else recs[a..j]
  }

  lemma Snoc(recs: seq<Record>, a: nat, j: nat)
    requires a <= j < |recs|
    ensures recs[a..j] + [recs[j]] == recs[a..j + 1] && recs[a..j + 1][..j - a] == recs[a..j]
  {
  }

  lemma Extend(recs: seq<Record>, a: nat, j: nat, out: seq<Record>)
    requires a <= j < |recs| && out == Span(recs, a, j)
    ensures out + [recs[j]] == Span(recs, a, j + 1) && (out + [recs[j]])[..|out|] == out
    ensures BodyBytes(out + [recs[j]]) == BodyBytes(out) + EncodedSize(recs[j]) - FRAME_HEADER
  {
    hide EncodedSize, BodyBytes;
    BodyBytesAppend(out, recs[j]);
    assert out == recs[a..j];
    Snoc(recs, a, j);
  }

  // --- the segment -------------------------------------------------------

  class Segment {
    const crc: Checksum
    const base: nat
    const interval: int
    var readOnly: bool
    var file: Bytes
    var size: nat
    var index: seq<IndexEntry>
    var lastSeq: nat
    var sinceIdx: int
    ghost var offs: seq<nat>
    ghost var recs: seq<Record>

    ghost predicate Valid()
      reads this
    {
      && base >= 1 && size <= |file| && (!readOnly ==> size == |file|)
      && Laid(crc, base, file[..size], offs, recs)
      && IndexOk(index, base, offs) && lastSeq + 1 == base + |recs|
    }

    /** The file holds nothing but complete records. */
    predicate Sealed()
      reads this
    {
      size == |file|
    }

    constructor Create(crc: Checksum, base: nat, interval: int)
      requires base >= 1
      ensures Valid() && Sealed() && !readOnly && recs == [] && size == 0
      ensures this.crc == crc && this.base == base && this.interval == interval
    {
      this.crc, this.base, this.interval := crc, base, interval;
      readOnly, file, size, index, lastSeq, sinceIdx := false, [], 0, [], base - 1, 0;
      offs, recs := [0], [];
    }

    constructor Open(crc: Checksum, base: nat, interval: int, disk: Bytes, diskIndex: seq<IndexEntry>, readOnly: bool,
                     ghost w: Bytes, ghost wOffs: seq<nat>, ghost wRecs: seq<Record>)
      requires base >= 1 && Laid(crc, base, w, wOffs, wRecs) && disk <= w && IndexOk(diskIndex, base, wOffs)
      ensures Valid() && this.readOnly == readOnly && this.crc == crc && this.base == base && this.interval == interval
      ensures |recs| <= |wRecs| && recs == wRecs[..|recs|]
      ensures size == wOffs[|recs|] <= |disk| && (|recs| < |wRecs| ==> |disk| < wOffs[|recs| + 1])
      ensures file == if readOnly then disk else disk[..size]
    {
      this.crc, this.base, this.interval := crc, base, interval;
      this.readOnly, file, size, index, lastSeq, sinceIdx := readOnly, disk, 0, diskIndex, base - 1, 0;
      offs, recs := [0], [];
      new;
      Recover(w, wOffs, wRecs);
    }

    predicate IsEmpty()
      reads this
    {
      lastSeq < base
    }

    /** The bytes go in as they are, under sequence s; they are a record of the segment when they are its frame. */
    method Append(encoded: Bytes, s: nat, ghost r: Record) returns (ok: bool)
      requires Valid() && s == lastSeq + 1
      modifies this
      ensures readOnly == old(readOnly) && ok == !readOnly
      ensures file == (if ok then old(file) + encoded else old(file)) && lastSeq == (if ok then s else old(lastSeq))
      ensures size == old(size) + if ok then |encoded| else 0
      ensures ok && FrameOk(crc, encoded, r) && r.seqno == s ==> Valid() && recs == old(recs) + [r] && Sealed()
      ensures !ok ==> Valid() && recs == old(recs)
      ensures index == if ok && (old(sinceIdx) >= interval || |old(index)| == 0)
                       then old(index) + [IndexEntry(s, old(size))] else old(index)
      ensures ok ==> sinceIdx == |encoded| + if |index| > |old(index)| then 0 else old(sinceIdx)
    {
      hide FrameOk, IndexOk, Laid, Bounds, Numbered;
      if readOnly {
        return false;
      }
      LaidFacts(crc, base, file[..size], offs, recs);
      ghost var good := FrameOk(crc, encoded, r) && r.seqno == s;
      if good {
        FramePositive(crc, encoded, r);
        LaidAppend(crc, base, file[..size], offs, recs, encoded, r);
        IndexGrows(index, base, offs, size + |encoded|);
      }
      if sinceIdx >= interval || |index| == 0 {
        index := index + [IndexEntry(s, size)];
        sinceIdx := 0;
      }
      assert file[..size] == file && (file + encoded)[..size + |encoded|] == file + encoded;
      file := file + encoded;
      if good { offs, recs := offs + [size + |encoded|], recs + [r]; }
      size := size + |encoded|;
      sinceIdx := sinceIdx + |encoded|;
      lastSeq := s;
      ok := true;
    }

    /** Index of the first record at or past s. */
    ghost function Skip(s: nat): (a: nat)
      reads this
      ensures a <= |recs|
    {
      if s <= base then 0 else if s - base <= |recs| then s - base else |recs|
    }

    /** The records from fromSeq on, up to the first limit reached. */
    method Read(fromSeq: nat, maxRecords: int, maxBytes: int) returns (out: seq<Record>, corrupt: bool)
      requires Valid()
      ensures !corrupt && out <= recs[Skip(fromSeq)..]
      ensures |out| == 0 || |out| <= maxRecords
      ensures Skip(fromSeq) < |recs| && maxRecords > 0 ==> |out| > 0
      ensures Skip(fromSeq) + |out| < |recs| ==>
        |out| >= maxRecords || (maxBytes > 0 && BodyBytes(out) >= maxBytes)
      ensures |out| > 0 && maxBytes > 0 ==> BodyBytes(out[..|out| - 1]) < maxBytes
    {
      hide FrameOk, ScanAt, EncodedSize, DecodeBody, BodySeq, BodyBytes, Laid, IndexOk, Ordered, SeekPos, Numbered,
        Bounds;
      var data := file[..size];
      LaidFacts(crc, base, data, offs, recs);
      IndexFact(index, base, offs);
      var pos := SeekPos(index, fromSeq);
      ghost var j: nat := SeekLands(index, base, offs, fromSeq);
      ghost var a := Skip(fromSeq);
      out, corrupt := [], false;
      NoBytes();
      if pos >= size {
        OffsetFact(data, offs, |recs|, j);
        return;
      }
      var bytesRead := 0;
      var more := true;
      while more && |out| < maxRecords
        invariant j <= |recs| && |offs| == |recs| + 1 && pos == offs[j] <= size
        invariant out == Span(recs, a, j)
        invariant |out| == 0 || |out| <= maxRecords
        invariant bytesRead == BodyBytes(out)
        invariant |out| > 0 && maxBytes > 0 ==> BodyBytes(out[..|out| - 1]) < maxBytes
        invariant if more then maxBytes <= 0 || bytesRead < maxBytes
                  else j == |recs| || (maxBytes > 0 && bytesRead >= maxBytes)
        decreases more, |recs| - j
      {
        ScanPrefix(crc, base, data, offs, recs, data, j);
        OffsetFact(data, offs, |recs|, j);
        match ScanAt(crc, data, pos)
        case End =>
          more := false;
        case Corrupt =>
          assert false;
        case Got(body) =>
          pos := pos + FRAME_HEADER + |body|;
          if BodySeq(body) >= fromSeq {
            Extend(recs, a, j, out);
            out := out + [DecodeBody(body).value];
            bytesRead := bytesRead + |body|;
            more := !(maxBytes > 0 && bytesRead >= maxBytes);
          }
          j := j + 1;
      }
    }

    /** Drops index entries at or past the end of the file; the scan starts from the last one kept. */
    method TrimIndex(ghost w: Bytes, ghost wOffs: seq<nat>, ghost n: nat) returns (pos: nat, ghost j: nat)
      requires base >= 1 && lastSeq == base - 1 && Bounds(w, wOffs, n) && IndexOk(index, base, wOffs)
      modifies this`index, this`lastSeq
      ensures j <= n && pos == wOffs[j] <= |file| && lastSeq + 1 == base + j
      ensures index <= old(index) && forall i :: 0 <= i < |index| ==> index[i].seqno <= base + j
    {
      hide EntryOk;
      pos, j := 0, 0;
      var i := |index| - 1;
      while i >= 0
        invariant -1 <= i < |old(index)| && index == old(index)[..i + 1]
        invariant pos == 0 && j == 0 && lastSeq == base - 1
      {
        EntryFact(index[i], base, wOffs);
        if index[i].pos < |file| {
          pos, j := index[i].pos, index[i].seqno - base;
          lastSeq := index[i].seqno - 1;
          index := index[..i + 1];
          break;
        }
        index := index[..i];
        i := i - 1;
      }
    }

    /** From a file that is any prefix of a laid-out one: exactly its complete records. */
    method Recover(ghost w: Bytes, ghost wOffs: seq<nat>, ghost wRecs: seq<Record>)
      requires base >= 1 && lastSeq == base - 1
      requires Laid(crc, base, w, wOffs, wRecs) && file <= w && IndexOk(index, base, wOffs)
      modifies this
      ensures Valid() && readOnly == old(readOnly)
      ensures |recs| <= |wRecs| && recs == wRecs[..|recs|] && offs == wOffs[..|recs| + 1]
      ensures size <= |old(file)| && (|recs| < |wRecs| ==> |old(file)| < wOffs[|recs| + 1])
      ensures file == if readOnly then old(file) else old(file)[..size]
    {
      hide FrameOk, ScanAt, BodySeq, Laid, Bounds, EncodedSize, DecodeBody, IndexOk;
      LaidFacts(crc, base, w, wOffs, wRecs);
      ghost var wIndex := index;
      var pos: nat;
      ghost var j: nat;
      pos, j := TrimIndex(w, wOffs, |wRecs|);
      ghost var j0 := j;
      var more := true;
      while more
        invariant j0 <= j <= |wRecs| && pos == wOffs[j] <= |file| && lastSeq + 1 == base + j
        invariant !more ==> j < |wRecs| ==> |file| < wOffs[j + 1]
        invariant file == old(file) && readOnly == old(readOnly) && index <= wIndex
        invariant forall i :: 0 <= i < |index| ==> index[i].seqno <= base + j0
        decreases more, |wRecs| - j
      {
        ScanPrefix(crc, base, w, wOffs, wRecs, file, j);
        match ScanAt(crc, file, pos)
        case Got(body) =>
          lastSeq := BodySeq(body);
          pos := pos + FRAME_HEADER + |body|;
          j := j + 1;
        case _ =>
          more := false;
      }
      size := pos;
      LaidPrefix(crc, base, w, wOffs, wRecs, j);
      assert file[..pos] == w[..pos];
      IndexKeep(wIndex, base, wOffs, wOffs[..j + 1], |index|, j);
      assert wIndex[..|index|] == index;
      offs, recs := wOffs[..j + 1], wRecs[..j];
      if pos != |file| && !readOnly {
        file := file[..pos];
      }
      assert file[..size] == w[..pos];
    }

    /** Byte offset of record s. */
    method ScanForOffset(s: nat) returns (pos: nat)
      requires Valid() && base <= s <= lastSeq + 1
      ensures pos == offs[s - base]
    {
      hide FrameOk, ScanAt, EncodedSize, DecodeBody, BodySeq, Laid, IndexOk, Ordered, SeekPos, Numbered, Bounds;
      var data := file[..size];
      LaidFacts(crc, base, data, offs, recs);
      IndexFact(index, base, offs);
      pos := SeekPos(index, s);
      ghost var j: nat := SeekLands(index, base, offs, s);
      while pos < size
        invariant j <= |recs| && |offs| == |recs| + 1 && pos == offs[j] && (j == 0 || base + j <= s)
        decreases |recs| - j
      {
        OffsetFact(data, offs, |recs|, j);
        ScanPrefix(crc, base, data, offs, recs, data, j);
        var found := ScanAt(crc, data, pos);
        if BodySeq(found.body) >= s {
          return;
        }
        pos := pos + FRAME_HEADER + |found.body|;
        j := j + 1;
      }
      OffsetFact(data, offs, |recs|, j);
    }

    /** Discards every record from s on; false for a read-only segment. */
    method TruncateTo(s: nat) returns (ok: bool, removed: bool)
      requires Valid() && base <= s
      modifies this
      ensures Valid() && readOnly == old(readOnly) && ok == !readOnly
      ensures removed <==> ok && s <= old(lastSeq)
      ensures removed ==> recs == old(recs)[..s - base] && size == old(offs)[s - base] && Sealed()
      ensures !removed ==> recs == old(recs) && size == old(size) && file == old(file)
    {
      hide FrameOk, Laid, IndexOk, Ordered, Numbered, Bounds;
      if readOnly {
        return false, false;
      }
      if s > lastSeq {
        return true, false;
      }
      ghost var k := s - base;
      LaidFacts(crc, base, file[..size], offs, recs);
      OffsetFact(file[..size], offs, |recs|, k);
      IndexFact(index, base, offs);
      var pos := ScanForOffset(s);
      LaidPrefix(crc, base, file[..size], offs, recs, k);
      assert file[..size][..pos] == file[..pos] == file[..pos][..pos];
      var keep := FirstAbove(index, s - 1);
      IndexKeep(index, base, offs, offs[..k + 1], keep, k);
      file, index := file[..pos], index[..keep];
      size, lastSeq, sinceIdx := pos, s - 1, 0;
      offs, recs := offs[..k + 1], recs[..k];
      return true, true;
    }

    /** A read-only segment becomes the active one again, with whatever follows its last complete record:
        it is fit to append to exactly when nothing does. */
    method ReopenWritable()
      requires Valid()
      modifies this`readOnly
      ensures !readOnly && (Valid() <==> Sealed())
    {
      readOnly := false;
    }

    /** The first record's timestamp, 0 for an empty segment. */
    method FirstTimestamp() returns (ts: int)
      requires Valid()
      ensures ts == if recs == [] then 0 else recs[0].timestamp
    {
      hide BodyBytes, Laid, IndexOk;
      var out, _ := Read(base, 1, 0);
      ts := if |out| == 0 then 0 else out[0].timestamp;
    }
  }
}
