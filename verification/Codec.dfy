/** The on-disk and on-wire form of a record: a checksummed, length-prefixed frame.

    The checksum is a parameter: nothing proved here depends on which one it is. */
module Codec {
  import opened Records
  import opened Metadata

  type uint32 = x: int | 0 <= x < 0x1_0000_0000

  type Checksum = Bytes -> uint32

  const FRAME_HEADER := 8
  const BODY_HEADER := 27
  const EPOCH_SIZE := 4
  const MAX_RECORD := 8 * 1024 * 1024
  const U16 := 0x1_0000
  const U32 := 0x1_0000_0000
  const U64 := 0x1_0000_0000_0000_0000

  function Pow256(n: nat): (p: nat)
    ensures p >= 1
  {
    if n == 0 then 1 else 256 * Pow256(n - 1)
  }

  /** Little-endian in n bytes; a value that does not fit loses its high part. */
  function LE(v: nat, n: nat): (b: Bytes)
    ensures |b| == n
    decreases n
  {
    if n == 0 then [] else [v % 256] + LE(v / 256, n - 1)
  }

  function FromLE(b: Bytes): (v: nat)
    ensures v < Pow256(|b|)
  {
    if b == [] then 0 else b[0] + 256 * FromLE(b[1..])
  }

  lemma {:induction false} LERoundTrip(v: nat, n: nat)
    requires v < Pow256(n)
    ensures FromLE(LE(v, n)) == v
    decreases n
  {
    if n > 0 {
      assert v / 256 < Pow256(n - 1);
      LERoundTrip(v / 256, n - 1);
      assert LE(v, n)[1..] == LE(v / 256, n - 1);
    }
  }

  lemma {:induction false} FromLERoundTrip(b: Bytes)
    ensures LE(FromLE(b), |b|) == b
    decreases |b|
  {
    if b != [] { FromLERoundTrip(b[1..]); }
  }

  lemma Widths()
    ensures Pow256(2) == U16 && Pow256(4) == U32 && Pow256(8) == U64
  {
    assert Pow256(1) == 256;
    assert Pow256(2) == 256 * Pow256(1);
    assert Pow256(3) == 256 * Pow256(2);
    assert Pow256(4) == 256 * Pow256(3);
    assert Pow256(5) == 256 * Pow256(4);
    assert Pow256(6) == 256 * Pow256(5);
    assert Pow256(7) == 256 * Pow256(6);
  }

  /** uint64(int64): two's complement. */
  function Unsigned(t: int): int {
    if t < 0 then t + U64 else t
  }

  function Signed(u: int): int {
    if u >= U64 / 2 then u - U64 else u
  }

  // --- headers -----------------------------------------------------------

  datatype Pair = Pair(key: Bytes, value: Bytes)

  function PairBytes(p: Pair): Bytes {
    LE(|p.key|, 2) + p.key + LE(|p.value|, 2) + p.value
  }

  function HeaderBytes(ps: seq<Pair>): Bytes {
    if ps == [] then [] else PairBytes(ps[0]) + HeaderBytes(ps[1..])
  }

  function Store(m: map<Bytes, Bytes>, ps: seq<Pair>): map<Bytes, Bytes>
    decreases |ps|
  {
    if ps == [] then m else Store(m[ps[0].key := ps[0].value], ps[1..])
  }

  predicate Distinct(ps: seq<Pair>) {
    forall i, j :: 0 <= i < j < |ps| ==> ps[i].key != ps[j].key
  }

  /** ps lists the map in some iteration order. */
  predicate Lists(ps: seq<Pair>, m: map<Bytes, Bytes>) {
    Distinct(ps) && Store(map[], ps) == m
  }

  predicate PairFits(p: Pair) {
    |p.key| < U16 && |p.value| < U16
  }

  predicate HeadersFit(m: map<Bytes, Bytes>) {
    forall k :: k in m ==> |k| < U16 && |m[k]| < U16
  }

  /** None when the bytes do not parse; a repeated key keeps its last value. */
  function DecodeHeaders(buf: Bytes, m: map<Bytes, Bytes>): Option<map<Bytes, Bytes>>
    decreases |buf|
  {
    if |buf| == 0 then Some(m)
    else if |buf| < 2 then None
    else
      var kl := FromLE(buf[..2]);
      var rest := buf[2..];
      if |rest| < kl + 2 then None
      else
        var vl := FromLE(rest[kl..kl + 2]);
        if |rest| - kl - 2 < vl then None
        else DecodeHeaders(rest[kl + 2 + vl..], m[rest[..kl] := rest[kl + 2..kl + 2 + vl]])
  }

  lemma DecodeOnePair(p: Pair, rest: Bytes, m: map<Bytes, Bytes>)
    requires PairFits(p)
    ensures DecodeHeaders(PairBytes(p) + rest, m) == DecodeHeaders(rest, m[p.key := p.value])
  {
    hide LE, FromLE, Pow256;
    Widths();
    LERoundTrip(|p.key|, 2);
    LERoundTrip(|p.value|, 2);
    var buf := PairBytes(p) + rest;
    var kl, vl := |p.key|, |p.value|;
    assert buf[..2] == LE(kl, 2);
    var tail := buf[2..];
    assert tail == p.key + LE(vl, 2) + p.value + rest;
    assert tail[..kl] == p.key && tail[kl..kl + 2] == LE(vl, 2);
    assert tail[kl + 2..kl + 2 + vl] == p.value && tail[kl + 2 + vl..] == rest;
  }

  lemma {:induction false} HeadersRoundTrip(ps: seq<Pair>, m: map<Bytes, Bytes>)
    requires forall i :: 0 <= i < |ps| ==> PairFits(ps[i])
    ensures DecodeHeaders(HeaderBytes(ps), m) == Some(Store(m, ps))
    decreases |ps|
  {
    if ps != [] {
      DecodeOnePair(ps[0], HeaderBytes(ps[1..]), m);
      HeadersRoundTrip(ps[1..], m[ps[0].key := ps[0].value]);
    }
  }

  /** Whatever the bytes, decoded header strings are shorter than 2^16. */
  lemma {:induction false} DecodedHeadersFit(buf: Bytes, m: map<Bytes, Bytes>)
    requires HeadersFit(m)
    ensures DecodeHeaders(buf, m).Some? ==> HeadersFit(DecodeHeaders(buf, m).value)
    decreases |buf|
  {
    Widths();
    if |buf| >= 2 {
      var kl := FromLE(buf[..2]);
      var rest := buf[2..];
      if |rest| >= kl + 2 {
        var vl := FromLE(rest[kl..kl + 2]);
        if |rest| - kl - 2 >= vl {
          DecodedHeadersFit(rest[kl + 2 + vl..], m[rest[..kl] := rest[kl + 2..kl + 2 + vl]]);
        }
      }
    }
  }

  lemma {:induction false} StoreKeepsOthers(m: map<Bytes, Bytes>, ps: seq<Pair>, k: Bytes)
    requires forall i :: 0 <= i < |ps| ==> ps[i].key != k
    ensures k in Store(m, ps) <==> k in m
    ensures k in m ==> Store(m, ps)[k] == m[k]
    decreases |ps|
  {
    if ps != [] { StoreKeepsOthers(m[ps[0].key := ps[0].value], ps[1..], k); }
  }

  /** Each listed pair is in the map. */
  lemma {:induction false} StoreHas(m: map<Bytes, Bytes>, ps: seq<Pair>, i: nat)
    requires Distinct(ps) && i < |ps|
    ensures ps[i].key in Store(m, ps) && Store(m, ps)[ps[i].key] == ps[i].value
    decreases |ps|
  {
    var m1 := m[ps[0].key := ps[0].value];
    if i == 0 {
      StoreKeepsOthers(m1, ps[1..], ps[0].key);
    } else {
      StoreHas(m1, ps[1..], i - 1);
    }
  }

  lemma ListedPairsFit(ps: seq<Pair>, m: map<Bytes, Bytes>)
    requires Lists(ps, m) && HeadersFit(m)
    ensures forall i :: 0 <= i < |ps| ==> PairFits(ps[i])
  {
    forall i | 0 <= i < |ps| ensures PairFits(ps[i]) { StoreHas(map[], ps, i); }
  }

  /** The bytes a header map takes, in whatever order it is written. */
  ghost function HeaderSize(m: map<Bytes, Bytes>): nat
    decreases |m|
  {
    if m == map[] then 0
    else
      var k :| k in m;
      4 + |k| + |m[k]| + HeaderSize(m - {k})
  }

  lemma {:induction false} HeaderSizeWithout(m: map<Bytes, Bytes>, k: Bytes)
    requires k in m
    ensures HeaderSize(m) == 4 + |k| + |m[k]| + HeaderSize(m - {k})
    decreases |m|
  {
    var x :| x in m && HeaderSize(m) == 4 + |x| + |m[x]| + HeaderSize(m - {x});
    if x != k {
      HeaderSizeWithout(m - {x}, k);
      HeaderSizeWithout(m - {k}, x);
      assert (m - {x}) - {k} == (m - {k}) - {x};
    }
  }

  lemma {:induction false} ListedSize(ps: seq<Pair>, m: map<Bytes, Bytes>)
    requires Distinct(ps) && forall i :: 0 <= i < |ps| ==> ps[i].key !in m
    ensures HeaderSize(Store(m, ps)) == HeaderSize(m) + |HeaderBytes(ps)|
    decreases |ps|
  {
    if ps != [] {
      var m1 := m[ps[0].key := ps[0].value];
      assert m1 - {ps[0].key} == m;
      HeaderSizeWithout(m1, ps[0].key);
      ListedSize(ps[1..], m1);
    }
  }

  // --- records -----------------------------------------------------------

  /** The widths of the wire fields; Go's types guarantee them. */
  predicate FieldsFit(r: Record) {
    r.seqno < U64 && -(U64 / 2) <= r.timestamp < U64 / 2 && r.epoch < U32
  }

  function WireFlags(r: Record): byte {
    if r.epoch > 0 then SetEpochFlag(r.flags) else ClearEpochFlag(r.flags)
  }

  function EpochBytes(r: Record): Bytes {
    if r.epoch > 0 then LE(r.epoch, EPOCH_SIZE) else []
  }

  /** The 27 bytes every body starts with. */
  function Fixed(r: Record, hdrLen: nat): (b: Bytes)
    ensures |b| == BODY_HEADER
  {
    LE(r.seqno, 8) + LE(if Unsigned(r.timestamp) >= 0 then Unsigned(r.timestamp) else 0, 8) + [WireFlags(r)]
      + LE(|r.key|, 2) + LE(hdrLen, 4) + LE(|r.payload|, 4)
  }

  function Body(r: Record, hdr: Bytes): Bytes {
    Fixed(r, |hdr|) + EpochBytes(r) + r.key + hdr + r.payload
  }

  function Frame(crc: Checksum, body: Bytes): Bytes {
    LE(crc(body), 4) + LE(|body|, 4) + body
  }

  datatype Encoded = TooLarge | KeyTooLong | Framed(frame: Bytes)

  /** Encoding with the headers in the order ps lists them. */
  function Encode(crc: Checksum, r: Record, ps: seq<Pair>): Encoded {
    var body := Body(r, HeaderBytes(ps));
    if |body| > MAX_RECORD then TooLarge
    else if |r.key| >= U16 then KeyTooLong
    else Framed(Frame(crc, body))
  }

  function DecodeBody(body: Bytes): Option<Record> {
    if |body| < BODY_HEADER then None
    else
      var flags := body[16];
      var keyLen, hdrLen, payLen := FromLE(body[17..19]), FromLE(body[19..23]), FromLE(body[23..27]);
      var at := if EpochFlag(flags) then BODY_HEADER + EPOCH_SIZE else BODY_HEADER;
      if |body| < at || at + keyLen + hdrLen + payLen != |body| then None
      else
        var headers := DecodeHeaders(body[at + keyLen..at + keyLen + hdrLen], map[]);
        if headers.None? then None
        else
          Some(Record(FromLE(body[..8]), Signed(FromLE(body[8..16])), body[at..at + keyLen], headers.value,
                      body[at + keyLen + hdrLen..], ClearEpochFlag(flags),
                      if EpochFlag(flags) then FromLE(body[27..31]) else 0))
  }

  function DecodeRecord(crc: Checksum, frame: Bytes): Option<Record> {
    if |frame| < FRAME_HEADER then None
    else
      var bodyLen := FromLE(frame[4..8]);
      if bodyLen < BODY_HEADER || bodyLen > MAX_RECORD || |frame| < FRAME_HEADER + bodyLen then None
      else
        var body := frame[FRAME_HEADER..FRAME_HEADER + bodyLen];
        if crc(body) != FromLE(frame[..4]) then None else DecodeBody(body)
  }

  /** A record as it comes back: the epoch flag bit belongs to the encoding. */
  function Normal(r: Record): Record {
    r.(flags := ClearEpochFlag(r.flags))
  }

  lemma FixedFields(r: Record, hdrLen: nat)
    requires FieldsFit(r) && |r.key| < U16 && hdrLen < U32 && |r.payload| < U32
    ensures var b := Fixed(r, hdrLen);
      && FromLE(b[..8]) == r.seqno && Signed(FromLE(b[8..16])) == r.timestamp && b[16] == WireFlags(r)
      && FromLE(b[17..19]) == |r.key| && FromLE(b[19..23]) == hdrLen && FromLE(b[23..27]) == |r.payload|
  {
    hide LE, FromLE, Pow256, WireFlags;
    Widths();
    LERoundTrip(r.seqno, 8);
    LERoundTrip(Unsigned(r.timestamp), 8);
    LERoundTrip(|r.key|, 2);
    LERoundTrip(hdrLen, 4);
    LERoundTrip(|r.payload|, 4);
    var b := Fixed(r, hdrLen);
    assert b[..8] == LE(r.seqno, 8);
    assert b[8..16] == LE(Unsigned(r.timestamp), 8);
    assert b[17..19] == LE(|r.key|, 2);
    assert b[19..23] == LE(hdrLen, 4);
    assert b[23..27] == LE(|r.payload|, 4);
  }

  lemma Flags(r: Record)
    ensures EpochFlag(WireFlags(r)) <==> r.epoch > 0
    ensures ClearEpochFlag(WireFlags(r)) == ClearEpochFlag(r.flags)
  {
  }

  /** The parts of a body, where the decoder looks for them. */
  lemma BodyParts(r: Record, hdr: Bytes)
    requires |r.key| < U16 && |hdr| < U32 && |r.payload| < U32
    ensures var b := Body(r, hdr);
      var at := BODY_HEADER + |EpochBytes(r)|;
      && |b| == at + |r.key| + |hdr| + |r.payload|
      && b[..BODY_HEADER] == Fixed(r, |hdr|) && b[BODY_HEADER..at] == EpochBytes(r)
      && b[at..at + |r.key|] == r.key && b[at + |r.key|..at + |r.key| + |hdr|] == hdr
      && b[at + |r.key| + |hdr|..] == r.payload
  {
    hide Fixed, EpochBytes;
  }

  /** Decoding an encoded body gives back everything but, possibly, the headers. */
  lemma BodyRoundTrip(r: Record, hdr: Bytes)
    requires FieldsFit(r) && |r.key| < U16 && |Body(r, hdr)| <= MAX_RECORD
    ensures var h := DecodeHeaders(hdr, map[]);
      DecodeBody(Body(r, hdr)) == if h.None? then None else Some(Normal(r).(headers := h.value))
  {
    hide LE, FromLE, Pow256, Fixed, DecodeHeaders, WireFlags, ClearEpochFlag, EpochFlag, FieldsFit, Body;
    var b := Body(r, hdr);
    BodySize(r, hdr);
    BodyParts(r, hdr);
    FixedFields(r, |hdr|);
    Flags(r);
    var f := Fixed(r, |hdr|);
    assert b[..8] == f[..8] && b[8..16] == f[8..16] && b[16] == f[16];
    assert b[17..19] == f[17..19] && b[19..23] == f[19..23] && b[23..27] == f[23..27];
    if r.epoch > 0 {
      assert b[27..31] == LE(r.epoch, 4);
      EpochRoundTrip(r);
    }
  }

  lemma EpochRoundTrip(r: Record)
    requires FieldsFit(r)
    ensures FromLE(LE(r.epoch, 4)) == r.epoch
  {
    Widths();
    LERoundTrip(r.epoch, 4);
  }

  lemma BodySize(r: Record, hdr: Bytes)
    ensures |Body(r, hdr)| == BODY_HEADER + |EpochBytes(r)| + |r.key| + |hdr| + |r.payload|
    ensures |EpochBytes(r)| == if r.epoch > 0 then EPOCH_SIZE else 0
  {
  }

  /** A frame of a sane body decodes as its body does. */
  lemma FrameRoundTrip(crc: Checksum, body: Bytes)
    requires BODY_HEADER <= |body| <= MAX_RECORD
    ensures DecodeRecord(crc, Frame(crc, body)) == DecodeBody(body)
  {
    hide LE, FromLE, Pow256, DecodeBody;
    Widths();
    LERoundTrip(crc(body), 4);
    LERoundTrip(|body|, 4);
    var f := Frame(crc, body);
    assert f[..4] == LE(crc(body), 4) && f[4..8] == LE(|body|, 4);
    assert f[FRAME_HEADER..FRAME_HEADER + |body|] == body;
  }

  /** A record that encodes comes back unchanged, the epoch flag bit aside, exactly when every
      header string is shorter than 2^16 bytes: the encoder checks the key, not the headers. */
  lemma RecordRoundTripIff(crc: Checksum, r: Record, ps: seq<Pair>)
    requires FieldsFit(r) && Lists(ps, r.headers) && Encode(crc, r, ps).Framed?
    ensures DecodeRecord(crc, Encode(crc, r, ps).frame) == Some(Normal(r)) <==> HeadersFit(r.headers)
  {
    hide DecodeRecord, DecodeBody, Body, Frame, DecodeHeaders, FieldsFit, HeaderBytes, Store, Distinct;
    var hdr := HeaderBytes(ps);
    BodySize(r, hdr);
    FrameRoundTrip(crc, Body(r, hdr));
    BodyRoundTrip(r, hdr);
    if HeadersFit(r.headers) {
      ListedPairsFit(ps, r.headers);
      HeadersRoundTrip(ps, map[]);
    } else {
      DecodedHeadersFit(hdr, map[]);
    }
  }

  // --- whole frames and batches ------------------------------------------

  /** On-disk footprint of a record. */
  ghost function EncodedSize(r: Record): nat {
    FRAME_HEADER + BODY_HEADER + (if r.epoch > 0 then EPOCH_SIZE else 0)
      + |r.key| + HeaderSize(r.headers) + |r.payload|
  }

  /** A frame that says its own length and decodes. */
  predicate Whole(crc: Checksum, f: Bytes) {
    |f| >= FRAME_HEADER + BODY_HEADER && FromLE(f[4..8]) == |f| - FRAME_HEADER && DecodeRecord(crc, f).Some?
  }

  lemma FrameLength(crc: Checksum, body: Bytes)
    requires |body| <= MAX_RECORD
    ensures var f := Frame(crc, body); |f| == FRAME_HEADER + |body| && FromLE(f[4..8]) == |body|
  {
    hide LE, FromLE, Pow256;
    Widths();
    LERoundTrip(|body|, 4);
    assert Frame(crc, body)[4..8] == LE(|body|, 4);
  }

  /** What the encoder produces is a whole frame of the record's size. */
  lemma EncodedFrame(crc: Checksum, r: Record, ps: seq<Pair>)
    requires FieldsFit(r) && Lists(ps, r.headers) && HeadersFit(r.headers) && Encode(crc, r, ps).Framed?
    ensures var f := Encode(crc, r, ps).frame;
      && Whole(crc, f) && DecodeRecord(crc, f) == Some(Normal(r)) && |f| == EncodedSize(Normal(r))
      && FRAME_HEADER + BODY_HEADER <= |f| <= FRAME_HEADER + MAX_RECORD
  {
    hide DecodeRecord, Body, Frame, FieldsFit, HeaderBytes, HeaderSize;
    RecordRoundTripIff(crc, r, ps);
    BodySize(r, HeaderBytes(ps));
    FrameLength(crc, Body(r, HeaderBytes(ps)));
    ListedSize(ps, map[]);
    NoHeaders();
  }

  /** Records the encoder accepts: a bounded body and a key whose length fits its field. */
  ghost predicate Encodable(r: Record) {
    EncodedSize(r) <= FRAME_HEADER + MAX_RECORD && |r.key| < U16
  }

  lemma EncodableIff(crc: Checksum, r: Record, ps: seq<Pair>)
    requires Lists(ps, r.headers)
    ensures Encode(crc, r, ps).Framed? <==> Encodable(r)
  {
    hide Body, Frame, HeaderBytes, HeaderSize;
    BodySize(r, HeaderBytes(ps));
    ListedSize(ps, map[]);
    NoHeaders();
  }

  lemma NoHeaders()
    ensures HeaderSize(map[]) == 0
  {
  }

  function Concat(fs: seq<Bytes>): Bytes {
    if fs == [] then [] else fs[0] + Concat(fs[1..])
  }

  /** One frame off the front of a batch. */
  function NextFrame(b: Bytes): (f: Option<Bytes>)
    ensures f.Some? ==> f.value <= b
  {
    if |b| < FRAME_HEADER then None
    else
      var total := FRAME_HEADER + FromLE(b[4..8]);
      if total > |b| then None else Some(b[..total])
  }

  /** The records of a batch body, after `acc`; bytes past the announced count are ignored. */
  function Split(crc: Checksum, b: Bytes, count: nat, acc: seq<Record>): Option<seq<Record>>
    decreases count
  {
    if count == 0 then Some(acc)
    else
      var f := NextFrame(b);
      if f.None? then None
      else
        var r := DecodeRecord(crc, f.value);
        if r.None? then None else Split(crc, b[|f.value|..], count - 1, acc + [r.value])
  }

  predicate AllWhole(crc: Checksum, fs: seq<Bytes>) {
    forall i :: 0 <= i < |fs| ==> Whole(crc, fs[i])
  }

  function Decoded(crc: Checksum, fs: seq<Bytes>): seq<Record>
    requires AllWhole(crc, fs)
  {
    if fs == [] then [] else [DecodeRecord(crc, fs[0]).value] + Decoded(crc, fs[1..])
  }

  lemma NextIsFirst(crc: Checksum, f: Bytes, rest: Bytes)
    requires Whole(crc, f)
    ensures NextFrame(f + rest) == Some(f) && (f + rest)[|f|..] == rest
  {
    assert (f + rest)[4..8] == f[4..8];
  }

  lemma {:induction false} SplitConcat(crc: Checksum, fs: seq<Bytes>, acc: seq<Record>)
    requires AllWhole(crc, fs)
    ensures Split(crc, Concat(fs), |fs|, acc) == Some(acc + Decoded(crc, fs))
    decreases |fs|
  {
    hide NextFrame, DecodeRecord;
    if fs == [] {
      assert acc + [] == acc;
    } else {
      var r := DecodeRecord(crc, fs[0]).value;
      NextIsFirst(crc, fs[0], Concat(fs[1..]));
      SplitConcat(crc, fs[1..], acc + [r]);
      assert acc + ([r] + Decoded(crc, fs[1..])) == acc + [r] + Decoded(crc, fs[1..]);
    }
  }

  datatype Batch = Batch(topic: Bytes, partition: nat, recs: seq<Record>)

  function RecordsHeader(topic: Bytes, partition: nat, count: nat): Bytes {
    LE(partition, 4) + LE(count, 4) + LE(|topic|, 2) + topic
  }

  function EncodeBatch(topic: Bytes, partition: nat, fs: seq<Bytes>): Bytes {
    RecordsHeader(topic, partition, |fs|) + Concat(fs)
  }

  function DecodeBatch(crc: Checksum, b: Bytes): Option<Batch> {
    if |b| < 10 then None
    else
      var topicLen := FromLE(b[8..10]);
      if |b| < 10 + topicLen then None
      else
        var recs := Split(crc, b[10 + topicLen..], FromLE(b[4..8]), []);
        if recs.None? then None else Some(Batch(b[10..10 + topicLen], FromLE(b[..4]), recs.value))
  }

  /** A shipped batch arrives as the list of records that went in. */
  lemma BatchRoundTrip(crc: Checksum, topic: Bytes, partition: nat, fs: seq<Bytes>)
    requires |topic| < U16 && partition < U32 && |fs| < U32 && AllWhole(crc, fs)
    ensures DecodeBatch(crc, EncodeBatch(topic, partition, fs)) == Some(Batch(topic, partition, Decoded(crc, fs)))
  {
    hide LE, FromLE, Pow256, AllWhole, Split, Concat, DecodeRecord;
    Widths();
    LERoundTrip(partition, 4);
    LERoundTrip(|fs|, 4);
    LERoundTrip(|topic|, 2);
    SplitConcat(crc, fs, []);
    var b := EncodeBatch(topic, partition, fs);
    assert b[..4] == LE(partition, 4) && b[4..8] == LE(|fs|, 4) && b[8..10] == LE(|topic|, 2);
    assert b[10..10 + |topic|] == topic && b[10 + |topic|..] == Concat(fs);
    assert [] + Decoded(crc, fs) == Decoded(crc, fs);
  }

  /** Each frame is the encoding of its record, whatever order the headers were listed in. */
  ghost predicate FramesOf(crc: Checksum, fs: seq<Bytes>, recs: seq<Record>, pss: seq<seq<Pair>>) {
    && |fs| == |recs| == |pss|
    && forall i :: 0 <= i < |fs| ==>
      && FieldsFit(recs[i]) && HeadersFit(recs[i].headers) && Lists(pss[i], recs[i].headers)
      && Encode(crc, recs[i], pss[i]) == Framed(fs[i])
  }

  /** The records as a decoder gives them back: the epoch flag bit is not theirs to keep. */
  function Normals(recs: seq<Record>): seq<Record> {
    if recs == [] then [] else [Normal(recs[0])] + Normals(recs[1..])
  }

  lemma FrameOfRecord(crc: Checksum, fs: seq<Bytes>, recs: seq<Record>, pss: seq<seq<Pair>>, i: nat)
    requires FramesOf(crc, fs, recs, pss) && i < |fs|
    ensures Whole(crc, fs[i]) && DecodeRecord(crc, fs[i]) == Some(Normal(recs[i]))
  {
    hide Encode, FieldsFit, HeadersFit, Lists, Whole, DecodeRecord, EncodedSize;
    EncodedFrame(crc, recs[i], pss[i]);
  }

  lemma {:induction false} DecodedRecords(crc: Checksum, fs: seq<Bytes>, recs: seq<Record>, pss: seq<seq<Pair>>)
    requires FramesOf(crc, fs, recs, pss)
    ensures AllWhole(crc, fs) && Decoded(crc, fs) == Normals(recs)
    decreases |fs|
  {
    hide Encode, FieldsFit, HeadersFit, Lists, Whole, DecodeRecord;
    forall i | 0 <= i < |fs| ensures Whole(crc, fs[i]) { FrameOfRecord(crc, fs, recs, pss, i); }
    if fs != [] {
      FrameOfRecord(crc, fs, recs, pss, 0);
      DecodedRecords(crc, fs[1..], recs[1..], pss[1..]);
    }
  }

  /** Encoding records, shipping the frames and decoding the batch gives back the same records in the same order. */
  lemma RecordsShipped(crc: Checksum, topic: Bytes, partition: nat, fs: seq<Bytes>, recs: seq<Record>,
                       pss: seq<seq<Pair>>)
    requires |topic| < U16 && partition < U32 && |fs| < U32 && FramesOf(crc, fs, recs, pss)
    ensures DecodeBatch(crc, EncodeBatch(topic, partition, fs)) == Some(Batch(topic, partition, Normals(recs)))
  {
    hide FramesOf, EncodeBatch, DecodeBatch;
    DecodedRecords(crc, fs, recs, pss);
    BatchRoundTrip(crc, topic, partition, fs);
  }

  // --- the loops of the implementation -----------------------------------

  lemma {:induction false} HeaderBytesSnoc(ps: seq<Pair>, p: Pair)
    ensures HeaderBytes(ps + [p]) == HeaderBytes(ps) + PairBytes(p)
  {
    hide PairBytes;
    if ps == [] {
      assert HeaderBytes([p]) == PairBytes(p) + HeaderBytes([]) == PairBytes(p);
      assert ps + [p] == [p] && HeaderBytes(ps) + PairBytes(p) == PairBytes(p);
    } else {
      HeaderBytesSnoc(ps[1..], p);
      assert (ps + [p])[1..] == ps[1..] + [p];
    }
  }

  lemma {:induction false} StoreSnoc(m: map<Bytes, Bytes>, ps: seq<Pair>, p: Pair)
    ensures Store(m, ps + [p]) == Store(m, ps)[p.key := p.value]
    decreases |ps|
  {
    if ps == [] {
      assert ps + [p] == [p];
    } else {
      StoreSnoc(m[ps[0].key := ps[0].value], ps[1..], p);
      assert (ps + [p])[1..] == ps[1..] + [p];
    }
  }

  /** Walks the map in no particular order; `ps` is the order it happened to take. */
  method EncodeHeaders(h: map<Bytes, Bytes>) returns (buf: Bytes, ghost ps: seq<Pair>)
    ensures Lists(ps, h) && buf == HeaderBytes(ps)
  {
    buf, ps := [], [];
    var todo := h.Keys;
    while todo != {}
      invariant todo <= h.Keys && Distinct(ps) && buf == HeaderBytes(ps)
      invariant Store(map[], ps) == map k | k in h && k !in todo :: h[k]
      invariant forall i :: 0 <= i < |ps| ==> ps[i].key !in todo
      decreases |todo|
    {
      var k :| k in todo;
      var p := Pair(k, h[k]);
      HeaderBytesSnoc(ps, p);
      StoreSnoc(map[], ps, p);
      buf := buf + PairBytes(p);
      ps := ps + [p];
      todo := todo - {k};
    }
    assert Store(map[], ps) == h;
  }

  method EncodeRecord(crc: Checksum, r: Record) returns (e: Encoded, ghost ps: seq<Pair>)
    ensures Lists(ps, r.headers) && e == Encode(crc, r, ps)
  {
    var hdr;
    hdr, ps := EncodeHeaders(r.headers);
    var body := Body(r, hdr);
    if |body| > MAX_RECORD { return TooLarge, ps; }
    if |r.key| >= U16 { return KeyTooLong, ps; }
    return Framed(Frame(crc, body)), ps;
  }

  /** encodedSize: the headers are encoded again to be measured. */
  method Footprint(r: Record) returns (n: nat)
    ensures n == EncodedSize(r)
  {
    hide HeaderSize, HeaderBytes;
    var hdr, ps := EncodeHeaders(r.headers);
    ListedSize(ps, map[]);
    NoHeaders();
    n := FRAME_HEADER + BODY_HEADER + (if r.epoch > 0 then EPOCH_SIZE else 0) + |r.key| + |hdr| + |r.payload|;
  }

  method ParseHeaders(buf: Bytes) returns (r: Option<map<Bytes, Bytes>>)
    ensures r == DecodeHeaders(buf, map[])
  {
    var m: map<Bytes, Bytes> := map[];
    var rest := buf;
    while |rest| > 0
      invariant DecodeHeaders(rest, m) == DecodeHeaders(buf, map[])
      decreases |rest|
    {
      if |rest| < 2 { return None; }
      var kl := FromLE(rest[..2]);
      var tail := rest[2..];
      if |tail| < kl + 2 { return None; }
      var vl := FromLE(tail[kl..kl + 2]);
      if |tail| - kl - 2 < vl { return None; }
      m := m[tail[..kl] := tail[kl + 2..kl + 2 + vl]];
      rest := tail[kl + 2 + vl..];
    }
    return Some(m);
  }

  /** The follower's frame loop over one received batch body. */
  method SplitBody(crc: Checksum, body: Bytes, count: nat) returns (r: Option<seq<Record>>)
    ensures r == Split(crc, body, count, [])
  {
    hide NextFrame, DecodeRecord;
    var rest, out := body, [];
    var i := 0;
    while i < count
      invariant 0 <= i <= count
      invariant Split(crc, rest, count - i, out) == Split(crc, body, count, [])
    {
      var f := NextFrame(rest);
      if f.None? { return None; }
      var d := DecodeRecord(crc, f.value);
      if d.None? { return None; }
      rest := rest[|f.value|..];
      out := out + [d.value];
      i := i + 1;
    }
    return Some(out);
  }
}
