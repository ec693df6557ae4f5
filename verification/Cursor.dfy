/** Reader positions, kept as an append-only log of (key, sequence) pairs. */
module Cursors {
  import opened Records
  import opened Codec

  type Positions = map<Bytes, nat>

  /** One commit as logged. */
  datatype Mark = Mark(key: Bytes, seqno: nat)

  const MARK_HEADER := 8
  const MIN_BODY := 10
  const MAX_BODY := 64 * 1024
  const MAX_KEY := MAX_BODY - MIN_BODY

  predicate Fits(m: Mark) {
    |m.key| <= MAX_KEY && m.seqno < U64
  }

  predicate AllFit(es: seq<Mark>) {
    forall i :: 0 <= i < |es| ==> Fits(es[i])
  }

  /** The widths of the wire fields: a 64-bit sequence and a 32-bit length. */
  predicate Sized(m: Mark) {
    |m.key| + MIN_BODY < U32 && m.seqno < U64
  }

  predicate AllSized(es: seq<Mark>) {
    forall i :: 0 <= i < |es| ==> Sized(es[i])
  }

  // --- bytes -------------------------------------------------------------

  function MarkBody(m: Mark): Bytes {
    LE(m.seqno, 8) + LE(|m.key|, 2) + m.key
  }

  function MarkBytes(crc: Checksum, m: Mark): (b: Bytes)
    ensures |b| == MARK_HEADER + MIN_BODY + |m.key|
  {
    var body := MarkBody(m);
    LE(crc(body), 4) + LE(|body|, 4) + body
  }

  datatype Parsed = Stop | Next(mark: Mark, size: nat)

  /** The record at the head of b, or the end of what can be trusted. */
  function Parse(crc: Checksum, b: Bytes): (p: Parsed)
    ensures p.Next? ==> 0 < p.size <= |b|
  {
    if |b| < MARK_HEADER then Stop
    else
      var bodyLen := FromLE(b[4..8]);
      if bodyLen < MIN_BODY || bodyLen > MAX_BODY || |b| - MARK_HEADER < bodyLen then Stop
      else
        var body := b[MARK_HEADER..MARK_HEADER + bodyLen];
        if crc(body) != FromLE(b[..4]) || MIN_BODY + FromLE(body[8..10]) != bodyLen then Stop
        else Next(Mark(body[MIN_BODY..], FromLE(body[..8])), MARK_HEADER + bodyLen)
  }

  /** What loading a log adds to the positions m. */
  function Replay(crc: Checksum, b: Bytes, m: Positions): Positions
    decreases |b|
  {
    match Parse(crc, b)
    case Stop => m
    case Next(k, n) => Replay(crc, b[n..], m[k.key := k.seqno])
  }

  function LogBytes(crc: Checksum, es: seq<Mark>): Bytes {
    if es == [] then [] else LogBytes(crc, es[..|es| - 1]) + MarkBytes(crc, es[|es| - 1])
  }

  /** Later commits win. */
  function Fold(m: Positions, es: seq<Mark>): Positions {
    if es == [] then m else
      var e := es[|es| - 1];
      Fold(m, es[..|es| - 1])[e.key := e.seqno]
  }

  lemma BodyFields(m: Mark)
    requires m.seqno < U64
    ensures var b := MarkBody(m);
      && |b| == MIN_BODY + |m.key| && FromLE(b[..8]) == m.seqno && b[MIN_BODY..] == m.key
      && (|m.key| < U16 ==> FromLE(b[8..10]) == |m.key|)
  {
    hide LE, FromLE, Pow256;
    Widths();
    LERoundTrip(m.seqno, 8);
    var b := MarkBody(m);
    assert b[..8] == LE(m.seqno, 8) && b[8..10] == LE(|m.key|, 2);
    if |m.key| < U16 { LERoundTrip(|m.key|, 2); }
  }

  lemma HeaderFields(crc: Checksum, body: Bytes, rest: Bytes)
    requires |body| < U32
    ensures var b := LE(crc(body), 4) + LE(|body|, 4) + body + rest;
      && FromLE(b[..4]) == crc(body) && FromLE(b[4..8]) == |body|
      && b[MARK_HEADER..MARK_HEADER + |body|] == body && b[MARK_HEADER + |body|..] == rest
  {
    hide LE, FromLE, Pow256;
    Widths();
    LERoundTrip(crc(body), 4);
    LERoundTrip(|body|, 4);
    Pieces(LE(crc(body), 4), LE(|body|, 4), body, rest);
  }

  lemma Pieces(x: Bytes, y: Bytes, body: Bytes, rest: Bytes)
    requires |x| == 4 && |y| == 4
    ensures var b := x + y + body + rest;
      && b[..4] == x && b[4..8] == y
      && b[MARK_HEADER..MARK_HEADER + |body|] == body && b[MARK_HEADER + |body|..] == rest
  {
    var b := x + y + body + rest;
    assert b[..4] == x;
    assert b[4..8] == y;
    assert b[8..8 + |body|] == body;
    assert b[8 + |body|..] == rest;
  }

  lemma ParseRecord(crc: Checksum, m: Mark, rest: Bytes)
    requires Sized(m)
    ensures var b := MarkBytes(crc, m) + rest;
      Parse(crc, b) == if |m.key| <= MAX_KEY then Next(m, |MarkBytes(crc, m)|) else Stop
    ensures (MarkBytes(crc, m) + rest)[|MarkBytes(crc, m)|..] == rest
  {
    hide LE, FromLE, MarkBody;
    BodyFields(m);
    HeaderFields(crc, MarkBody(m), rest);
  }

  /** The loader takes a commit back exactly when its key is within the size it reads. */
  lemma LoadsIff(crc: Checksum, m: Mark)
    requires Sized(m)
    ensures Replay(crc, MarkBytes(crc, m), map[]) == map[m.key := m.seqno] <==> |m.key| <= MAX_KEY
  {
    hide Parse, MarkBytes;
    ParseRecord(crc, m, []);
    assert MarkBytes(crc, m) + [] == MarkBytes(crc, m);
    assert m.key in map[m.key := m.seqno];
    NothingToParse(crc);
  }

  lemma NothingToParse(crc: Checksum)
    ensures Parse(crc, []) == Stop
  {
  }

  /** The bytes at the head of b carry a length the loader takes and the checksum of what follows. */
  predicate Passes(crc: Checksum, b: Bytes) {
    |b| >= MARK_HEADER &&
    (var bodyLen := FromLE(b[4..8]);
     && MIN_BODY <= bodyLen <= MAX_BODY && bodyLen <= |b| - MARK_HEADER
     && crc(b[MARK_HEADER..MARK_HEADER + bodyLen]) == FromLE(b[..4]))
  }

  lemma StopsUnlessPasses(crc: Checksum, b: Bytes)
    ensures Parse(crc, b).Next? ==> Passes(crc, b)
  {
    hide FromLE;
  }

  /** More bytes after a record change nothing about it. */
  lemma ParseLonger(crc: Checksum, x: Bytes, y: Bytes)
    requires x <= y && Parse(crc, x).Next?
    ensures Parse(crc, y) == Parse(crc, x)
  {
    hide FromLE;
    var n := FromLE(x[4..8]);
    assert y[4..8] == x[4..8] && y[..4] == x[..4];
    assert y[MARK_HEADER..MARK_HEADER + n] == x[MARK_HEADER..MARK_HEADER + n];
  }

  /** What parses is exactly the record of what it parses to. */
  lemma ParsedBytes(crc: Checksum, b: Bytes)
    requires Parse(crc, b).Next?
    ensures var p := Parse(crc, b);
      Fits(p.mark) && p.size == |MarkBytes(crc, p.mark)| && b[..p.size] == MarkBytes(crc, p.mark)
  {
    hide LE, FromLE, Pow256;
    Widths();
    var n := FromLE(b[4..8]);
    var body := b[MARK_HEADER..MARK_HEADER + n];
    var m := Parse(crc, b).mark;
    FromLERoundTrip(b[..4]);
    FromLERoundTrip(b[4..8]);
    FromLERoundTrip(body[..8]);
    FromLERoundTrip(body[8..10]);
    assert body == body[..8] + body[8..10] + body[10..];
    assert MarkBody(m) == body;
    assert b[..MARK_HEADER + n] == b[..4] + b[4..8] + body;
  }

  // --- the log as a whole ------------------------------------------------

  lemma {:induction false} ReplayAfter(crc: Checksum, es: seq<Mark>, tail: Bytes, m: Positions)
    requires AllFit(es)
    ensures Replay(crc, LogBytes(crc, es) + tail, m) == Replay(crc, tail, Fold(m, es))
    decreases |es|
  {
    hide Parse, MarkBytes;
    if es == [] {
      assert LogBytes(crc, es) + tail == tail;
    } else {
      var n := |es| - 1;
      var last := MarkBytes(crc, es[n]);
      assert LogBytes(crc, es) + tail == LogBytes(crc, es[..n]) + (last + tail);
      ReplayAfter(crc, es[..n], last + tail, m);
      assert Fits(es[n]);
      ParseRecord(crc, es[n], tail);
    }
  }

  lemma ReplayLog(crc: Checksum, es: seq<Mark>)
    requires AllFit(es)
    ensures Replay(crc, LogBytes(crc, es), map[]) == Fold(map[], es)
  {
    ReplayAfter(crc, es, [], map[]);
    assert LogBytes(crc, es) + [] == LogBytes(crc, es);
    NothingToParse(crc);
  }

  /** A record cut short is not read. */
  lemma TornRecord(crc: Checksum, m: Mark, t: Bytes)
    requires Fits(m) && t < MarkBytes(crc, m)
    ensures Parse(crc, t) == Stop
  {
    hide LE, FromLE, MarkBody;
    BodyFields(m);
    HeaderFields(crc, MarkBody(m), []);
    var b := MarkBytes(crc, m);
    assert b + [] == b;
    if |t| >= MARK_HEADER { assert t[4..8] == b[4..8]; }
  }

  /** Loading any prefix of a log gives the positions after some of its commits. */
  lemma {:induction false} CrashedLoad(crc: Checksum, es: seq<Mark>, b: Bytes) returns (c: nat)
    requires AllFit(es) && b <= LogBytes(crc, es)
    ensures c <= |es| && Replay(crc, b, map[]) == Fold(map[], es[..c])
    decreases |es|
  {
    hide Parse, MarkBytes, Fits;
    if b == LogBytes(crc, es) {
      c := |es|;
      ReplayLog(crc, es);
      assert es[..c] == es;
    } else {
      var n := |es| - 1;
      var front := LogBytes(crc, es[..n]);
      if b <= front {
        c := CrashedLoad(crc, es[..n], b);
        assert es[..n][..c] == es[..c];
      } else {
        c := n;
        var t := b[|front|..];
        assert b == front + t && t < MarkBytes(crc, es[n]);
        ReplayAfter(crc, es[..n], t, map[]);
        TornRecord(crc, es[n], t);
      }
    }
  }

  /** Every key's commits only grow. */
  predicate Growing(es: seq<Mark>) {
    forall i, j :: 0 <= i < j < |es| && es[i].key == es[j].key ==> es[i].seqno < es[j].seqno
  }

  /** Every position is one that was committed. */
  lemma {:induction false} FoldCommitted(es: seq<Mark>, k: Bytes) returns (i: nat)
    requires k in Fold(map[], es)
    ensures i < |es| && es[i] == Mark(k, Fold(map[], es)[k])
    decreases |es|
  {
    var n := |es| - 1;
    if es[n].key == k { i := n; } else { i := FoldCommitted(es[..n], k); }
  }

  /** q has every position of p, at least as far on. */
  predicate Grown(p: Positions, q: Positions) {
    forall k :: k in p ==> k in q && p[k] <= q[k]
  }

  lemma {:induction false} FoldGrows(es: seq<Mark>, c: nat)
    requires Growing(es) && c <= |es|
    ensures Grown(Fold(map[], es[..c]), Fold(map[], es))
    decreases |es| - c
  {
    hide Fold;
    if c == |es| {
      assert es[..c] == es;
    } else {
      FoldGrows(es, c + 1);
      FoldStep(es, c);
    }
  }

  lemma FoldStep(es: seq<Mark>, c: nat)
    requires Growing(es) && c < |es|
    ensures Grown(Fold(map[], es[..c]), Fold(map[], es[..c + 1]))
  {
    assert es[..c + 1][..c] == es[..c];
    var p := Fold(map[], es[..c]);
    if es[c].key in p {
      var i := FoldCommitted(es[..c], es[c].key);
      assert es[i].key == es[c].key;
    }
  }

  /** After a crash that keeps any prefix of the log, every cursor is the committed one or an older one. */
  lemma CrashKeepsOlderCursors(crc: Checksum, es: seq<Mark>, b: Bytes)
    requires AllFit(es) && Growing(es) && b <= LogBytes(crc, es)
    ensures Grown(Replay(crc, b, map[]), Fold(map[], es))
  {
    hide Replay, Fold, LogBytes, Grown, Growing;
    var c := CrashedLoad(crc, es, b);
    FoldGrows(es, c);
  }

  lemma {:induction false} FoldBound(es: seq<Mark>, i: nat)
    requires Growing(es) && i < |es|
    ensures es[i].key in Fold(map[], es) && es[i].seqno <= Fold(map[], es)[es[i].key]
    decreases |es|
  {
    var n := |es| - 1;
    if i < n {
      FoldBound(es[..n], i);
      if es[n].key != es[i].key { assert es[..n][i] == es[i]; }
    }
  }

  lemma FoldSnoc(m: Positions, es: seq<Mark>, e: Mark)
    ensures Fold(m, es + [e]) == Fold(m, es)[e.key := e.seqno]
  {
    assert (es + [e])[..|es|] == es;
  }

  lemma LogSnoc(crc: Checksum, es: seq<Mark>, e: Mark)
    ensures LogBytes(crc, es + [e]) == LogBytes(crc, es) + MarkBytes(crc, e)
  {
    assert (es + [e])[..|es|] == es;
  }

  /** A commit past the key's position keeps the log growing. */
  lemma GrowingSnoc(es: seq<Mark>, e: Mark)
    requires Growing(es) && (e.key in Fold(map[], es) ==> Fold(map[], es)[e.key] < e.seqno)
    ensures Growing(es + [e])
  {
    hide Fold;
    forall i | 0 <= i < |es| && es[i].key == e.key ensures es[i].seqno < e.seqno {
      FoldBound(es, i);
    }
  }

  /** One record per live key, in any order: the log a compaction writes. */
  method WriteCompacted(crc: Checksum, snap: Positions) returns (tmp: Bytes, ghost es: seq<Mark>)
    requires forall k :: k in snap ==> Sized(Mark(k, snap[k]))
    ensures tmp == LogBytes(crc, es) && AllSized(es) && Growing(es) && Fold(map[], es) == snap
  {
    hide MarkBytes, LogBytes, Fold, Growing, Sized;
    tmp, es := [], [];
    EmptyLog(crc);
    var todo := snap.Keys;
    while todo != {}
      invariant todo <= snap.Keys && tmp == LogBytes(crc, es) && AllSized(es) && Growing(es)
      invariant Fold(map[], es) == map k | k in snap && k !in todo :: snap[k]
      decreases |todo|
    {
      var k :| k in todo;
      var e := Mark(k, snap[k]);
      GrowingSnoc(es, e);
      FoldSnoc(map[], es, e);
      LogSnoc(crc, es, e);
      tmp := tmp + MarkBytes(crc, e);
      es := es + [e];
      todo := todo - {k};
    }
    assert Fold(map[], es) == snap;
  }

  lemma EmptyLog(crc: Checksum)
    ensures LogBytes(crc, []) == [] && Fold(map[], []) == map[] && Growing([])
  {
  }

  /** seen is p without the keys still to do. */
  ghost predicate Except(p: Positions, todo: set<Bytes>, seen: Positions) {
    forall k :: (k in seen <==> k in p && k !in todo) && (k in seen ==> seen[k] == p[k])
  }

  lemma ExceptAll(p: Positions)
    ensures Except(p, p.Keys, map[])
  {
  }

  lemma ExceptNone(p: Positions, seen: Positions)
    requires Except(p, {}, seen)
    ensures seen == p
  {
  }

  lemma MergeStep(snap: Positions, seen: Positions, p: Positions, todo: set<Bytes>, k: Bytes)
    requires Except(p, todo, seen) && k in todo && k in p
    ensures Except(p, todo - {k}, seen[k := p[k]])
    ensures snap + seen[k := p[k]] == (snap + seen)[k := p[k]]
    ensures k in snap + seen <==> k in snap
    ensures k in snap ==> (snap + seen)[k] == snap[k]
    ensures k in snap && snap[k] == p[k] ==> snap + seen[k := p[k]] == snap + seen
  {
  }

  /** After the swap: re-appends the commits the snapshot missed. The new log stands for the
      positions exactly when no key was deleted since the snapshot. */
  method AppendMissed(crc: Checksum, tmp: Bytes, ghost es: seq<Mark>, snap: Positions, positions: Positions)
    returns (log: Bytes, ghost es': seq<Mark>)
    requires tmp == LogBytes(crc, es) && AllSized(es) && Growing(es) && Fold(map[], es) == snap
    requires forall k :: k in positions ==> Sized(Mark(k, positions[k]))
    ensures log == LogBytes(crc, es') && AllSized(es') && Fold(map[], es') == snap + positions
    ensures Grown(snap, positions) ==> Growing(es')
    ensures AllFit(es') ==> (Replay(crc, log, map[]) == positions <==> snap.Keys <= positions.Keys)
  {
    hide MarkBytes, LogBytes, Fold, Growing, Sized, Replay, Except, Fits;
    log, es' := tmp, es;
    var todo := positions.Keys;
    ghost var seen: Positions := map[];
    assert snap + seen == snap;
    ExceptAll(positions);
    while todo != {}
      invariant todo <= positions.Keys && Except(positions, todo, seen)
      invariant log == LogBytes(crc, es') && AllSized(es') && Fold(map[], es') == snap + seen
      invariant Grown(snap, positions) ==> Growing(es')
      decreases |todo|
    {
      var k :| k in todo;
      MergeStep(snap, seen, positions, todo, k);
      if k !in snap || snap[k] != positions[k] {
        var e := Mark(k, positions[k]);
        if Grown(snap, positions) { GrowingSnoc(es', e); }
        FoldSnoc(map[], es', e);
        LogSnoc(crc, es', e);
        log := log + MarkBytes(crc, e);
        es' := es' + [e];
      }
      seen := seen[k := positions[k]];
      todo := todo - {k};
    }
    ExceptNone(positions, seen);
    if AllFit(es') { ReplayLog(crc, es'); }
    MergeIff(snap, positions);
  }

  lemma MergeIff(snap: Positions, positions: Positions)
    ensures snap + positions == positions <==> snap.Keys <= positions.Keys
  {
    if snap + positions == positions {
      forall k | k in snap.Keys ensures k in positions.Keys {
        assert k in snap + positions;
      }
    }
  }

  // --- a log that does not end at a record -------------------------------

  lemma {:induction false} FoldConcat(m: Positions, a: seq<Mark>, b: seq<Mark>)
    ensures Fold(m, a + b) == Fold(Fold(m, a), b)
    decreases |b|
  {
    if b == [] {
      assert a + b == a;
    } else {
      var n := |b| - 1;
      FoldConcat(m, a, b[..n]);
      assert a + b == (a + b[..n]) + [b[n]];
      FoldSnoc(m, a + b[..n], b[n]);
    }
  }

  lemma {:induction false} LogConcat(crc: Checksum, a: seq<Mark>, b: seq<Mark>)
    ensures LogBytes(crc, a + b) == LogBytes(crc, a) + LogBytes(crc, b)
    decreases |b|
  {
    hide MarkBytes, LogBytes;
    if b == [] {
      assert a + b == a;
      EmptyLog(crc);
    } else {
      var n := |b| - 1;
      LogConcat(crc, a, b[..n]);
      assert a + b == (a + b[..n]) + [b[n]] && b == b[..n] + [b[n]];
      LogSnoc(crc, a + b[..n], b[n]);
      LogSnoc(crc, b[..n], b[n]);
    }
  }

  lemma LogFront(crc: Checksum, es: seq<Mark>)
    requires es != []
    ensures LogBytes(crc, es) == MarkBytes(crc, es[0]) + LogBytes(crc, es[1..])
  {
    hide MarkBytes, LogBytes;
    var none: seq<Mark> := [];
    assert es == [es[0]] + es[1..] && none + [es[0]] == [es[0]];
    LogConcat(crc, [es[0]], es[1..]);
    LogSnoc(crc, none, es[0]);
    EmptyLog(crc);
    assert LogBytes(crc, none) + MarkBytes(crc, es[0]) == MarkBytes(crc, es[0]);
  }

  /** Every commit of es moved its key on, starting from p. */
  ghost predicate Rises(p: Positions, es: seq<Mark>) {
    forall i :: 0 <= i < |es| ==> Moves(Fold(p, es[..i]), es[i])
  }

  predicate Moves(p: Positions, m: Mark) {
    m.key in p ==> p[m.key] < m.seqno
  }

  lemma RisesSnoc(p: Positions, es: seq<Mark>, m: Mark)
    requires Rises(p, es) && Moves(Fold(p, es), m)
    ensures Rises(p, es + [m])
  {
    hide Fold, Moves;
    forall i | 0 <= i < |es| + 1 ensures Moves(Fold(p, (es + [m])[..i]), (es + [m])[i]) {
      if i < |es| { assert (es + [m])[..i] == es[..i]; } else { assert (es + [m])[..i] == es; }
    }
  }

  lemma {:induction false} RisesGrown(p: Positions, es: seq<Mark>, c: nat)
    requires Rises(p, es) && c <= |es|
    ensures Grown(Fold(p, es[..c]), Fold(p, es))
    decreases |es| - c
  {
    if c == |es| {
      assert es[..c] == es;
    } else {
      RisesGrown(p, es, c + 1);
      assert Moves(Fold(p, es[..c]), es[c]);
      assert es[..c + 1][..c] == es[..c];
    }
  }

  /** So commits that all count leave other positions than before. */
  lemma RisesMoves(p: Positions, es: seq<Mark>)
    requires Rises(p, es) && es != []
    ensures Grown(p, Fold(p, es)) && Fold(p, es) != p
  {
    RisesGrown(p, es, 0);
    RisesGrown(p, es, 1);
    assert es[..0] == [] && es[..1][..0] == [];
    assert Moves(Fold(p, es[..0]), es[0]);
    assert es[0].key in Fold(p, es[..1]);
  }

  /** What the loader makes of a log, some bytes it cannot read, and commits after them: the commits
      are lost, unless those bytes pass for a record by accident. */
  lemma LoadStops(crc: Checksum, lead: seq<Mark>, junk: Bytes, late: seq<Mark>)
    requires AllFit(lead) && AllSized(late) && Parse(crc, junk) == Stop
    requires junk == [] && late != [] ==> !Fits(late[0])
    requires junk != [] ==> !Passes(crc, junk + LogBytes(crc, late))
    ensures Parse(crc, junk + LogBytes(crc, late)) == Stop
    ensures Replay(crc, LogBytes(crc, lead) + (junk + LogBytes(crc, late)), map[]) == Fold(map[], lead)
  {
    hide Parse, LogBytes, Passes, MarkBytes;
    var tail := junk + LogBytes(crc, late);
    if junk != [] {
      StopsUnlessPasses(crc, tail);
    } else if late == [] {
      EmptyLog(crc);
    } else {
      LogFront(crc, late);
      assert tail == LogBytes(crc, late);
      ParseRecord(crc, late[0], LogBytes(crc, late[1..]));
    }
    ReplayAfter(crc, lead, tail, map[]);
  }

  /** A crash past what a load reads leaves nothing more to read. */
  lemma CrashPastLead(crc: Checksum, lead: seq<Mark>, tail: Bytes, disk: Bytes)
    requires AllFit(lead) && Parse(crc, tail) == Stop
    requires disk <= LogBytes(crc, lead) + tail && !(disk <= LogBytes(crc, lead))
    ensures Replay(crc, disk, map[]) == Fold(map[], lead)
  {
    hide Parse, LogBytes, Fold;
    var n := |LogBytes(crc, lead)|;
    var rest := disk[n..];
    assert disk == LogBytes(crc, lead) + rest && rest <= tail;
    if Parse(crc, rest).Next? { ParseLonger(crc, rest, tail); }
    ReplayAfter(crc, lead, rest, map[]);
  }

  /** The reopened store: after a log cut at any byte, so that t of the next record is left in the
      file, the commits made since are read back by the next load if and only if nothing was left. */
  lemma ReopenedIff(crc: Checksum, lead: seq<Mark>, m0: Mark, t: Bytes, late: seq<Mark>)
    requires AllFit(lead) && Fits(m0) && t < MarkBytes(crc, m0)
    requires AllFit(late) && late != [] && Rises(Fold(map[], lead), late)
    requires t != [] ==> !Passes(crc, t + LogBytes(crc, late))
    ensures Replay(crc, LogBytes(crc, lead) + (t + LogBytes(crc, late)), map[]) == Fold(Fold(map[], lead), late) <==>
      t == []
  {
    hide Parse, LogBytes, Passes, MarkBytes, Rises, Fold, Fits;
    TornRecord(crc, m0, t);
    RisesMoves(Fold(map[], lead), late);
    if t == [] {
      assert t + LogBytes(crc, late) == LogBytes(crc, late);
      ReplayAfter(crc, lead, LogBytes(crc, late), map[]);
      ReplayAfter(crc, late, [], Fold(map[], lead));
      assert LogBytes(crc, late) + [] == LogBytes(crc, late);
      NothingToParse(crc);
    } else {
      AllSizedToo(late);
      LoadStops(crc, lead, t, late);
    }
  }

  lemma AllSizedToo(es: seq<Mark>)
    requires AllFit(es)
    ensures AllSized(es)
  {
  }

  /** The accident, where the torn record kept its header: other bytes with its checksum. */
  lemma AccidentCollides(crc: Checksum, m0: Mark, t: Bytes, rest: Bytes)
    requires Fits(m0) && t < MarkBytes(crc, m0) && |t| >= MARK_HEADER && Passes(crc, t + rest)
    ensures |t + rest| >= |MarkBytes(crc, m0)|
    ensures crc((t + rest)[MARK_HEADER..|MarkBytes(crc, m0)|]) == crc(MarkBody(m0))
  {
    hide LE, FromLE, MarkBody;
    BodyFields(m0);
    HeaderFields(crc, MarkBody(m0), []);
    var b := MarkBytes(crc, m0);
    assert b + [] == b;
    assert (t + rest)[4..8] == t[4..8] == b[4..8] && (t + rest)[..4] == t[..4] == b[..4];
  }

  /** One stray byte before one commit is never an accident, whatever the checksum. */
  lemma StrayByteNeverPasses(crc: Checksum, x: byte, m: Mark)
    requires Fits(m)
    ensures !Passes(crc, [x] + MarkBytes(crc, m))
  {
    hide LE, FromLE, MarkBody;
    BodyFields(m);
    var n := |MarkBody(m)|;
    var b := [x] + MarkBytes(crc, m);
    var first := LE(crc(MarkBody(m)), 4)[3];
    assert b[4..8] == [first] + LE(n, 4)[..3];
    ShiftedLength(first, n);
  }

  /** Read one byte early, a length field means at least 256 times as much. */
  lemma ShiftedLength(first: byte, n: nat)
    requires n < 0x100_0000
    ensures FromLE([first] + LE(n, 4)[..3]) >= 256 * n
  {
    var three := LE(n, 4)[..3];
    assert ([first] + three)[1..] == three;
    assert three == LE(n, 3) by {
      assert LE(n / 256 / 256, 2) == [n / 256 / 256 % 256] + LE(n / 256 / 256 / 256, 1);
    }
    assert Pow256(3) == 0x100_0000 by { assert Pow256(1) == 256 && Pow256(2) == 256 * Pow256(1); }
    LERoundTrip(n, 3);
  }

  /** A failing input: a stray byte after any log hides the next commit. */
  lemma TornTailHidesCommit(crc: Checksum, es: seq<Mark>, x: byte, m: Mark)
    requires AllFit(es) && Fits(m)
    ensures Replay(crc, LogBytes(crc, es) + ([x] + MarkBytes(crc, m)), map[]) == Fold(map[], es)
  {
    hide Parse, LogBytes, Passes, MarkBytes, Fold;
    var tail := [x] + MarkBytes(crc, m);
    StrayByteNeverPasses(crc, x, m);
    StopsUnlessPasses(crc, tail);
    ReplayAfter(crc, es, tail, map[]);
  }

  // --- loading -----------------------------------------------------------

  /** Replays a log, stopping at the first record that is torn or corrupt: `lead` is what it read,
      `junk` what it left. */
  method Load(crc: Checksum, disk: Bytes) returns (m: Positions, ghost lead: seq<Mark>, ghost junk: Bytes)
    ensures m == Replay(crc, disk, map[]) == Fold(map[], lead)
    ensures AllFit(lead) && disk == LogBytes(crc, lead) + junk && Parse(crc, junk) == Stop
  {
    hide Parse, LogBytes, Fold, MarkBytes, Fits;
    m, lead := map[], [];
    var rest := disk;
    EmptyLog(crc);
    while true
      invariant Replay(crc, rest, m) == Replay(crc, disk, map[])
      invariant m == Fold(map[], lead) && AllFit(lead) && disk == LogBytes(crc, lead) + rest
      decreases |rest|
    {
      var p := Parse(crc, rest);
      if p.Stop? { junk := rest; return; }
      ParsedBytes(crc, rest);
      FoldSnoc(map[], lead, p.mark);
      LogSnoc(crc, lead, p.mark);
      assert rest == rest[..p.size] + rest[p.size..];
      m := m[p.mark.key := p.mark.seqno];
      lead := lead + [p.mark];
      rest := rest[p.size..];
    }
  }

  /** Loading any part of a log reads the first of its commits. */
  lemma {:induction false} LoadedIsPrefix(crc: Checksum, was: seq<Mark>, lead: seq<Mark>, junk: Bytes)
    requires AllFit(was) && AllFit(lead) && LogBytes(crc, lead) + junk <= LogBytes(crc, was)
    ensures lead <= was
    decreases |lead|
  {
    hide Parse, LogBytes, MarkBytes, Fits;
    if lead != [] {
      var n := |lead| - 1;
      var last := MarkBytes(crc, lead[n]);
      LogSnoc(crc, lead[..n], lead[n]);
      assert lead == lead[..n] + [lead[n]];
      assert LogBytes(crc, lead) + junk == LogBytes(crc, lead[..n]) + (last + junk);
      LoadedIsPrefix(crc, was, lead[..n], last + junk);
      assert was == was[..n] + was[n..] && was[..n] == lead[..n];
      LogConcat(crc, was[..n], was[n..]);
      PrefixCancel(LogBytes(crc, lead[..n]), last + junk, LogBytes(crc, was[n..]));
      NextMark(crc, lead[n], junk, was[n..]);
    }
  }

  lemma WholeLoad(crc: Checksum, was: seq<Mark>, lead: seq<Mark>, junk: Bytes)
    requires AllFit(was) && lead <= was && LogBytes(crc, lead) + junk == LogBytes(crc, was) && Parse(crc, junk) == Stop
    ensures lead == was && junk == []
  {
    hide Parse, LogBytes, MarkBytes;
    var rest := was[|lead|..];
    assert was == lead + rest;
    LogConcat(crc, lead, rest);
    PrefixCancel(LogBytes(crc, lead), junk, LogBytes(crc, rest));
    PrefixCancel(LogBytes(crc, lead), LogBytes(crc, rest), junk);
    assert junk == LogBytes(crc, rest);
    EmptyLog(crc);
    if rest != [] {
      assert Fits(rest[0]);
      LogFront(crc, rest);
      ParseRecord(crc, rest[0], LogBytes(crc, rest[1..]));
    }
  }

  lemma PrefixCancel(a: Bytes, x: Bytes, b: Bytes)
    requires a + x <= a + b
    ensures x <= b
  {
    assert |x| <= |b|;
    forall i | 0 <= i < |x| ensures x[i] == b[i] {
      assert (a + x)[|a| + i] == (a + b)[|a| + i];
    }
  }

  lemma NextMark(crc: Checksum, m: Mark, junk: Bytes, was: seq<Mark>)
    requires Fits(m) && AllFit(was) && MarkBytes(crc, m) + junk <= LogBytes(crc, was)
    ensures was != [] && was[0] == m
  {
    hide Parse, LogBytes, MarkBytes;
    EmptyLog(crc);
    ParseRecord(crc, m, junk);
    ParseLonger(crc, MarkBytes(crc, m) + junk, LogBytes(crc, was));
    assert |LogBytes(crc, was)| > 0;
    if was != [] {
      LogFront(crc, was);
      ParseRecord(crc, was[0], LogBytes(crc, was[1..]));
      assert Fits(was[0]);
    }
  }

  // --- compacted logs ----------------------------------------------------

  /** How many of the first commits a load would read. */
  function FitCount(es: seq<Mark>): (c: nat)
    ensures c <= |es| && AllFit(es[..c]) && (c < |es| ==> !Fits(es[c]))
  {
    if es == [] || !Fits(es[0]) then 0 else 1 + FitCount(es[1..])
  }

  lemma {:induction false} FoldHasKey(m: Positions, es: seq<Mark>, i: nat)
    requires i < |es|
    ensures es[i].key in Fold(m, es)
    decreases |es|
  {
    var n := |es| - 1;
    if i < n { FoldHasKey(m, es[..n], i); }
  }

  /** A log of one growing run splits into one, wherever it is cut. */
  lemma GrowingSplits(es: seq<Mark>, c: nat)
    requires Growing(es) && c <= |es|
    ensures Growing(es[..c]) && Rises(Fold(map[], es[..c]), es[c..])
    ensures Fold(Fold(map[], es[..c]), es[c..]) == Fold(map[], es)
  {
    hide Fold;
    assert es == es[..c] + es[c..];
    FoldConcat(map[], es[..c], es[c..]);
    forall i | 0 <= i < |es| - c ensures Moves(Fold(Fold(map[], es[..c]), es[c..][..i]), es[c..][i]) {
      FoldConcat(map[], es[..c], es[c..][..i]);
      assert es[..c] + es[c..][..i] == es[..c + i];
      LastMoves(es, c + i);
    }
  }

  lemma LastMoves(es: seq<Mark>, i: nat)
    requires Growing(es) && i < |es|
    ensures Moves(Fold(map[], es[..i]), es[i])
  {
    hide Fold;
    if es[i].key in Fold(map[], es[..i]) {
      var j := FoldCommitted(es[..i], es[i].key);
      assert es[..i][j] == es[j];
    }
  }

  // --- the store ---------------------------------------------------------

  /** One commit: a position at or below the stored one is ignored. */
  function CommitOne(p: Positions, m: Mark): Positions {
    if m.key in p && m.seqno <= p[m.key] then p else p[m.key := m.seqno]
  }

  function CommitAll(p: Positions, ms: seq<Mark>): Positions {
    if ms == [] then p else CommitOne(CommitAll(p, ms[..|ms| - 1]), ms[|ms| - 1])
  }

  /** k stands at v exactly because a commit or the start says so, and none says more. */
  ghost predicate Highest(p: Positions, ms: seq<Mark>, k: Bytes, v: nat) {
    && ((k in p && p[k] == v) || Mark(k, v) in ms) && (k in p ==> p[k] <= v)
    && forall i :: 0 <= i < |ms| && ms[i].key == k ==> ms[i].seqno <= v
  }

  /** After any commits, in any order, each key stands at the highest sequence committed for it. */
  lemma {:induction false} CommitsKeepHighest(p: Positions, ms: seq<Mark>, k: Bytes)
    ensures k in CommitAll(p, ms) <==> k in p || exists i :: 0 <= i < |ms| && ms[i].key == k
    ensures k in CommitAll(p, ms) ==> Highest(p, ms, k, CommitAll(p, ms)[k])
    decreases |ms|
  {
    if ms != [] {
      var n := |ms| - 1;
      assert ms == ms[..n] + [ms[n]];
      CommitsKeepHighest(p, ms[..n], k);
      if i :| 0 <= i < n && ms[..n][i].key == k { assert ms[i].key == k; }
    }
  }

  /** The file is the commits a load reads, bytes it cannot read, and commits it does not get to. */
  ghost predicate Filed(crc: Checksum, file: Bytes, lead: seq<Mark>, junk: Bytes, late: seq<Mark>) {
    && AllFit(lead) && AllSized(late) && Parse(crc, junk) == Stop
    && (junk == [] && late != [] ==> !Fits(late[0]))
    && file == LogBytes(crc, lead) + (junk + LogBytes(crc, late))
  }

  /** The positions are what all those commits amount to, without the deleted keys. */
  ghost predicate Summed(positions: Positions, lead: seq<Mark>, late: seq<Mark>, gone: set<Bytes>) {
    var written := Fold(Fold(map[], lead), late);
    gone <= written.Keys && positions == written - gone
  }

  lemma NothingLate(lead: seq<Mark>, positions: Positions)
    requires positions == Fold(map[], lead)
    ensures Summed(positions, lead, [], {})
  {
  }

  lemma FilesLead(crc: Checksum, file: Bytes, lead: seq<Mark>, e: Mark)
    requires Filed(crc, file, lead, [], []) && Fits(e)
    ensures Filed(crc, file + MarkBytes(crc, e), lead + [e], [], [])
  {
    hide Parse, MarkBytes, LogBytes, Fits;
    EmptyLog(crc);
    LogSnoc(crc, lead, e);
    assert LogBytes(crc, lead) + ([] + LogBytes(crc, [])) == LogBytes(crc, lead);
    var none: Bytes := [];
    assert LogBytes(crc, lead + [e]) + (none + LogBytes(crc, [])) == file + MarkBytes(crc, e);
  }

  lemma FilesLate(crc: Checksum, file: Bytes, lead: seq<Mark>, junk: Bytes, late: seq<Mark>, e: Mark)
    requires Filed(crc, file, lead, junk, late) && Sized(e) && (junk == [] && late == [] ==> !Fits(e))
    ensures Filed(crc, file + MarkBytes(crc, e), lead, junk, late + [e])
  {
    hide Parse, MarkBytes, LogBytes, Fits, Sized;
    LogSnoc(crc, late, e);
    assert file + MarkBytes(crc, e) == LogBytes(crc, lead) + (junk + (LogBytes(crc, late) + MarkBytes(crc, e)));
  }

  /** A commit that counts, filed either way. */
  lemma SumsCommit(positions: Positions, lead: seq<Mark>, late: seq<Mark>, gone: set<Bytes>, e: Mark)
    requires Summed(positions, lead, late, gone) && Moves(positions, e)
    ensures Summed(positions[e.key := e.seqno], lead, late + [e], gone - {e.key})
    ensures gone == {} && Rises(Fold(map[], lead), late) ==> Rises(Fold(map[], lead), late + [e])
    ensures late == [] ==> Summed(positions[e.key := e.seqno], lead + [e], late, gone - {e.key})
    ensures late == [] && gone == {} && Growing(lead) ==> Growing(lead + [e])
    ensures late == [] ==> Rises(Fold(map[], lead + [e]), late)
  {
    hide Fold, Rises, Growing;
    var written := Fold(Fold(map[], lead), late);
    FoldSnoc(Fold(map[], lead), late, e);
    assert (written - gone)[e.key := e.seqno] == written[e.key := e.seqno] - (gone - {e.key});
    NothingRises(Fold(map[], lead + [e]));
    if gone == {} {
      assert positions == written;
      if Rises(Fold(map[], lead), late) { RisesSnoc(Fold(map[], lead), late, e); }
    }
    if late == [] {
      NoCommits(Fold(map[], lead));
      NoCommits(Fold(map[], lead + [e]));
      FoldSnoc(map[], lead, e);
      if gone == {} && Growing(lead) { GrowingSnoc(lead, e); }
    }
  }

  lemma NothingRises(p: Positions)
    ensures Rises(p, [])
  {
  }

  lemma NoCommits(p: Positions)
    ensures Fold(p, []) == p
  {
  }

  class CursorStore {
    const crc: Checksum
    const compactBytes: int
    var positions: Positions
    var file: Bytes
    var closed: bool
    // The file is the commits a load reads, bytes the last load could not read, and commits a load
    // does not get to; `gone` are deleted keys still in it.
    ghost var lead: seq<Mark>
    ghost var junk: Bytes
    ghost var late: seq<Mark>
    ghost var gone: set<Bytes>

    ghost predicate Valid()
      reads this
    {
      Filed(crc, file, lead, junk, late) && Summed(positions, lead, late, gone)
    }

    /** Nothing is deleted, and every commit since the last load moved its key on. */
    ghost predicate Orderly()
      reads this
    {
      gone == {} && Rises(Fold(map[], lead), late)
    }

    /** Valid, and no key ever went back. */
    ghost predicate Steady()
      reads this
    {
      Valid() && Orderly() && Growing(lead)
    }

    /** The unread bytes, with what follows them, pass for a record. */
    ghost predicate Accident()
      reads this
    {
      junk != [] && Passes(crc, junk + LogBytes(crc, late))
    }

    /** Opens any file at all. Unread bytes stay in it, and commits go after them. */
    constructor (crc: Checksum, compactBytes: int, disk: Bytes, ghost was: seq<Mark>)
      ensures Valid() && Orderly() && !closed && this.crc == crc && file == disk && late == []
      ensures positions == Replay(crc, disk, map[])
      ensures AllFit(was) && Growing(was) && disk <= LogBytes(crc, was) ==> Steady() && lead <= was
      ensures AllFit(was) && disk == LogBytes(crc, was) ==> lead == was && junk == []
    {
      hide *;
      this.crc, this.compactBytes, file, closed := crc, compactBytes, disk, false;
      var m;
      ghost var read, left;
      m, read, left := Load(crc, disk);
      positions := m;
      lead, junk, late, gone := read, left, [], {};
      new;
      Loaded(disk, was);
    }

    lemma Loaded(disk: Bytes, was: seq<Mark>)
      requires file == disk && AllFit(lead) && disk == LogBytes(crc, lead) + junk && Parse(crc, junk) == Stop
      requires positions == Fold(map[], lead) && late == [] && gone == {}
      ensures Valid() && Orderly()
      ensures AllFit(was) && Growing(was) && disk <= LogBytes(crc, was) ==> Steady() && lead <= was
      ensures AllFit(was) && disk == LogBytes(crc, was) ==> lead == was && junk == []
    {
      hide Parse, MarkBytes, Fits;
      EmptyLog(crc);
      assert junk + LogBytes(crc, late) == junk;
      NothingLate(lead, positions);
      if AllFit(was) && disk <= LogBytes(crc, was) {
        LoadedIsPrefix(crc, was, lead, junk);
        if disk == LogBytes(crc, was) { WholeLoad(crc, was, lead, junk); }
      }
    }

    /** Commits are monotonic: a position at or below the stored one is ignored. A commit that is
        written is read back only after a whole log and with a key the loader takes. */
    method Commit(key: Bytes, seqno: nat) returns (ok: bool, needCompact: bool)
      requires Valid() && Sized(Mark(key, seqno))
      modifies this
      ensures Valid() && closed == old(closed) && ok == !closed && junk == old(junk)
      ensures positions == if closed then old(positions) else CommitOne(old(positions), Mark(key, seqno))
      ensures Grown(old(positions), positions) && old(file) <= file
      ensures !closed ==> key in positions && positions[key] >= seqno
      ensures positions - {key} == old(positions) - {key}
      ensures needCompact == (positions != old(positions) && |file| > compactBytes)
      ensures old(Orderly()) ==> Orderly()
      ensures old(Steady()) ==> Steady()
      ensures late == [] <==> old(late) == [] && (positions == old(positions) || (junk == [] && Fits(Mark(key, seqno))))
    {
      hide Fits, Sized, LogBytes, Fold, Growing, MarkBytes, Rises, Parse;
      if closed { return false, false; }
      if key in positions && seqno <= positions[key] { return true, false; }
      var e := Mark(key, seqno);
      SumsCommit(positions, lead, late, gone, e);
      if junk == [] && late == [] && Fits(e) {
        FilesLead(crc, file, lead, e);
        lead := lead + [e];
      } else {
        FilesLate(crc, file, lead, junk, late, e);
        late := late + [e];
      }
      positions := positions[key := seqno];
      file := file + MarkBytes(crc, e);
      gone := gone - {key};
      return true, |file| > compactBytes;
    }

    /** The next load gives the positions if and only if no commit since the last one went where it
        does not get: after unread bytes, or after a key it does not take. */
    lemma ReloadIff()
      requires Valid() && Orderly() && !Accident()
      ensures Replay(crc, file, map[]) == positions <==> late == []
    {
      hide Fits, Sized, LogBytes, Fold, MarkBytes, Rises, Parse, Passes;
      LoadStops(crc, lead, junk, late);
      NoCommits(Fold(map[], lead));
      if late != [] { RisesMoves(Fold(map[], lead), late); }
    }

    /** A deleted key is back after the next load exactly until a compaction drops it from the file. */
    lemma DeletedReloadIff()
      requires Valid() && late == []
      ensures Replay(crc, file, map[]) == positions <==> gone == {}
    {
      hide Fits, Sized, LogBytes, Fold, MarkBytes, Parse;
      EmptyLog(crc);
      NoCommits(Fold(map[], lead));
      assert junk + LogBytes(crc, late) == junk;
      ReplayAfter(crc, lead, junk, map[]);
      if gone != {} {
        var k :| k in gone;
        assert k in Fold(map[], lead) && k !in positions;
      }
    }

    /** Whatever prefix of the file a crash leaves, every cursor loaded from it is the committed one or
        an older one. */
    lemma CrashOlder(disk: Bytes)
      requires Steady() && !Accident() && disk <= file
      ensures Grown(Replay(crc, disk, map[]), positions)
    {
      hide Fits, Sized, LogBytes, Fold, MarkBytes, Rises, Parse, Passes, Growing, Replay;
      LoadStops(crc, lead, junk, late);
      RisesGrown(Fold(map[], lead), late, 0);
      assert late[..0] == [];
      NoCommits(Fold(map[], lead));
      if disk <= LogBytes(crc, lead) {
        CrashKeepsOlderCursors(crc, lead, disk);
      } else {
        CrashPastLead(crc, lead, junk + LogBytes(crc, late), disk);
      }
    }

    function Position(key: Bytes, def: nat): nat
      reads this
    {
      if key in positions then positions[key] else def
    }

    lemma PositionsSized()
      requires Valid()
      ensures forall k :: k in positions ==> Sized(Mark(k, positions[k]))
    {
      hide Sized, Fold, LogBytes, Parse;
      FoldConcat(map[], lead, late);
      AllSizedToo(lead);
      forall k | k in positions ensures Sized(Mark(k, positions[k])) {
        var i := FoldCommitted(lead + late, k);
        assert Sized((lead + late)[i]);
      }
    }

    /** The first half of a deletion: the key leaves the positions, not yet the file. */
    method Forget(key: Bytes)
      requires Valid()
      modifies this`positions, this`gone
      ensures Valid() && positions == old(positions) - {key}
      ensures gone == old(gone) + (if key in old(positions) then {key} else {})
    {
      hide LogBytes, Fold, Parse;
      if key in positions { gone := gone + {key}; }
      positions := positions - {key};
    }

    /** The locked end of a compaction whose snapshot was taken earlier: commits and deletions may have
        landed since. Commits survive; a key deleted since is back in the file. */
    method Swap(snap: Positions, tmp: Bytes, ghost marks: seq<Mark>) returns (ok: bool)
      requires Valid() && tmp == LogBytes(crc, marks) && AllSized(marks) && Growing(marks) && Fold(map[], marks) == snap
      modifies this`file, this`lead, this`junk, this`late, this`gone
      ensures Valid() && ok == !closed && (!ok ==> file == old(file))
      ensures ok ==> junk == [] && gone == snap.Keys - positions.Keys
      ensures ok && Grown(snap, positions) ==> Steady()
      ensures ok ==> (late == [] <==> forall k :: k in snap.Keys + positions.Keys ==> |k| <= MAX_KEY)
    {
      hide Fits, Sized, LogBytes, Fold, Growing, MarkBytes, AllSized, Rises, Parse;
      if closed { return false; }
      PositionsSized();
      var log;
      ghost var es;
      log, es := AppendMissed(crc, tmp, marks, snap, positions);
      ghost var c := FitCount(es);
      Compacted(crc, log, es, c, snap, positions);
      file, lead, junk, late, gone := log, es[..c], [], es[c..], snap.Keys - positions.Keys;
      return true;
    }

    /** Commits of other callers, one after the other. */
    method CommitEach(ms: seq<Mark>)
      requires Valid() && !closed && AllSized(ms)
      modifies this
      ensures Valid() && !closed && positions == CommitAll(old(positions), ms) && Grown(old(positions), positions)
    {
      hide Sized, LogBytes, Fold, Growing, Rises, Parse, CommitOne, Filed, Summed;
      assert ms[..0] == [];
      for i := 0 to |ms|
        invariant Valid() && !closed && positions == CommitAll(old(positions), ms[..i])
        invariant Grown(old(positions), positions)
      {
        assert ms[..i + 1][..i] == ms[..i];
        var ok, more := Commit(ms[i].key, ms[i].seqno);
      }
      assert ms[..|ms|] == ms;
    }

    /** A whole compaction, with any commits landing between the snapshot and the swap. */
    method Compact(during: seq<Mark>) returns (ok: bool)
      requires Valid() && AllSized(during)
      modifies this
      ensures Valid() && ok == !old(closed) && closed == old(closed)
      ensures positions == if ok then CommitAll(old(positions), during) else old(positions)
      ensures ok ==> Steady() && junk == [] && (late == [] <==> forall k :: k in positions ==> |k| <= MAX_KEY)
      ensures ok && late == [] ==> Replay(crc, file, map[]) == positions
    {
      hide Sized, LogBytes, Fold, Growing, MarkBytes, AllSized, Rises, Parse, Filed, Summed, Replay, CommitAll;
      if closed { return false; }
      var snap := positions;
      PositionsSized();
      var tmp;
      ghost var marks;
      tmp, marks := WriteCompacted(crc, snap);
      CommitEach(during);
      ok := Swap(snap, tmp, marks);
      assert snap.Keys + positions.Keys == positions.Keys;
      if late == [] { ReloadIff(); }
    }

    /** A deletion cannot be appended, so it forces a compaction. Commits may land before its snapshot
        and between snapshot and swap, of the deleted key too. */
    method Delete(key: Bytes, before: seq<Mark>, during: seq<Mark>) returns (ok: bool)
      requires Valid() && AllSized(before) && AllSized(during)
      modifies this
      ensures Valid() && ok == !old(closed) && closed == old(closed)
      ensures positions == if !ok then old(positions)
                           else if key !in old(positions) then old(positions)
                           else CommitAll(CommitAll(old(positions) - {key}, before), during)
      ensures ok && key in old(positions) ==> Steady() && (late == [] ==> Replay(crc, file, map[]) == positions)
    {
      hide Sized, LogBytes, Fold, Growing, MarkBytes, AllSized, Rises, Parse, Filed, Summed, Replay, CommitAll;
      if closed { return false; }
      if key !in positions { return true; }
      Forget(key);
      CommitEach(before);
      ok := Compact(during);
    }
  }

  /** The compacted log, cut where a load would stop. */
  lemma Compacted(crc: Checksum, log: Bytes, es: seq<Mark>, c: nat, snap: Positions, positions: Positions)
    requires log == LogBytes(crc, es) && AllSized(es) && Fold(map[], es) == snap + positions && c == FitCount(es)
    ensures Filed(crc, log, es[..c], [], es[c..]) && Summed(positions, es[..c], es[c..], snap.Keys - positions.Keys)
    ensures Growing(es) && snap.Keys <= positions.Keys ==>
      Rises(Fold(map[], es[..c]), es[c..]) && Growing(es[..c]) && snap.Keys - positions.Keys == {}
    ensures es[c..] == [] <==> forall k :: k in snap.Keys + positions.Keys ==> |k| <= MAX_KEY
  {
    hide LogBytes, Fold, Growing, MarkBytes, Rises, Parse, Filed, Summed, AllSized, FitCount;
    CutFiled(crc, log, es, c);
    CutSummed(es, c, snap, positions);
    if Growing(es) { GrowingSplits(es, c); }
    KeysFit(es, c, snap + positions);
    assert (snap + positions).Keys == snap.Keys + positions.Keys;
  }

  lemma CutFiled(crc: Checksum, log: Bytes, es: seq<Mark>, c: nat)
    requires log == LogBytes(crc, es) && AllSized(es) && c == FitCount(es)
    ensures Filed(crc, log, es[..c], [], es[c..])
  {
    hide LogBytes, MarkBytes, Parse, Fits, Sized;
    assert es == es[..c] + es[c..];
    LogConcat(crc, es[..c], es[c..]);
    NothingToParse(crc);
    var none: Bytes := [];
    assert none + LogBytes(crc, es[c..]) == LogBytes(crc, es[c..]);
  }

  lemma CutSummed(es: seq<Mark>, c: nat, snap: Positions, positions: Positions)
    requires Fold(map[], es) == snap + positions && c <= |es|
    ensures Summed(positions, es[..c], es[c..], snap.Keys - positions.Keys)
  {
    hide Fold;
    assert es == es[..c] + es[c..];
    FoldConcat(map[], es[..c], es[c..]);
    assert (snap + positions) - (snap.Keys - positions.Keys) == positions;
  }

  lemma KeysFit(es: seq<Mark>, c: nat, p: Positions)
    requires Fold(map[], es) == p && c == FitCount(es) && AllSized(es)
    ensures es[c..] == [] <==> forall k :: k in p ==> |k| <= MAX_KEY
  {
    hide Fold, FitCount;
    if c < |es| {
      FoldHasKey(map[], es, c);
      assert Sized(es[c]);
    } else {
      forall k | k in p ensures |k| <= MAX_KEY {
        var i := FoldCommitted(es, k);
        assert Fits(es[..c][i]);
      }
    }
  }
}
