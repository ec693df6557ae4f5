/** Work-queue semantics over one partition: leases, redelivery, dead-lettering, one committed cursor. */
module Share {
  import opened Records
  import opened Codec
  import opened Cursors
  import opened SeqHeaps
  import opened Windows
  import PA = Partitions

  datatype Delivery = Delivery(seqno: nat, rec: Record, count: nat, consumer: string, deadline: int)

  datatype Answer = Fine | ShareClosed | UnknownDelivery | NotHolder | CommitFailed | LogFailed

  /** How one read of the log ended. */
  datatype Turn = Broken | Skipped | Drained | Admitted

  const DEFAULT_ACK_TIMEOUT := 30_000_000_000
  const DEFAULT_MAX_DELIVERY := 5
  const DEFAULT_MAX_IN_FLIGHT := 1000
  const READ_BUDGET := 4 * 1024 * 1024

  predicate Expired(e: Entry, now: int) {
    e.status == Acquired && now >= e.deadline
  }

  lemma Shape(w: Window, d: nat, f: nat)
    requires Ok(w, d, f)
    ensures w.base <= w.next && w.next - w.base <= f && w.next !in w.entries
    ensures forall s :: s in w.entries ==> w.base <= s < w.next
    ensures forall s :: s in w.retired ==> w.base <= s < w.next && s !in w.entries
  {
  }

  /** An expired lease that goes to the dead-letter route. */
  predicate DeadNow(e: Entry, now: int, max: nat, routed: bool) {
    Expired(e, now) && e.count >= max && routed
  }

  /** What reaping leaves of an entry: gone, freed, or as it was. */
  function AfterReap(e: Entry, now: int): Entry {
    if Expired(e, now) then Freed(e) else e
  }

  /** cur is was with every lease outside todo reaped. */
  ghost predicate Reaping(was: map<nat, Entry>, cur: map<nat, Entry>, todo: set<nat>, now: int, max: nat,
                          routes: nat -> bool) {
    && (forall s: nat :: s in todo ==> s in was && s in cur && cur[s] == was[s])
    && (forall s: nat :: s !in todo && s in was && !DeadNow(was[s], now, max, routes(s)) ==>
          s in cur && cur[s] == AfterReap(was[s], now))
    && (forall s: nat :: s !in todo && s in cur ==> s in was && !DeadNow(was[s], now, max, routes(s)))
  }

  lemma ReapNone(was: map<nat, Entry>, now: int, max: nat, routes: nat -> bool)
    ensures Reaping(was, was, was.Keys, now, max, routes)
  {
  }

  lemma ReapOne(was: map<nat, Entry>, cur: map<nat, Entry>, todo: set<nat>, now: int, max: nat, routes: nat -> bool,
                s: nat)
    requires Reaping(was, cur, todo, now, max, routes) && s in todo
    ensures s in cur
    ensures !Expired(cur[s], now) ==> Reaping(was, cur, todo - {s}, now, max, routes)
    ensures Expired(cur[s], now) && cur[s].count >= max && routes(s) ==>
      Reaping(was, cur - {s}, todo - {s}, now, max, routes)
    ensures Expired(cur[s], now) && !(cur[s].count >= max && routes(s)) ==>
      Reaping(was, cur[s := Freed(cur[s])], todo - {s}, now, max, routes)
  {
  }

  /** Which leases a reap ends, told by status, deadline and count: one whose deadline has not passed stays as it is; a
      passed one is gone where it is at its limit and the dead-letter route works, and available again otherwise. */
  ghost predicate LeasesEnded(was: map<nat, Entry>, cur: map<nat, Entry>, now: int, max: nat, routes: nat -> bool) {
    && (forall s :: s in cur ==> s in was)
    && forall s :: s in was ==>
      if was[s].status == Acquired && now >= was[s].deadline then
        if was[s].count >= max && routes(s) then s !in cur
        else s in cur && cur[s] == was[s].(status := Available, holder := "", deadline := 0)
      else s in cur && cur[s] == was[s]
  }

  lemma ReapedLeases(was: map<nat, Entry>, cur: map<nat, Entry>, now: int, max: nat, routes: nat -> bool)
    requires Reaping(was, cur, {}, now, max, routes)
    ensures LeasesEnded(was, cur, now, max, routes)
  {
  }

  /** v is w with the base moved past retired sequences only. */
  ghost predicate Sliding(w: Window, v: Window) {
    && v == w.(base := v.base, retired := v.retired) && w.base <= v.base
    && (forall s: nat :: w.base <= s < v.base ==> s in w.retired)
    && (forall s: nat :: s in v.retired <==> s in w.retired && s >= v.base)
  }

  /** ... and as far as they go without a gap. */
  ghost predicate SlidTo(w: Window, v: Window) {
    Sliding(w, v) && v.base !in w.retired
  }

  /** The base goes from b to base, past finished sequences only and as far as they go; `left` is the rest of them. */
  ghost predicate Slid(b: nat, base: nat, finished: set<nat>, left: set<nat>) {
    && (forall s: nat :: b <= s < base ==> s in finished) && base !in finished
    && (forall s: nat :: s in left <==> s in finished && s >= base)
  }

  lemma SlidFacts(w: Window, v: Window)
    requires SlidTo(w, v)
    ensures Slid(w.base, v.base, w.retired, v.retired)
  {
  }

  lemma SlidEntries(w: Window, v: Window)
    requires SlidTo(w, v)
    ensures v.entries == w.entries && w.base <= v.base
  {
  }

  lemma SlidNone(w: Window)
    requires forall s :: s in w.retired ==> s >= w.base
    ensures Sliding(w, w)
  {
  }

  lemma SlidMore(w: Window, v: Window)
    requires Sliding(w, v) && v.base in v.retired
    ensures Sliding(w, Slide(v))
  {
  }

  lemma SlidEnds(w: Window, v: Window)
    requires Sliding(w, v) && v.base !in v.retired
    ensures SlidTo(w, v)
  {
  }

  predicate Held(e: Entry, everyone: bool, consumer: string) {
    e.status == Acquired && (everyone || e.holder == consumer)
  }

  predicate Ascending(out: seq<Delivery>) {
    forall i, j :: 0 <= i < j < |out| ==> out[i].seqno < out[j].seqno
  }

  /** d leases a record that was available. */
  ghost predicate Redelivered(was: map<nat, Entry>, cur: map<nat, Entry>, d: Delivery, consumer: string,
                              deadline: int) {
    && IsAvailable(was, d.seqno) && d.seqno in cur
    && cur[d.seqno] == Leased(was[d.seqno], consumer, deadline)
    && d == Delivery(d.seqno, was[d.seqno].rec, was[d.seqno].count + 1, consumer, deadline)
  }

  ghost predicate Redelivering(was: map<nat, Entry>, cur: map<nat, Entry>, out: seq<Delivery>, consumer: string,
                               deadline: int) {
    && cur.Keys == was.Keys && Ascending(out)
    && (forall i :: 0 <= i < |out| ==> Redelivered(was, cur, out[i], consumer, deadline))
    && (forall s: nat :: IsAvailable(cur, s) ==> cur[s] == was[s])
    && (forall s: nat :: s in was && cur[s] != was[s] ==> IsAvailable(was, s) && Returned(out, s))
  }

  predicate Returned(out: seq<Delivery>, s: nat) {
    exists i :: 0 <= i < |out| && out[i].seqno == s
  }

  lemma RedeliverNone(was: map<nat, Entry>, consumer: string, deadline: int)
    ensures Redelivering(was, was, [], consumer, deadline)
  {
  }

  lemma RedeliverOne(was: map<nat, Entry>, cur: map<nat, Entry>, out: seq<Delivery>, consumer: string, deadline: int,
                     s: nat)
    requires Redelivering(was, cur, out, consumer, deadline) && IsAvailable(cur, s)
    requires forall i :: 0 <= i < |out| ==> out[i].seqno < s
    ensures Redelivering(was, cur[s := Leased(cur[s], consumer, deadline)],
                         out + [Delivery(s, cur[s].rec, cur[s].count + 1, consumer, deadline)], consumer, deadline)
  {
    var out' := out + [Delivery(s, cur[s].rec, cur[s].count + 1, consumer, deadline)];
    forall t: nat | Returned(out, t) || t == s ensures Returned(out', t) {
      if t != s {
        var i :| 0 <= i < |out| && out[i].seqno == t;
        assert out'[i].seqno == t;
      } else {
        assert out'[|out|].seqno == t;
      }
    }
  }

  /** A redelivered record is one there was, delivered once more. */
  lemma RedeliveredFrom(was: map<nat, Entry>, reaped: map<nat, Entry>, taken: map<nat, Entry>, out: seq<Delivery>,
                        consumer: string, now: int, deadline: int, max: nat, routes: nat -> bool)
    requires LeasesEnded(was, reaped, now, max, routes) && Redelivering(reaped, taken, out, consumer, deadline)
    ensures forall i :: 0 <= i < |out| ==>
      var q := out[i].seqno; q in was && out[i].rec == was[q].rec && out[i].count == was[q].count + 1
  {
    forall i | 0 <= i < |out|
      ensures var q := out[i].seqno; q in was && out[i].rec == was[q].rec && out[i].count == was[q].count + 1
    {
      assert Redelivered(reaped, taken, out[i], consumer, deadline);
    }
  }

  /** What an acquire leaves of the leases there were: those whose deadline has not passed are as they were, unless
      retention has overtaken them, and none whose deadline has passed is still the same lease. */
  ghost predicate LeasesRespected(was: map<nat, Entry>, cur: map<nat, Entry>, base: nat, now: int) {
    forall s :: s in was && was[s].status == Acquired ==>
      if now < was[s].deadline then s < base || (s in cur && cur[s] == was[s])
      else s in cur ==> cur[s].status == Available || cur[s].count == was[s].count + 1
  }

  lemma RespectedAfter(was: map<nat, Entry>, reaped: map<nat, Entry>, taken: map<nat, Entry>, cur: map<nat, Entry>,
                       out: seq<Delivery>, consumer: string, base: nat, next: nat, now: int, deadline: int, max: nat,
                       routes: nat -> bool)
    requires LeasesEnded(was, reaped, now, max, routes) && Redelivering(reaped, taken, out, consumer, deadline)
    requires Kept(taken, cur, base, next) && forall s :: s in was ==> s < next
    ensures LeasesRespected(was, cur, base, now)
  {
    forall s | s in was && was[s].status == Acquired && s in taken
      ensures now < was[s].deadline ==> taken[s] == was[s]
      ensures now >= was[s].deadline ==> taken[s].status == Available || taken[s].count == was[s].count + 1
    {
      if taken[s] != reaped[s] {
        var i :| 0 <= i < |out| && out[i].seqno == s;
        assert Redelivered(reaped, taken, out[i], consumer, deadline);
      }
    }
  }

  /** d is a lease of the consumer's, unless retention has since overtaken it. */
  ghost predicate Leases(entries: map<nat, Entry>, base: nat, d: Delivery, consumer: string, deadline: int) {
    && d == Delivery(d.seqno, d.rec, d.count, consumer, deadline)
    && (d.seqno < base ||
        (d.seqno in entries && entries[d.seqno] == Entry(d.rec, Acquired, d.count, deadline, consumer)))
  }

  ghost predicate AllLeased(entries: map<nat, Entry>, base: nat, out: seq<Delivery>, consumer: string, deadline: int) {
    forall i :: 0 <= i < |out| ==> Leases(entries, base, out[i], consumer, deadline)
  }

  lemma NoneLeased(entries: map<nat, Entry>, base: nat, consumer: string, deadline: int)
    ensures AllLeased(entries, base, [], consumer, deadline)
  {
  }

  lemma RedeliveredLeased(was: map<nat, Entry>, cur: map<nat, Entry>, out: seq<Delivery>, consumer: string,
                          deadline: int, base: nat)
    requires Redelivering(was, cur, out, consumer, deadline)
    ensures AllLeased(cur, base, out, consumer, deadline)
  {
    forall i | 0 <= i < |out| ensures Leases(cur, base, out[i], consumer, deadline) {
      assert Redelivered(was, cur, out[i], consumer, deadline);
    }
  }

  /** Leases survive what only adds entries or drops those below the base. */
  lemma StillLeased(was: map<nat, Entry>, b: nat, cur: map<nat, Entry>, base: nat, next: nat, out: seq<Delivery>,
                    consumer: string, deadline: int)
    requires AllLeased(was, b, out, consumer, deadline) && Kept(was, cur, base, next) && b <= base
    ensures AllLeased(cur, base, out, consumer, deadline)
  {
    forall i | 0 <= i < |out| ensures Leases(cur, base, out[i], consumer, deadline) {
      assert Leases(was, b, out[i], consumer, deadline);
    }
  }

  /** Entries of was from base on are in cur, unchanged, and whatever else is in cur is at or past next. */
  ghost predicate Kept(was: map<nat, Entry>, cur: map<nat, Entry>, base: nat, next: nat) {
    && (forall s :: s in was && s >= base ==> s in cur)
    && forall s :: s in cur ==> if s in was then cur[s] == was[s] else s >= next
  }

  lemma KeptTwice(a: map<nat, Entry>, b: map<nat, Entry>, c: map<nat, Entry>, base: nat, base': nat, next: nat,
                  next': nat)
    requires Kept(a, b, base, next) && Kept(b, c, base', next') && base <= base' && next <= next'
    requires forall s :: s in a ==> s < next
    ensures Kept(a, c, base', next)
  {
  }

  lemma KeptSame(a: map<nat, Entry>, base: nat, next: nat)
    ensures Kept(a, a, base, next)
  {
  }

  lemma LeasedBoth(entries: map<nat, Entry>, base: nat, a: seq<Delivery>, b: seq<Delivery>, consumer: string,
                   deadline: int)
    requires AllLeased(entries, base, a, consumer, deadline) && AllLeased(entries, base, b, consumer, deadline)
    ensures AllLeased(entries, base, a + b, consumer, deadline)
  {
  }

  /** cur is was with the chosen leases outside todo released. */
  ghost predicate Releasing(was: map<nat, Entry>, cur: map<nat, Entry>, todo: set<nat>, everyone: bool,
                            consumer: string) {
    && cur.Keys == was.Keys && todo <= was.Keys
    && (forall s: nat :: s in todo ==> cur[s] == was[s])
    && (forall s: nat :: s in was && s !in todo ==>
          cur[s] == if Held(was[s], everyone, consumer) then Freed(was[s]) else was[s])
  }

  lemma ReleasedAll(was: map<nat, Entry>, cur: map<nat, Entry>, everyone: bool, consumer: string)
    requires Releasing(was, cur, {}, everyone, consumer)
    ensures cur.Keys == was.Keys && forall s :: s in cur ==>
      cur[s] == if was[s].status == Acquired && (everyone || was[s].holder == consumer)
                then was[s].(status := Available, holder := "", deadline := 0) else was[s]
  {
  }

  ghost function HeldKeys(was: map<nat, Entry>, todo: set<nat>, everyone: bool, consumer: string): set<nat> {
    set s | s in was && s !in todo && Held(was[s], everyone, consumer)
  }

  lemma ReleaseNone(was: map<nat, Entry>, everyone: bool, consumer: string)
    ensures Releasing(was, was, was.Keys, everyone, consumer) && HeldKeys(was, was.Keys, everyone, consumer) == {}
  {
  }

  lemma ReleaseOne(was: map<nat, Entry>, cur: map<nat, Entry>, todo: set<nat>, everyone: bool, consumer: string, s: nat)
    requires Releasing(was, cur, todo, everyone, consumer) && s in todo
    ensures s in cur
    ensures var next := if Held(cur[s], everyone, consumer) then cur[s := Freed(cur[s])] else cur;
      Releasing(was, next, todo - {s}, everyone, consumer)
    ensures |HeldKeys(was, todo - {s}, everyone, consumer)| ==
      |HeldKeys(was, todo, everyone, consumer)| + if Held(cur[s], everyone, consumer) then 1 else 0
  {
    HeldOne(was, todo, everyone, consumer, s);
  }

  lemma HeldOne(was: map<nat, Entry>, todo: set<nat>, everyone: bool, consumer: string, s: nat)
    requires s in todo && s in was
    ensures |HeldKeys(was, todo - {s}, everyone, consumer)| ==
      |HeldKeys(was, todo, everyone, consumer)| + if Held(was[s], everyone, consumer) then 1 else 0
  {
    var rest := HeldKeys(was, todo, everyone, consumer);
    if Held(was[s], everyone, consumer) {
      assert HeldKeys(was, todo - {s}, everyone, consumer) == rest + {s};
    } else {
      assert HeldKeys(was, todo - {s}, everyone, consumer) == rest;
    }
  }

  /** d is the first delivery of a record of the log. */
  ghost predicate FreshFrom(log: seq<Record>, d: Delivery, consumer: string, deadline: int) {
    1 <= d.seqno <= |log| && d == Delivery(d.seqno, log[d.seqno - 1], 1, consumer, deadline)
  }

  /** out extends out0 with first deliveries from `start` on, all below next. */
  ghost predicate Fetched(log: seq<Record>, out0: seq<Delivery>, out: seq<Delivery>, start: nat, next: nat,
                          consumer: string, deadline: int) {
    && out0 <= out && Ascending(out)
    && (forall i :: 0 <= i < |out| ==> out[i].seqno < next)
    && (forall i :: |out0| <= i < |out| ==> out[i].seqno >= start && FreshFrom(log, out[i], consumer, deadline))
  }

  lemma FetchNone(log: seq<Record>, out0: seq<Delivery>, next: nat, consumer: string, deadline: int)
    requires Ascending(out0) && forall i :: 0 <= i < |out0| ==> out0[i].seqno < next
    ensures Fetched(log, out0, out0, next, next, consumer, deadline)
  {
  }

  lemma FetchMore(log: seq<Record>, out0: seq<Delivery>, out: seq<Delivery>, start: nat, next: nat,
                  consumer: string, deadline: int, more: seq<Delivery>, next': nat)
    requires Fetched(log, out0, out, start, next, consumer, deadline) && start <= next && next + |more| <= next'
    requires forall k :: 0 <= k < |more| ==> more[k].seqno == next + k && FreshFrom(log, more[k], consumer, deadline)
    ensures Fetched(log, out0, out + more, start, next', consumer, deadline)
  {
    hide FreshFrom;
  }

  lemma FetchEnds(log: seq<Record>, out0: seq<Delivery>, out: seq<Delivery>, start: nat, next: nat, consumer: string,
                  deadline: int)
    requires Fetched(log, out0, out, start, next, consumer, deadline)
    ensures out0 <= out && Ascending(out)
    ensures forall i :: |out0| <= i < |out| ==> out[i].seqno >= start && FreshFrom(log, out[i], consumer, deadline)
  {
  }

  /** A read from `next` gives the records next, next+1, ... */
  lemma ReadRun(p: PA.PLog, next: nat, max: int, recs: seq<Record>)
    requires p.WellFormed() && next >= 1 && max > 0 && PA.ReadOk(p.recs, next, max, READ_BUDGET, recs)
    ensures if recs == [] then next > |p.recs| else next + |recs| <= |p.recs| + 1
    ensures |recs| <= max
    ensures forall k :: 0 <= k < |recs| ==> recs[k] == p.recs[next - 1 + k] && recs[k].seqno == next + k
  {
    hide PA.SizeOf;
    var a := PA.ReadIndex(p.recs, next);
    forall k | 0 <= k < |recs| ensures recs[k] == p.recs[next - 1 + k] && recs[k].seqno == next + k {
      assert recs[k] == p.recs[a..][k];
      PA.SeqnoAt(p, a + k);
    }
  }

  lemma SkipKeeps(w: Window, f: nat)
    ensures Kept(w.entries, Skip(w, f).entries, f, w.next)
    ensures forall s :: IsAvailable(Skip(w, f).entries, s) ==> IsAvailable(w.entries, s)
  {
  }

  lemma NoneOldest(entries: map<nat, Entry>)
    ensures OldestFirst(entries, [], 0)
  {
  }

  lemma NoneAscending()
    ensures Ascending([])
  {
  }

  /** Redelivered records lie inside the window and were delivered before. */
  lemma RedeliveredFacts(w: Window, cur: map<nat, Entry>, out: seq<Delivery>, consumer: string, deadline: int, d: nat,
                         f: nat)
    requires Ok(w, d, f) && Redelivering(w.entries, cur, out, consumer, deadline)
    ensures Ascending(out) && forall i :: 0 <= i < |out| ==> out[i].seqno < w.next && out[i].count > 1
  {
    hide Within, HeapOk, CursorSafe, Tallied, Traced;
    forall i | 0 <= i < |out| ensures out[i].seqno < w.next && out[i].count > 1 {
      assert Redelivered(w.entries, cur, out[i], consumer, deadline);
      CountOf(w, out[i].seqno);
    }
  }

  /** A released record still waiting is newer than all those handed out, and then nothing unread was. */
  ghost predicate OldestFirst(entries: map<nat, Entry>, out: seq<Delivery>, redelivered: nat) {
    forall s: nat :: IsAvailable(entries, s) ==>
      (|out| > 0 ==> redelivered == |out|) && forall i :: 0 <= i < |out| ==> out[i].seqno < s
  }

  lemma HeapFacts(w: Window, d: nat, f: nat)
    requires Ok(w, d, f)
    ensures forall s: nat :: IsAvailable(w.entries, s) ==> s in w.heap
  {
  }

  /** The popped element was there once, and was the smallest. */
  lemma PopOnce(w: Window, items: seq<nat>, s: nat, rest: seq<nat>, d: nat, f: nat)
    requires Ok(w, d, f) && w.heap == multiset(items) && s in items && multiset(rest) == multiset(items) - multiset{s}
    requires forall y :: y in items ==> s <= y
    ensures s in w.heap && |rest| < |items| && forall y :: y in rest ==> y in items && s < y
  {
    hide Traced, Within, CursorSafe, Tallied, Covers;
    forall y | y in rest ensures y in items && s < y {
      assert y in multiset(rest);
      assert y in multiset(items);
    }
    assert |multiset(rest)| == |multiset(items)| - 1;
  }

  class SharePartition {
    const part: PA.Partition
    const cursors: CursorStore?
    const key: Bytes
    const ackTimeout: int
    const maxDelivery: nat
    const maxInFlight: nat
    const available: SeqHeap
    var base: nat
    var next: nat
    var entries: map<nat, Entry>
    var retired: set<nat>
    var closed: bool
    var delivered: nat
    var acked: nat
    var nacked: nat
    var expired: nat
    var dlqCount: nat
    ghost var first: nat
    ghost var trace: seq<Event>
    ghost var done: set<nat>
    ghost var horizon: nat
    ghost var skipped: bool
    ghost var clean: bool

    ghost function Win(): Window
      reads this`base, this`next, this`entries, this`retired, this`acked, this`dlqCount,
            this`first, this`trace, this`done, this`horizon, this`skipped, this`clean, available
    {
      Window(base, next, entries, retired, multiset(available.items),
             first, trace, done, acked + dlqCount, horizon, skipped, clean)
    }

    ghost predicate Valid()
      reads this`base, this`next, this`entries, this`retired, this`acked, this`dlqCount,
            this`first, this`trace, this`done, this`horizon, this`skipped, this`clean, available, cursors
    {
      && available.Valid() && Ok(Win(), maxDelivery, maxInFlight)
      && maxDelivery > 0 && maxInFlight > 0 && 1 <= base && next < U64 && |key| + MIN_BODY < U32
      && CursorBehind()
    }

    /** The committed cursor has not passed the base. */
    ghost predicate CursorBehind()
      reads this`base, cursors
    {
      cursors != null ==> cursors.Steady() && (key in cursors.positions ==> cursors.positions[key] <= base)
    }

    /** Opens at the committed cursor, or at the retention horizon where that is higher. */
    constructor (part: PA.Partition, cursors: CursorStore?, key: Bytes, ackTimeout: int, maxDelivery: int,
                 maxInFlight: int, ghost done: set<nat>)
      requires part.Valid() && part.nextSeq < U64 && |key| + MIN_BODY < U32
      requires cursors != null ==>
        cursors.Steady() && (key in cursors.positions ==> CursorSafe(cursors.positions[key], done, part.firstSeq))
      ensures Valid() && !closed && fresh(available) && this.part == part && this.cursors == cursors && this.key == key
      ensures this.ackTimeout == (if ackTimeout <= 0 then DEFAULT_ACK_TIMEOUT else ackTimeout)
      ensures this.maxDelivery == (if maxDelivery <= 0 then DEFAULT_MAX_DELIVERY else maxDelivery)
      ensures this.maxInFlight == (if maxInFlight <= 0 then DEFAULT_MAX_IN_FLIGHT else maxInFlight)
      ensures var c := if cursors != null && key in cursors.positions then cursors.positions[key] else part.firstSeq;
        Win() == Opened(c, part.firstSeq, done)
    {
      hide Ok, PA.Partition.Valid, CursorStore.Valid, CursorStore.Orderly, SeqHeap.Valid, CursorSafe, Opened, Valid;
      this.part, this.cursors, this.key := part, cursors, key;
      this.ackTimeout := if ackTimeout <= 0 then DEFAULT_ACK_TIMEOUT else ackTimeout;
      this.maxDelivery := if maxDelivery <= 0 then DEFAULT_MAX_DELIVERY else maxDelivery;
      this.maxInFlight := if maxInFlight <= 0 then DEFAULT_MAX_IN_FLIGHT else maxInFlight;
      var b := part.firstSeq;
      if cursors != null { b := cursors.Position(key, b); }
      ghost var c := b;
      if b < part.firstSeq { b := part.firstSeq; }
      base, next, entries, retired, closed := b, b, map[], {}, false;
      delivered, acked, nacked, expired, dlqCount := 0, 0, 0, 0, 0;
      available := new SeqHeap();
      this.first, trace, this.done, horizon, skipped, clean := b, [], done, part.firstSeq, false, true;
      new;
      OpensValid(c, part.firstSeq, done);
    }

    lemma OpensValid(c: nat, h: nat, was: set<nat>)
      requires part.Valid() && part.nextSeq < U64 && |key| + MIN_BODY < U32 && h == part.firstSeq
      requires cursors != null ==>
        cursors.Steady() && (key in cursors.positions ==> CursorSafe(cursors.positions[key], was, h))
      requires c == if cursors == null then h else cursors.Position(key, h)
      requires base == next == first == (if c < h then h else c) && entries == map[] && retired == {}
      requires acked == dlqCount == 0
      requires trace == [] && done == was && horizon == h && !skipped && clean
      requires available.Valid() && available.items == []
      requires maxDelivery > 0 && maxInFlight > 0
      ensures Valid() && Win() == Opened(c, h, was)
    {
      hide Ok, PA.Partition.Stored, AllFit, Growing, LogBytes, Fold, IsHeap, CursorStore.Valid, CursorStore.Orderly,
        PA.PL.PLog.WellFormed;
      PA.WellFormedFacts(part.Abs());
      PositionBound(cursors, key);
      OpenedOk(c, h, was, maxDelivery, maxInFlight);
    }

    /** A lease ends and its record becomes available again. */
    method Free(s: nat, ghost tidy: bool)
      requires Valid() && s in entries && entries[s].status == Acquired && (tidy ==> entries[s].count < maxDelivery)
      modifies this`entries, this`trace, this`clean, available
      ensures Valid() && Win() == Release(old(Win()), s, tidy)
    {
      hide Ok, SeqHeap.Valid, CursorStore.Valid, CursorStore.Orderly;
      ReleaseOk(Win(), s, tidy, maxDelivery, maxInFlight);
      entries := entries[s := Freed(entries[s])];
      available.Push(s);
      trace := trace + [Released(s)];
      clean := clean && tidy;
    }

    /** A lease ends for good, by ack or through the dead-letter route. */
    method Finish(s: nat, byAck: bool)
      requires Valid() && s in entries && entries[s].status == Acquired
      modifies this`entries, this`retired, this`done, this`acked, this`dlqCount
      ensures Valid() && Win() == Retire(old(Win()), s)
      ensures acked == old(acked) + (if byAck then 1 else 0)
    {
      hide Ok, SeqHeap.Valid, CursorStore.Valid, CursorStore.Orderly;
      RetireOk(Win(), s, maxDelivery, maxInFlight);
      entries := entries - {s};
      retired := retired + {s};
      done := done + {s};
      if byAck { acked := acked + 1; } else { dlqCount := dlqCount + 1; }
    }

    /** Routes a record out; a failing route leaves it available instead. */
    method DeadLetter(s: nat, routed: bool)
      requires Valid() && s in entries && entries[s].status == Acquired
      modifies this`entries, this`retired, this`done, this`acked, this`dlqCount, this`trace, this`clean, available
      ensures Valid() && acked == old(acked)
      ensures Win() == if routed then Retire(old(Win()), s) else Release(old(Win()), s, false)
    {
      hide Ok, SeqHeap.Valid, CursorStore.Valid, CursorStore.Orderly, CursorBehind;
      if routed { Finish(s, false); } else { Free(s, false); }
    }

    method SlideBase() returns (moved: bool)
      requires Valid()
      modifies this`base, this`retired
      ensures Valid() && SlidTo(old(Win()), Win()) && (moved <==> base > old(base)) && old(base) <= base
    {
      hide Ok, SeqHeap.Valid, CursorStore.Valid, CursorStore.Orderly, SlidTo, Sliding;
      ghost var w := Win();
      Shape(w, maxDelivery, maxInFlight);
      SlidNone(w);
      moved := false;
      while base in retired
        invariant Valid() && Sliding(w, Win()) && (moved <==> base > w.base) && w.base <= base
        decreases |retired|
      {
        SlideOk(Win(), maxDelivery, maxInFlight);
        SlidMore(w, Win());
        retired := retired - {base};
        base := base + 1;
        moved := true;
      }
      SlidEnds(w, Win());
    }

    /** Slides the base past the contiguous run of retired sequences and commits it. */
    method Advance() returns (ok: bool)
      requires Valid()
      modifies this`base, this`retired, cursors
      ensures ok <==> !(base > old(base) && cursors != null && cursors.closed)
      ensures Valid() && SlidTo(old(Win()), Win()) && old(base) <= base
      ensures cursors != null ==> cursors.closed == old(cursors.closed)
      ensures Committed(old(base))
      ensures cursors != null && base == old(base) ==> cursors.positions == old(cursors.positions)
    {
      hide Ok, SeqHeap.Valid, CursorStore.Valid, CursorStore.Orderly, SlidTo, Grown;
      var moved := SlideBase();
      Shape(Win(), maxDelivery, maxInFlight);
      ok := true;
      if moved && cursors != null {
        var more;
        ok, more := cursors.Commit(key, base);
      }
    }

    /** A base past b is the committed cursor, unless the store is closed. */
    predicate Committed(b: nat)
      reads this`base, cursors
    {
      cursors != null && !cursors.closed && base > b ==> key in cursors.positions && cursors.positions[key] == base
    }

    /** The answer to a consumer that names a delivery. */
    function Standing(consumer: string, s: nat): Answer
      reads this
    {
      if closed then ShareClosed
      else if s !in entries || entries[s].status != Acquired then UnknownDelivery
      else if entries[s].holder != consumer then NotHolder
      else Fine
    }

    /** A consumer that names a delivery is served exactly when it holds the lease, and otherwise told why not. */
    predicate Answers(a: Answer, entries: map<nat, Entry>, consumer: string, s: nat)
      reads this`closed
    {
      var leased := s in entries && entries[s].status == Acquired;
      && (a in {Fine, CommitFailed} <==> !closed && leased && entries[s].holder == consumer)
      && (a == ShareClosed <==> closed) && (a == UnknownDelivery <==> !closed && !leased)
      && (a == NotHolder <==> !closed && leased && entries[s].holder != consumer)
    }

    /** Only the holder of a live lease retires its record. */
    method Ack(consumer: string, s: nat) returns (a: Answer)
      requires Valid()
      modifies this`entries, this`retired, this`done, this`acked, this`dlqCount, this`base, cursors
      ensures Valid() && closed == old(closed) && Committed(old(base)) && Answers(a, old(entries), consumer, s)
      ensures a == CommitFailed <==> base > old(base) && cursors != null && cursors.closed
      ensures if old(Standing(consumer, s)) == Fine
        then SlidTo(Retire(old(Win()), s), Win()) && acked == old(acked) + 1
        else a == old(Standing(consumer, s)) && Win() == old(Win())
    {
      hide Ok, SeqHeap.Valid, CursorStore.Valid, CursorStore.Orderly, SlidTo, CursorBehind;
      a := Standing(consumer, s);
      if a != Fine { return; }
      Finish(s, true);
      var ok := Advance();
      a := if ok then Fine else CommitFailed;
    }

    /** What a nack leaves behind: the record dead-lettered, or available again. */
    ghost function Nacked(s: nat, requeue: bool, routed: bool): Window
      requires s in entries
      reads this, available
    {
      if requeue && entries[s].count < maxDelivery then Release(Win(), s, true)
      else if routed then Retire(Win(), s)
      else Release(Win(), s, false)
    }

    /** Releases a record, or dead-letters it when rejected or delivered too often. */
    method Nack(consumer: string, s: nat, requeue: bool, routed: bool) returns (a: Answer)
      requires Valid()
      modifies this`entries, this`retired, this`done, this`acked, this`dlqCount, this`trace, this`clean, this`base,
        this`nacked
      modifies available, cursors
      ensures Valid() && closed == old(closed) && Committed(old(base)) && Answers(a, old(entries), consumer, s)
      ensures a == CommitFailed <==> base > old(base) && cursors != null && cursors.closed
      ensures a in {Fine, CommitFailed} ==>
        if (requeue && old(entries)[s].count < maxDelivery) || !routed
        then s in entries && entries[s] == old(entries)[s].(status := Available, holder := "", deadline := 0)
        else s !in entries && s in done
      ensures if old(Standing(consumer, s)) == Fine
        then nacked == old(nacked) + 1
             && (if requeue && old(entries)[s].count < maxDelivery then Win() == old(Nacked(s, requeue, routed))
                 else SlidTo(old(Nacked(s, requeue, routed)), Win()))
        else a == old(Standing(consumer, s)) && Win() == old(Win())
    {
      hide Ok, SeqHeap.Valid, CursorStore.Valid, CursorStore.Orderly, CursorBehind, SlidTo;
      a := Standing(consumer, s);
      if a != Fine { return; }
      nacked := nacked + 1;
      if requeue && entries[s].count < maxDelivery {
        Free(s, true);
      } else {
        DeadLetter(s, routed);
        var ok := Advance();
        a := if ok then Fine else CommitFailed;
      }
    }

    /** Ends one lease whose deadline has passed: dead-lettered at the limit, otherwise available again. */
    method ReapLease(s: nat, now: int, routed: bool)
      requires Valid() && s in entries
      modifies this`entries, this`retired, this`done, this`acked, this`dlqCount, this`trace, this`clean, this`expired
      modifies available
      ensures Valid() && acked == old(acked) && (routed ==> clean == old(clean))
      ensures if !Expired(old(entries)[s], now) then entries == old(entries) && retired == old(retired)
        else if old(entries)[s].count >= maxDelivery && routed
        then entries == old(entries) - {s} && retired == old(retired) + {s}
        else entries == old(entries)[s := Freed(old(entries)[s])] && retired == old(retired)
    {
      hide Ok, SeqHeap.Valid, CursorStore.Valid, CursorStore.Orderly, CursorBehind;
      var e := entries[s];
      if Expired(e, now) {
        expired := expired + 1;
        if e.count >= maxDelivery { DeadLetter(s, routed); } else { Free(s, true); }
      }
    }

    /** Ends the leases whose deadline has passed; `routes` says where the dead-letter route works. */
    method ReapLeases(now: int, routes: nat -> bool)
      requires Valid()
      modifies this`entries, this`retired, this`done, this`acked, this`dlqCount, this`trace, this`clean, this`expired
      modifies available
      ensures Valid() && acked == old(acked) && Reaping(old(entries), entries, {}, now, maxDelivery, routes)
      ensures retired == old(retired) + (old(entries).Keys - entries.Keys)
      ensures (forall s :: routes(s)) ==> clean == old(clean)
    {
      hide Valid, Ok, Reaping, Freed, Expired;
      var todo := entries.Keys;
      ReapNone(entries, now, maxDelivery, routes);
      while todo != {}
        invariant Valid() && acked == old(acked) && Reaping(old(entries), entries, todo, now, maxDelivery, routes)
        invariant entries.Keys <= old(entries).Keys && todo <= entries.Keys
        invariant retired == old(retired) + (old(entries).Keys - entries.Keys)
        invariant (forall s :: routes(s)) ==> clean == old(clean)
        decreases |todo|
      {
        var s :| s in todo;
        ReapOne(old(entries), entries, todo, now, maxDelivery, routes, s);
        ReapLease(s, now, routes(s));
        todo := todo - {s};
      }
    }

    /** Returns leases to the pool: everyone's when the node stops leading, or one consumer's when it leaves. */
    method ReleaseLeases(everyone: bool, consumer: string) returns (n: nat)
      requires Valid()
      modifies this`entries, this`trace, this`clean, available
      ensures Valid() && Releasing(old(entries), entries, {}, everyone, consumer)
      ensures n == |HeldKeys(old(entries), {}, everyone, consumer)|
      ensures entries.Keys == old(entries).Keys && forall s :: s in entries ==>
        var e := old(entries)[s];
        entries[s] == if e.status == Acquired && (everyone || e.holder == consumer)
                      then e.(status := Available, holder := "", deadline := 0) else e
    {
      hide Ok, SeqHeap.Valid, CursorStore.Valid, CursorStore.Orderly, CursorBehind, Releasing, HeldKeys;
      n := 0;
      var todo := entries.Keys;
      ReleaseNone(entries, everyone, consumer);
      while todo != {}
        invariant Valid() && Releasing(old(entries), entries, todo, everyone, consumer)
        invariant n == |HeldKeys(old(entries), todo, everyone, consumer)|
        decreases |todo|
      {
        var s :| s in todo;
        ReleaseOne(old(entries), entries, todo, everyone, consumer, s);
        if Held(entries[s], everyone, consumer) {
          Free(s, false);
          n := n + 1;
        }
        todo := todo - {s};
      }
      ReleasedAll(old(entries), entries, everyone, consumer);
    }

    method Abandon(f: nat)
      requires Valid() && base < f < U64
      modifies this`base, this`next, this`entries, this`retired, this`horizon, this`skipped
      ensures Valid() && Win() == Skip(old(Win()), f)
    {
      hide Ok, SeqHeap.Valid, CursorStore.Valid, CursorStore.Orderly;
      SkipOk(Win(), f, maxDelivery, maxInFlight);
      entries := map s | s in entries && s >= f :: entries[s];
      retired := set s | s in retired && s >= f;
      base := f;
      if next < f { next := f; }
      if horizon < f { horizon := f; }
      skipped := true;
    }

    /** Abandons everything below f, which retention has removed, and commits. */
    method SkipTo(f: nat)
      requires Valid() && f < U64
      modifies this`base, this`next, this`entries, this`retired, this`horizon, this`skipped, cursors
      ensures Valid() && Win() == (if f <= old(base) then old(Win()) else Skip(old(Win()), f)) && Committed(old(base))
    {
      hide Ok, SeqHeap.Valid, CursorStore.Valid, CursorStore.Orderly, Grown;
      if f <= base { return; }
      Abandon(f);
      if cursors != null {
        var ok, more := cursors.Commit(key, base);
      }
    }

    /** Pops the oldest sequence waiting and leases its record, unless it is stale. */
    method PopOne(consumer: string, deadline: int) returns (s: nat, taken: bool, d: Delivery)
      requires Valid() && |available.items| > 0
      modifies this`entries, this`trace, available
      ensures Valid() && |available.items| < |old(available.items)| && s in old(available.items)
      ensures forall y :: y in available.items ==> y in old(available.items) && s < y
      ensures taken <==> IsAvailable(old(entries), s)
      ensures entries == if taken then old(entries)[s := Leased(old(entries)[s], consumer, deadline)] else old(entries)
      ensures taken ==> d == Delivery(s, old(entries)[s].rec, old(entries)[s].count + 1, consumer, deadline)
    {
      hide Ok, SeqHeap.Valid, CursorStore.Valid, CursorStore.Orderly, CursorBehind;
      ghost var w, items := Win(), available.items;
      s := available.Pop();
      PopOnce(w, items, s, available.items, maxDelivery, maxInFlight);
      taken := s in entries && entries[s].status == Available;
      d := Delivery(s, Record(0, 0, [], map[], [], 0, 0), 0, consumer, deadline);
      if taken {
        TakeOk(w, s, consumer, deadline, maxDelivery, maxInFlight);
        var e := Leased(entries[s], consumer, deadline);
        entries := entries[s := e];
        trace := trace + [Delivered(s)];
        d := Delivery(s, e.rec, e.count, consumer, deadline);
      } else {
        DropOk(w, s, maxDelivery, maxInFlight);
      }
    }

    /** Phase one of an acquire: released records, oldest first. */
    method Redeliver(consumer: string, max: int, now: int) returns (out: seq<Delivery>)
      requires Valid() && max > 0
      modifies this`entries, this`trace, available
      ensures Valid() && |out| <= max
      ensures Redelivering(old(entries), entries, out, consumer, now + ackTimeout)
      ensures |out| < max ==> forall s :: !IsAvailable(entries, s)
      ensures forall i, s :: 0 <= i < |out| && IsAvailable(entries, s) ==> out[i].seqno < s
    {
      hide Ok, SeqHeap.Valid, CursorStore.Valid, CursorStore.Orderly, CursorBehind, Redelivering, Leased;
      out := [];
      RedeliverNone(entries, consumer, now + ackTimeout);
      while |out| < max && |available.items| > 0
        invariant Valid() && |out| <= max && Redelivering(old(entries), entries, out, consumer, now + ackTimeout)
        invariant forall i, y :: 0 <= i < |out| && y in available.items ==> out[i].seqno < y
        decreases |available.items|
      {
        ghost var cur, items := entries, available.items;
        var s, taken, d := PopOne(consumer, now + ackTimeout);
        if taken {
          RedeliverOne(old(entries), cur, out, consumer, now + ackTimeout, s);
          out := out + [d];
        }
      }
      HeapFacts(Win(), maxDelivery, maxInFlight);
      forall s | IsAvailable(entries, s) ensures s in available.items {
        assert s in multiset(available.items);
      }
    }

    method AdmitOne(rec: Record, consumer: string, deadline: int)
      requires Valid() && rec.seqno == next && next - base < maxInFlight && next + 1 < U64
      modifies this`entries, this`next, this`trace
      ensures Valid() && next == old(next) + 1 && old(next) !in old(entries)
      ensures entries == old(entries)[old(next) := Entry(rec, Acquired, 1, deadline, consumer)]
    {
      hide Ok, SeqHeap.Valid, CursorStore.Valid, CursorStore.Orderly, CursorBehind;
      AdmitOk(Win(), rec, consumer, deadline, maxDelivery, maxInFlight);
      Shape(Win(), maxDelivery, maxInFlight);
      var s := rec.seqno;
      entries := entries[s := Entry(rec, Acquired, 1, deadline, consumer)];
      if s >= next { next := s + 1; }
      trace := trace + [Delivered(s)];
    }

    /** The next records of the log enter the window, leased. */
    method AdmitAll(recs: seq<Record>, consumer: string, deadline: int) returns (out: seq<Delivery>)
      requires Valid() && next - base + |recs| <= maxInFlight && next + |recs| < U64
      requires forall k :: 0 <= k < |recs| ==> recs[k].seqno == next + k
      modifies this`entries, this`next, this`trace
      ensures Valid() && next == old(next) + |recs| && |out| == |recs|
      ensures forall k :: 0 <= k < |out| ==> out[k] == Delivery(old(next) + k, recs[k], 1, consumer, deadline)
      ensures forall s :: IsAvailable(entries, s) ==> IsAvailable(old(entries), s)
      ensures Kept(old(entries), entries, base, old(next)) && AllLeased(entries, base, out, consumer, deadline)
    {
      hide Valid;
      out := [];
      for k := 0 to |recs|
        invariant Valid() && next == old(next) + k && |out| == k
        invariant forall i :: 0 <= i < k ==> out[i] == Delivery(old(next) + i, recs[i], 1, consumer, deadline)
        invariant forall s :: IsAvailable(entries, s) ==> IsAvailable(old(entries), s)
        invariant forall s :: s in old(entries) ==> s in entries && entries[s] == old(entries)[s]
        invariant forall s :: s in entries ==> s in old(entries) || s >= old(next)
        invariant AllLeased(entries, base, out, consumer, deadline)
      {
        AdmitOne(recs[k], consumer, deadline);
        out := out + [Delivery(recs[k].seqno, recs[k], 1, consumer, deadline)];
      }
    }

    /** One read of the log; skips ahead where retention removed what comes next. */
    method FetchOnce(consumer: string, want: int, deadline: int) returns (turn: Turn, more: seq<Delivery>)
      requires Valid() && part.Valid() && part.nextSeq < U64 && horizon <= part.firstSeq
      requires 0 < want <= maxInFlight - (next - base)
      modifies this`base, this`next, this`entries, this`retired, this`horizon, this`skipped, this`trace, cursors
      ensures Valid() && horizon <= part.firstSeq && |more| <= want && (turn == Admitted <==> |more| > 0)
      ensures turn == Broken <==> part.closed
      ensures turn == Skipped ==> old(next) < part.firstSeq == next
      ensures turn != Skipped ==> next == old(next) + |more|
      ensures turn == Drained ==> next > |part.log|
      ensures forall s :: IsAvailable(entries, s) ==> IsAvailable(old(entries), s)
      ensures forall k :: 0 <= k < |more| ==>
        more[k].seqno == old(next) + k && FreshFrom(part.log, more[k], consumer, deadline)
      ensures old(base) <= base && Kept(old(entries), entries, base, old(next))
      ensures AllLeased(entries, base, more, consumer, deadline)
    {
      hide Ok, SeqHeap.Valid, CursorStore.Valid, CursorStore.Orderly, CursorBehind, PA.Partition.Stored,
        PA.PL.PLog.WellFormed, PA.ReadOk, AllLeased, Kept;
      more := [];
      NoneLeased(entries, base, consumer, deadline);
      PA.WellFormedFacts(part.Abs());
      Shape(Win(), maxDelivery, maxInFlight);
      var res := part.Read(next, want, READ_BUDGET);
      if res.LogClosed? {
        KeptSame(entries, base, next);
        return Broken, [];
      }
      if res.SeqTruncated? {
        SkipKeeps(Win(), part.firstSeq);
        SkipTo(part.firstSeq);
        NoneLeased(entries, base, consumer, deadline);
        return Skipped, [];
      }
      ReadRun(part.Abs(), next, want, res.recs);
      if |res.recs| == 0 {
        KeptSame(entries, base, next);
        return Drained, [];
      }
      more := AdmitAll(res.recs, consumer, deadline);
      return Admitted, more;
    }

    /** Phase two of an acquire: unread records, bounded by the window. */
    method Fetch(consumer: string, max: int, now: int, out0: seq<Delivery>) returns (out: seq<Delivery>, broken: bool)
      requires Valid() && part.Valid() && part.nextSeq < U64 && horizon <= part.firstSeq
      requires |out0| <= max && Ascending(out0) && forall i :: 0 <= i < |out0| ==> out0[i].seqno < next
      requires AllLeased(entries, base, out0, consumer, now + ackTimeout)
      modifies this`base, this`next, this`entries, this`retired, this`horizon, this`skipped, this`trace, cursors
      ensures Valid() && horizon <= part.firstSeq && old(next) <= next
      ensures out0 <= out && |out| <= max && Ascending(out)
      ensures forall i :: |out0| <= i < |out| ==>
        out[i].seqno >= old(next) && FreshFrom(part.log, out[i], consumer, now + ackTimeout)
      ensures forall s :: IsAvailable(entries, s) ==> IsAvailable(old(entries), s)
      ensures broken ==> part.closed
      ensures !broken ==> |out| == max || next - base >= maxInFlight || next > |part.log|
      ensures AllLeased(entries, base, out, consumer, now + ackTimeout)
      ensures old(base) <= base && Kept(old(entries), entries, base, old(next))
    {
      hide Ok, SeqHeap.Valid, CursorStore.Valid, CursorStore.Orderly, CursorBehind, PA.Partition.Valid, Fetched,
        FreshFrom, Ascending, AllLeased, Kept;
      out, broken := out0, false;
      FetchNone(part.log, out0, next, consumer, now + ackTimeout);
      Shape(Win(), maxDelivery, maxInFlight);
      KeptSame(entries, base, next);
      while |out| < max
        invariant Valid() && horizon <= part.firstSeq && old(next) <= next && part.Valid()
        invariant Fetched(part.log, out0, out, old(next), next, consumer, now + ackTimeout) && |out| <= max
        invariant forall s :: IsAvailable(entries, s) ==> IsAvailable(old(entries), s)
        invariant AllLeased(entries, base, out, consumer, now + ackTimeout)
        invariant old(base) <= base && Kept(old(entries), entries, base, old(next))
        decreases if next < part.firstSeq then 1 else 0, max - |out|
      {
        var room := maxInFlight - (next - base);
        if room <= 0 { break; }
        var want := if max - |out| > room then room else max - |out|;
        ghost var at, was, b := next, entries, base;
        var turn, more := FetchOnce(consumer, want, now + ackTimeout);
        StillLeased(was, b, entries, base, at, out, consumer, now + ackTimeout);
        KeptTwice(old(entries), was, entries, b, base, old(next), at);
        if turn == Broken { broken := true; break; }
        if turn == Drained { break; }
        FetchMore(part.log, out0, out, old(next), at, consumer, now + ackTimeout, more, next);
        LeasedBoth(entries, base, out, more, consumer, now + ackTimeout);
        out := out + more;
      }
      FetchEnds(part.log, out0, out, old(next), next, consumer, now + ackTimeout);
    }

    /** Reaps, then slides the base past every sequence retired without a gap. */
    method ReapExpired(now: int, routes: nat -> bool)
      requires Valid()
      modifies this`entries, this`retired, this`done, this`acked, this`dlqCount, this`trace, this`clean, this`expired,
        this`base
      modifies available, cursors
      ensures Valid() && Reaping(old(entries), entries, {}, now, maxDelivery, routes) && old(base) <= base
      ensures LeasesEnded(old(entries), entries, now, maxDelivery, routes)
      ensures Slid(old(base), base, old(retired) + (old(entries).Keys - entries.Keys), retired)
      ensures next == old(next) && Committed(old(base))
      ensures (forall s :: routes(s)) ==> clean == old(clean)
    {
      hide Valid, Ok, SlidTo, Reaping, Slid, LeasesEnded;
      ReapLeases(now, routes);
      ReapedLeases(old(entries), entries, now, maxDelivery, routes);
      ghost var reaped := Win();
      var ok := Advance();
      SlidEntries(reaped, Win());
      SlidFacts(reaped, Win());
    }

    /** Both phases of an acquire: released records first, oldest first, then unread ones.
        `redelivered` is how many of them were released before. */
    method Deliver(consumer: string, max: int, now: int)
      returns (out: seq<Delivery>, broken: bool, ghost redelivered: nat, ghost taken: map<nat, Entry>)
      requires Valid() && part.Valid() && part.nextSeq < U64 && horizon <= part.firstSeq && max > 0
      modifies this`base, this`next, this`entries, this`retired, this`horizon, this`skipped, this`trace, available,
        cursors
      ensures Valid() && horizon <= part.firstSeq && (broken ==> part.closed)
      ensures redelivered <= |out| <= max && Ascending(out)
      ensures forall i :: 0 <= i < redelivered ==> out[i].seqno < old(next) && out[i].count > 1
      ensures forall i :: redelivered <= i < |out| ==>
        out[i].seqno >= old(next) && FreshFrom(part.log, out[i], consumer, now + ackTimeout)
      ensures !broken ==> |out| == max || next - base >= maxInFlight || next > |part.log|
      ensures OldestFirst(entries, out, redelivered) && AllLeased(entries, base, out, consumer, now + ackTimeout)
      ensures Redelivering(old(entries), taken, out[..redelivered], consumer, now + ackTimeout)
      ensures Kept(taken, entries, base, old(next))
    {
      hide Ok, SeqHeap.Valid, CursorStore.Valid, CursorStore.Orderly, CursorBehind, PA.Partition.Valid, FreshFrom,
        Ascending, Redelivering, AllLeased;
      ghost var w := Win();
      var released := Redeliver(consumer, max, now);
      RedeliveredFacts(w, entries, released, consumer, now + ackTimeout, maxDelivery, maxInFlight);
      RedeliveredLeased(w.entries, entries, released, consumer, now + ackTimeout, base);
      redelivered, taken := |released|, entries;
      out, broken := Fetch(consumer, max, now, released);
      assert out[..redelivered] == released;
    }

    /** Leases up to max records to a consumer. */
    method Acquire(consumer: string, max: int, now: int, routes: nat -> bool)
      returns (out: seq<Delivery>, a: Answer, ghost redelivered: nat)
      requires Valid() && part.Valid() && part.nextSeq < U64 && horizon <= part.firstSeq
      modifies this, available, cursors
      ensures Valid() && horizon <= part.firstSeq && closed == old(closed)
      ensures a == ShareClosed <==> max > 0 && closed
      ensures a in {Fine, ShareClosed, LogFailed} && (a == LogFailed ==> part.closed)
      ensures redelivered <= |out| && (|out| == 0 || |out| <= max) && Ascending(out)
      ensures forall i :: 0 <= i < redelivered ==> out[i].seqno < old(next) && out[i].count > 1
      ensures forall i :: redelivered <= i < |out| ==>
        out[i].seqno >= old(next) && FreshFrom(part.log, out[i], consumer, now + ackTimeout)
      ensures max > 0 && !closed && !part.closed && |out| < max ==>
        next - base >= maxInFlight || next > |part.log|
      ensures OldestFirst(entries, out, redelivered) && AllLeased(entries, base, out, consumer, now + ackTimeout)
      ensures (forall s :: routes(s)) ==> clean == old(clean)
      ensures max > 0 && !closed ==> LeasesRespected(old(entries), entries, base, now)
      ensures forall i :: 0 <= i < redelivered ==>
        var q := out[i].seqno;
        q in old(entries) && out[i].rec == old(entries)[q].rec && out[i].count == old(entries)[q].count + 1
      ensures max > 0 && !closed && !part.closed ==> delivered == old(delivered) + |out|
    {
      hide Valid, Ok, PA.Partition.Valid, FreshFrom, Ascending, Reaping, OldestFirst, AllLeased, LeasesRespected,
        LeasesEnded, Redelivering, Kept;
      OldBelowNext();
      out, a, redelivered := [], Fine, 0;
      NoneLeased(entries, base, consumer, now + ackTimeout);
      NoneAscending();
      NoneOldest(entries);
      if max <= 0 { return; }
      if closed { return [], ShareClosed, 0; }
      ReapExpired(now, routes);
      ghost var reaped := entries;
      var broken;
      ghost var taken;
      out, broken, redelivered, taken := Deliver(consumer, max, now);
      RespectedAfter(old(entries), reaped, taken, entries, out[..redelivered], consumer, base, old(next), now,
                     now + ackTimeout, maxDelivery, routes);
      RedeliveredFrom(old(entries), reaped, taken, out[..redelivered], consumer, now, now + ackTimeout, maxDelivery,
                      routes);
      if broken {
        return out, if |out| > 0 then Fine else LogFailed, redelivered;
      }
      delivered := delivered + |out|;
    }

    lemma OldBelowNext()
      requires Valid()
      ensures forall s :: s in entries ==> s < next
    {
      Shape(Win(), maxDelivery, maxInFlight);
    }

    method Close()
      requires Valid()
      modifies this`closed
      ensures Valid() && closed && Win() == old(Win())
    {
      hide Ok;
      closed := true;
    }
  }

  lemma PositionBound(cursors: CursorStore?, key: Bytes)
    requires cursors != null ==> cursors.Steady()
    ensures cursors != null && key in cursors.positions ==> cursors.positions[key] < U64
  {
    hide CursorStore.Valid, CursorStore.Orderly;
    if cursors != null { cursors.PositionsSized(); }
  }

  /** At least once across a crash: whatever prefix of the cursor file survives and however far retention
      has moved on, the reopened window starts at or below every unfinished record still retained. */
  lemma CrashStillDelivers(sp: SharePartition, disk: Bytes, horizon: nat, s: nat)
    requires sp.Valid() && sp.cursors != null && disk <= sp.cursors.file && sp.horizon <= horizon
    requires !sp.cursors.Accident()
    requires s !in sp.done && s >= horizon
    ensures var loaded := Replay(sp.cursors.crc, disk, map[]);
      var c := if sp.key in loaded then loaded[sp.key] else horizon;
      var v := Opened(c, horizon, sp.done);
      Ok(v, sp.maxDelivery, sp.maxInFlight) && v.next <= s
  {
    hide Ok, Opened, CursorStore.Valid, CursorStore.Orderly, CursorStore.Accident, Growing, Replay;
    var cs := sp.cursors;
    cs.CrashOlder(disk);
    var loaded := Replay(cs.crc, disk, map[]);
    if sp.key in loaded {
      RestartReaches(sp.Win(), loaded[sp.key], horizon, s, sp.maxDelivery, sp.maxInFlight);
    } else {
      RestartAtHorizon(horizon, sp.done, s);
      OpenedOk(horizon, horizon, sp.done, sp.maxDelivery, sp.maxInFlight);
    }
  }

  lemma RestartAtHorizon(horizon: nat, done: set<nat>, s: nat)
    requires s >= horizon
    ensures CursorSafe(horizon, done, horizon) && Opened(horizon, horizon, done).next <= s
  {
  }
}
