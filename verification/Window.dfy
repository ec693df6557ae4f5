/** The delivery window of one consumer group over one partition, as a value.

    The class of Share refines these steps; the properties are proved here. */
module Windows {
  import opened Records

  datatype Status = Available | Acquired

  datatype Entry = Entry(rec: Record, status: Status, count: nat, deadline: int, holder: string)

  /** What happened to leases, in order. */
  datatype Event = Delivered(s: nat) | Released(s: nat)

  /** `[base, next)` is the window. The rest records the past: `first` the base at opening, `trace`
      the leases of this session, `done` every sequence acked or dead-lettered, `finished` how many
      of them in this session, `horizon` the highest retention horizon met, `skipped` whether
      retention overtook the window, `clean` whether every lease so far ended by ack, nack or
      expiry with a working dead-letter route. */
  datatype Window = Window(
    base: nat, next: nat, entries: map<nat, Entry>, retired: set<nat>, heap: multiset<nat>,
    first: nat, trace: seq<Event>, done: set<nat>, finished: nat, horizon: nat, skipped: bool, clean: bool)

  // --- the invariant -----------------------------------------------------

  /** Every sequence of the window is in exactly one of entries and retired. */
  ghost predicate Covers(base: nat, next: nat, entries: map<nat, Entry>, retired: set<nat>) {
    && base <= next && entries.Keys !! retired
    && forall s: nat :: base <= s < next <==> s in entries || s in retired
  }

  ghost predicate IsAvailable(entries: map<nat, Entry>, s: nat) {
    s in entries && entries[s].status == Available
  }

  /** The heap holds each available sequence once, and otherwise only stale ones below base. */
  ghost predicate HeapOk(heap: multiset<nat>, entries: map<nat, Entry>, base: nat) {
    && (forall s: nat :: IsAvailable(entries, s) ==> heap[s] == 1)
    && (forall s: nat :: s in heap ==> heap[s] == 1 && (s < base || IsAvailable(entries, s)))
  }

  function Deliveries(trace: seq<Event>, s: nat): nat {
    if trace == [] then 0
    else Deliveries(trace[..|trace| - 1], s) + if trace[|trace| - 1] == Delivered(s) then 1 else 0
  }

  /** The last lease of s has not been released. */
  predicate Open(trace: seq<Event>, s: nat) {
    if trace == [] then false
    else if trace[|trace| - 1].s == s then trace[|trace| - 1].Delivered?
    else Open(trace[..|trace| - 1], s)
  }

  /** No sequence is delivered while its last lease is still open. */
  predicate WellTraced(trace: seq<Event>) {
    trace == [] ||
    (var n := |trace| - 1;
     WellTraced(trace[..n]) && (trace[n].Delivered? ==> !Open(trace[..n], trace[n].s)))
  }

  /** What the trace says of sequence s. */
  ghost predicate TracedAt(trace: seq<Event>, entries: map<nat, Entry>, next: nat, s: nat) {
    && (s in entries ==> Deliveries(trace, s) == entries[s].count >= 1)
    && (IsAvailable(entries, s) || s >= next ==> !Open(trace, s))
    && (s >= next ==> Deliveries(trace, s) == 0)
  }

  ghost predicate Traced(trace: seq<Event>, entries: map<nat, Entry>, next: nat) {
    WellTraced(trace) && forall s: nat :: TracedAt(trace, entries, next, s)
  }

  /** No record over its delivery limit, and none at it that may be delivered again. */
  ghost predicate WithinAt(trace: seq<Event>, entries: map<nat, Entry>, max: nat, s: nat) {
    Deliveries(trace, s) <= max && (IsAvailable(entries, s) ==> entries[s].count < max)
  }

  ghost predicate Within(trace: seq<Event>, entries: map<nat, Entry>, max: nat) {
    forall s: nat :: WithinAt(trace, entries, max, s)
  }

  /** Everything below the cursor c is done or was removed by retention. */
  ghost predicate CursorSafe(c: nat, done: set<nat>, horizon: nat) {
    forall s: nat :: s < c ==> s in done || s < horizon
  }

  ghost predicate Tallied(w: Window) {
    w.first <= w.base && (!w.skipped ==> w.finished == w.base - w.first + |w.retired|)
  }

  ghost predicate Ok(w: Window, maxDelivery: nat, maxInFlight: nat) {
    && Covers(w.base, w.next, w.entries, w.retired) && w.next - w.base <= maxInFlight
    && HeapOk(w.heap, w.entries, w.base)
    && Traced(w.trace, w.entries, w.next)
    && (w.clean ==> Within(w.trace, w.entries, maxDelivery))
    && w.retired <= w.done && CursorSafe(w.base, w.done, w.horizon)
    && Tallied(w)
  }

  // --- the steps ---------------------------------------------------------

  function Leased(e: Entry, consumer: string, deadline: int): Entry {
    e.(status := Acquired, count := e.count + 1, holder := consumer, deadline := deadline)
  }

  function Freed(e: Entry): Entry {
    e.(status := Available, holder := "", deadline := 0)
  }

  /** An available record is popped and leased again. */
  ghost function Take(w: Window, s: nat, consumer: string, deadline: int): Window
    requires s in w.entries
  {
    w.(entries := w.entries[s := Leased(w.entries[s], consumer, deadline)], heap := w.heap - multiset{s},
       trace := w.trace + [Delivered(s)])
  }

  /** The next record of the log enters the window, leased. */
  ghost function Admit(w: Window, rec: Record, consumer: string, deadline: int): Window {
    w.(entries := w.entries[w.next := Entry(rec, Acquired, 1, deadline, consumer)], next := w.next + 1,
       trace := w.trace + [Delivered(w.next)])
  }

  /** A lease ends and the record is available again. `clean` says whether the window may still be called clean. */
  ghost function Release(w: Window, s: nat, clean: bool): Window
    requires s in w.entries
  {
    w.(entries := w.entries[s := Freed(w.entries[s])], heap := w.heap + multiset{s},
       trace := w.trace + [Released(s)], clean := w.clean && clean)
  }

  /** A lease ends for good. */
  ghost function Retire(w: Window, s: nat): Window {
    w.(entries := w.entries - {s}, retired := w.retired + {s}, done := w.done + {s}, finished := w.finished + 1)
  }

  /** The base slides past one retired sequence. */
  ghost function Slide(w: Window): Window {
    w.(base := w.base + 1, retired := w.retired - {w.base})
  }

  /** Everything below f is abandoned: retention has removed it. */
  ghost function Skip(w: Window, f: nat): Window {
    w.(base := f, next := if w.next < f then f else w.next,
       entries := (map s | s in w.entries && s >= f :: w.entries[s]),
       retired := (set s | s in w.retired && s >= f),
       horizon := if w.horizon < f then f else w.horizon, skipped := true)
  }

  /** A heap entry whose record is no longer available is popped and forgotten. */
  ghost function Drop(w: Window, s: nat): Window {
    w.(heap := w.heap - multiset{s})
  }

  // --- the trace ---------------------------------------------------------

  lemma TraceSnoc(trace: seq<Event>, e: Event, s: nat)
    ensures Deliveries(trace + [e], s) == Deliveries(trace, s) + if e == Delivered(s) then 1 else 0
    ensures Open(trace + [e], s) == if e.s == s then e.Delivered? else Open(trace, s)
    ensures WellTraced(trace + [e]) == (WellTraced(trace) && (e.Delivered? ==> !Open(trace, e.s)))
  {
    assert (trace + [e])[..|trace|] == trace;
  }

  /** Two deliveries of one record have a release between them. */
  lemma {:induction false} ReleaseBetween(trace: seq<Event>, i: nat, j: nat, s: nat) returns (k: nat)
    requires WellTraced(trace) && i < j < |trace| && trace[i] == Delivered(s) && trace[j] == Delivered(s)
    ensures i < k < j && trace[k] == Released(s)
    decreases |trace|
  {
    var n := |trace| - 1;
    if j < n {
      k := ReleaseBetween(trace[..n], i, j, s);
    } else {
      k := LastRelease(trace[..n], i, s);
    }
  }

  lemma {:induction false} LastRelease(trace: seq<Event>, i: nat, s: nat) returns (k: nat)
    requires i < |trace| && trace[i] == Delivered(s) && !Open(trace, s)
    ensures i < k < |trace| && trace[k] == Released(s)
    decreases |trace|
  {
    var n := |trace| - 1;
    if trace[n].s == s { k := n; } else { k := LastRelease(trace[..n], i, s); }
  }

  // --- every step keeps the invariant ------------------------------------

  lemma TakeTraced(w: Window, s: nat, consumer: string, deadline: int)
    requires Traced(w.trace, w.entries, w.next) && IsAvailable(w.entries, s) && s < w.next
    ensures var v := Take(w, s, consumer, deadline); Traced(v.trace, v.entries, v.next)
  {
    hide Deliveries, Open, WellTraced;
    var v := Take(w, s, consumer, deadline);
    TraceSnoc(w.trace, Delivered(s), s);
    assert TracedAt(w.trace, w.entries, w.next, s);
    forall t: nat ensures TracedAt(v.trace, v.entries, v.next, t) {
      TraceSnoc(w.trace, Delivered(s), t);
      assert TracedAt(w.trace, w.entries, w.next, t);
    }
  }

  lemma AdmitTraced(w: Window, rec: Record, consumer: string, deadline: int)
    requires Traced(w.trace, w.entries, w.next) && w.next !in w.entries
    ensures var v := Admit(w, rec, consumer, deadline); Traced(v.trace, v.entries, v.next)
  {
    hide Deliveries, Open, WellTraced;
    var v := Admit(w, rec, consumer, deadline);
    TraceSnoc(w.trace, Delivered(w.next), w.next);
    assert TracedAt(w.trace, w.entries, w.next, w.next);
    forall t: nat ensures TracedAt(v.trace, v.entries, v.next, t) {
      TraceSnoc(w.trace, Delivered(w.next), t);
      assert TracedAt(w.trace, w.entries, w.next, t);
    }
  }

  lemma ReleaseTraced(w: Window, s: nat, clean: bool)
    requires Traced(w.trace, w.entries, w.next) && s in w.entries
    ensures var v := Release(w, s, clean); Traced(v.trace, v.entries, v.next)
  {
    hide Deliveries, Open, WellTraced;
    var v := Release(w, s, clean);
    TraceSnoc(w.trace, Released(s), s);
    forall t: nat ensures TracedAt(v.trace, v.entries, v.next, t) {
      TraceSnoc(w.trace, Released(s), t);
      assert TracedAt(w.trace, w.entries, w.next, t);
    }
  }

  /** Leasing one record once more, from below the limit. */
  lemma LeaseWithin(trace: seq<Event>, entries: map<nat, Entry>, max: nat, s: nat, e: Entry)
    requires Within(trace, entries, max) && Deliveries(trace, s) < max && e.status == Acquired
    ensures Within(trace + [Delivered(s)], entries[s := e], max)
  {
    hide Deliveries;
    var trace', entries' := trace + [Delivered(s)], entries[s := e];
    forall t: nat ensures WithinAt(trace', entries', max, t) {
      TraceSnoc(trace, Delivered(s), t);
      assert WithinAt(trace, entries, max, t);
    }
  }

  lemma FreeWithin(trace: seq<Event>, entries: map<nat, Entry>, max: nat, s: nat)
    requires Within(trace, entries, max) && s in entries && entries[s].count < max
    ensures Within(trace + [Released(s)], entries[s := Freed(entries[s])], max)
  {
    hide Deliveries;
    var trace', entries' := trace + [Released(s)], entries[s := Freed(entries[s])];
    forall t: nat ensures WithinAt(trace', entries', max, t) {
      TraceSnoc(trace, Released(s), t);
      assert WithinAt(trace, entries, max, t);
    }
  }

  lemma FewerTraced(w: Window, entries: map<nat, Entry>, next: nat)
    requires Traced(w.trace, w.entries, w.next) && next >= w.next
    requires forall s :: s in entries ==> s in w.entries && entries[s] == w.entries[s]
    ensures Traced(w.trace, entries, next)
  {
    hide Deliveries, Open, WellTraced;
    forall t: nat ensures TracedAt(w.trace, entries, next, t) {
      assert TracedAt(w.trace, w.entries, w.next, t);
    }
  }

  lemma FewerWithin(trace: seq<Event>, entries: map<nat, Entry>, entries': map<nat, Entry>, max: nat)
    requires Within(trace, entries, max)
    requires forall s :: s in entries' ==> s in entries && entries'[s] == entries[s]
    ensures Within(trace, entries', max)
  {
    hide Deliveries;
    forall t: nat ensures WithinAt(trace, entries', max, t) {
      assert WithinAt(trace, entries, max, t);
    }
  }

  lemma TakeOk(w: Window, s: nat, consumer: string, deadline: int, d: nat, f: nat)
    requires Ok(w, d, f) && IsAvailable(w.entries, s)
    ensures Ok(Take(w, s, consumer, deadline), d, f)
  {
    hide Traced, Within, Tallied, CursorSafe;
    var v := Take(w, s, consumer, deadline);
    TakeTraced(w, s, consumer, deadline);
    CountOf(w, s);
    if w.clean {
      BelowLimit(w, d, s);
      LeaseWithin(w.trace, w.entries, d, s, v.entries[s]);
    }
    SameTally(w, v);
  }

  lemma CountOf(w: Window, s: nat)
    requires Traced(w.trace, w.entries, w.next)
    ensures s in w.entries ==> Deliveries(w.trace, s) == w.entries[s].count >= 1
    ensures s >= w.next ==> Deliveries(w.trace, s) == 0
  {
    assert TracedAt(w.trace, w.entries, w.next, s);
  }

  lemma BelowLimit(w: Window, d: nat, s: nat)
    requires Within(w.trace, w.entries, d) && IsAvailable(w.entries, s)
    ensures w.entries[s].count < d
  {
    assert WithinAt(w.trace, w.entries, d, s);
  }

  lemma SameTally(w: Window, v: Window)
    requires Tallied(w) && v.base == w.base && v.first == w.first && v.retired == w.retired
    requires v.finished == w.finished && v.skipped == w.skipped
    ensures Tallied(v)
  {
  }

  lemma AdmitOk(w: Window, rec: Record, consumer: string, deadline: int, d: nat, f: nat)
    requires Ok(w, d, f) && w.next - w.base < f && d > 0
    ensures Ok(Admit(w, rec, consumer, deadline), d, f)
  {
    hide Traced, Within, Tallied, CursorSafe;
    var v := Admit(w, rec, consumer, deadline);
    AdmitTraced(w, rec, consumer, deadline);
    CountOf(w, w.next);
    if w.clean { LeaseWithin(w.trace, w.entries, d, w.next, v.entries[w.next]); }
    SameTally(w, v);
  }

  lemma ReleaseOk(w: Window, s: nat, clean: bool, d: nat, f: nat)
    requires Ok(w, d, f) && s in w.entries && w.entries[s].status == Acquired
    requires clean ==> w.entries[s].count < d
    ensures Ok(Release(w, s, clean), d, f)
  {
    hide Traced, Within, Tallied, CursorSafe;
    var v := Release(w, s, clean);
    ReleaseTraced(w, s, clean);
    if v.clean { FreeWithin(w.trace, w.entries, d, s); }
    SameTally(w, v);
  }

  lemma RetireOk(w: Window, s: nat, d: nat, f: nat)
    requires Ok(w, d, f) && s in w.entries && w.entries[s].status == Acquired
    ensures Ok(Retire(w, s), d, f)
  {
    hide Traced, Within;
    var v := Retire(w, s);
    FewerTraced(w, v.entries, v.next);
    if w.clean { FewerWithin(w.trace, w.entries, v.entries, d); }
  }

  lemma SlideOk(w: Window, d: nat, f: nat)
    requires Ok(w, d, f) && w.base in w.retired
    ensures Ok(Slide(w), d, f)
  {
    hide Traced, Within;
  }

  lemma SkipOk(w: Window, to: nat, d: nat, f: nat)
    requires Ok(w, d, f) && to > w.base
    ensures Ok(Skip(w, to), d, f)
  {
    hide Traced, Within;
    var v := Skip(w, to);
    FewerTraced(w, v.entries, v.next);
    if w.clean { FewerWithin(w.trace, w.entries, v.entries, d); }
  }

  lemma DropOk(w: Window, s: nat, d: nat, f: nat)
    requires Ok(w, d, f) && s in w.heap && !IsAvailable(w.entries, s)
    ensures Ok(Drop(w, s), d, f)
  {
    hide Traced, Within, CursorSafe, Tallied, Covers;
    SameTally(w, Drop(w, s));
  }

  // --- whole sessions ----------------------------------------------------

  /** The window as it opens: at the cursor c, or at the retention horizon if that is higher. */
  ghost function Opened(c: nat, horizon: nat, done: set<nat>): Window {
    var b := if c < horizon then horizon else c;
    Window(b, b, map[], {}, multiset{}, b, [], done, 0, horizon, false, true)
  }

  lemma OpenedOk(c: nat, horizon: nat, done: set<nat>, d: nat, f: nat)
    requires CursorSafe(c, done, horizon)
    ensures Ok(Opened(c, horizon, done), d, f)
  {
    var w := Opened(c, horizon, done);
    forall t: nat ensures TracedAt(w.trace, w.entries, w.next, t) {}
    forall t: nat ensures WithinAt(w.trace, w.entries, d, t) {}
  }

  /** Any committed cursor, or an older one, under the same or a later horizon, is safe to restart from. */
  lemma OlderCursorSafe(c: nat, c': nat, done: set<nat>, horizon: nat, horizon': nat)
    requires CursorSafe(c, done, horizon) && c' <= c && horizon <= horizon'
    ensures CursorSafe(c', done, horizon')
  {
  }

  /** At least once: after a crash the window restarts at or below every unfinished retained record,
      with that record still to be read. */
  lemma RestartReaches(w: Window, c: nat, horizon: nat, s: nat, d: nat, f: nat)
    requires Ok(w, d, f) && c <= w.base && w.horizon <= horizon
    requires s !in w.done && s >= horizon
    ensures var v := Opened(c, horizon, w.done); Ok(v, d, f) && v.next <= s
  {
    hide Ok, Opened;
    BaseSafe(w, d, f);
    OlderCursorSafe(w.base, c, w.done, w.horizon, horizon);
    OpenedOk(c, horizon, w.done, d, f);
    StartsBelow(c, horizon, w.done, s);
  }

  lemma BaseSafe(w: Window, d: nat, f: nat)
    requires Ok(w, d, f)
    ensures CursorSafe(w.base, w.done, w.horizon)
  {
  }

  lemma StartsBelow(c: nat, horizon: nat, done: set<nat>, s: nat)
    requires CursorSafe(c, done, horizon) && s !in done && s >= horizon
    ensures Opened(c, horizon, done).next <= s
  {
  }

  datatype Move =
    | TakeMove(s: nat, consumer: string, deadline: int) | AdmitMove(rec: Record, consumer: string, deadline: int)
    | ReleaseMove(s: nat, clean: bool) | RetireMove(s: nat) | SlideMove | SkipMove(f: nat)
    | DropMove(s: nat)

  ghost predicate Enabled(w: Window, m: Move, d: nat, f: nat) {
    match m
    case TakeMove(s, _, _) => IsAvailable(w.entries, s)
    case AdmitMove(_, _, _) => w.next - w.base < f
    case ReleaseMove(s, clean) =>
      s in w.entries && w.entries[s].status == Acquired && (clean ==> w.entries[s].count < d)
    case RetireMove(s) => s in w.entries && w.entries[s].status == Acquired
    case SlideMove => w.base in w.retired
    case SkipMove(to) => to > w.base
    case DropMove(s) => s in w.heap && !IsAvailable(w.entries, s)
  }

  ghost function Step(w: Window, m: Move, d: nat, f: nat): Window
    requires Enabled(w, m, d, f)
  {
    match m
    case TakeMove(s, consumer, deadline) => Take(w, s, consumer, deadline)
    case AdmitMove(rec, consumer, deadline) => Admit(w, rec, consumer, deadline)
    case ReleaseMove(s, clean) => Release(w, s, clean)
    case RetireMove(s) => Retire(w, s)
    case SlideMove => Slide(w)
    case SkipMove(to) => Skip(w, to)
    case DropMove(s) => Drop(w, s)
  }

  /** v is reached from w by enabled moves. */
  ghost predicate Reaches(w: Window, ms: seq<Move>, v: Window, d: nat, f: nat)
    decreases |ms|
  {
    if ms == [] then v == w
    else Enabled(w, ms[0], d, f) && Reaches(Step(w, ms[0], d, f), ms[1..], v, d, f)
  }

  lemma StepOk(w: Window, m: Move, d: nat, f: nat)
    requires Ok(w, d, f) && Enabled(w, m, d, f) && d > 0
    ensures Ok(Step(w, m, d, f), d, f)
  {
    hide Ok, Take, Admit, Release, Retire, Slide, Skip, Drop;
    match m
    case TakeMove(s, consumer, deadline) => TakeOk(w, s, consumer, deadline, d, f);
    case AdmitMove(rec, consumer, deadline) => AdmitOk(w, rec, consumer, deadline, d, f);
    case ReleaseMove(s, clean) => ReleaseOk(w, s, clean, d, f);
    case RetireMove(s) => RetireOk(w, s, d, f);
    case SlideMove => SlideOk(w, d, f);
    case SkipMove(to) => SkipOk(w, to, d, f);
    case DropMove(s) => DropOk(w, s, d, f);
  }

  /** The window invariant holds in every reachable state. */
  lemma {:induction false} RunOk(w: Window, ms: seq<Move>, v: Window, d: nat, f: nat)
    requires Ok(w, d, f) && d > 0 && Reaches(w, ms, v, d, f)
    ensures Ok(v, d, f)
    decreases |ms|
  {
    hide Ok, Step;
    if ms != [] {
      StepOk(w, ms[0], d, f);
      RunOk(Step(w, ms[0], d, f), ms[1..], v, d, f);
    }
  }

  lemma DeliveryBound(w: Window, d: nat, f: nat, s: nat)
    requires Ok(w, d, f) && w.clean
    ensures Deliveries(w.trace, s) <= d && WellTraced(w.trace)
  {
    assert WithinAt(w.trace, w.entries, d, s);
  }

  /** Every release is a nack or an expiry below the delivery limit. */
  ghost predicate CleanMoves(ms: seq<Move>) {
    forall i :: 0 <= i < |ms| && ms[i].ReleaseMove? ==> ms[i].clean
  }

  lemma {:induction false} StaysClean(w: Window, ms: seq<Move>, v: Window, d: nat, f: nat)
    requires w.clean && CleanMoves(ms) && Reaches(w, ms, v, d, f)
    ensures v.clean
    decreases |ms|
  {
    hide Enabled;
    if ms != [] { StaysClean(Step(w, ms[0], d, f), ms[1..], v, d, f); }
  }

  /** While every lease ends by ack, nack or expiry and the dead-letter route works, no record is
      delivered more than maxDelivery times in a session, and never while it is still leased. */
  lemma SessionBound(c: nat, horizon: nat, done: set<nat>, ms: seq<Move>, v: Window, d: nat, f: nat, s: nat)
    requires CursorSafe(c, done, horizon) && d > 0
    requires Reaches(Opened(c, horizon, done), ms, v, d, f) && CleanMoves(ms)
    ensures Deliveries(v.trace, s) <= d && WellTraced(v.trace)
  {
    hide Ok, CleanMoves, CursorSafe;
    OpenedOk(c, horizon, done, d, f);
    RunOk(Opened(c, horizon, done), ms, v, d, f);
    StaysClean(Opened(c, horizon, done), ms, v, d, f);
    DeliveryBound(v, d, f, s);
  }

  /** A sequence below `next` that is not in the window is never delivered again, whatever the log holds there now:
      a record rewritten at it after a truncation included. */
  lemma {:induction false} NeverAgain(w: Window, ms: seq<Move>, v: Window, d: nat, f: nat, s: nat)
    requires Reaches(w, ms, v, d, f) && s < w.next && s !in w.entries
    ensures s < v.next && s !in v.entries && Deliveries(v.trace, s) == Deliveries(w.trace, s)
    decreases |ms|
  {
    hide Deliveries, Step, Enabled;
    if ms != [] {
      PassedBy(w, ms[0], d, f, s);
      NeverAgain(Step(w, ms[0], d, f), ms[1..], v, d, f, s);
    }
  }

  lemma PassedBy(w: Window, m: Move, d: nat, f: nat, s: nat)
    requires Enabled(w, m, d, f) && s < w.next && s !in w.entries
    ensures var v := Step(w, m, d, f); s < v.next && s !in v.entries && Deliveries(v.trace, s) == Deliveries(w.trace, s)
  {
    hide Deliveries;
    match m
    case TakeMove(t, _, _) => TraceSnoc(w.trace, Delivered(t), s);
    case AdmitMove(_, _, _) => TraceSnoc(w.trace, Delivered(w.next), s);
    case ReleaseMove(t, _) => TraceSnoc(w.trace, Released(t), s);
    case _ =>
  }

  /** The window holds nothing. */
  predicate Bare(w: Window) {
    w.entries == map[] && w.retired == {} && w.base == w.next
  }

  /** Record by record, each acked, and the k-th after the first delivered. */
  ghost function Working(b: nat, k: nat, rec: Record): seq<Move>
    decreases k
  {
    if k == 0 then [AdmitMove(rec, "", 0)]
    else [AdmitMove(rec, "", 0), RetireMove(b), SlideMove] + Working(b + 1, k - 1, rec)
  }

  lemma WorkOne(w: Window, rec: Record, d: nat, f: nat) returns (v: Window)
    requires Bare(w) && f > 0
    ensures Enabled(w, AdmitMove(rec, "", 0), d, f)
    ensures var x := Step(w, AdmitMove(rec, "", 0), d, f);
      && Enabled(x, RetireMove(w.base), d, f)
      && var y := Step(x, RetireMove(w.base), d, f);
      Enabled(y, SlideMove, d, f) && v == Step(y, SlideMove, d, f)
    ensures Bare(v) && v.base == w.base + 1
  {
    var x := Admit(w, rec, "", 0);
    var y := Retire(x, w.base);
    v := Slide(y);
    assert y.entries == map[];
    assert v.retired == {};
  }

  lemma {:induction false} WorkThrough(w: Window, k: nat, rec: Record, d: nat, f: nat) returns (v: Window)
    requires Bare(w) && f > 0
    ensures Reaches(w, Working(w.base, k, rec), v, d, f) && Deliveries(v.trace, w.base + k) > 0
    decreases k
  {
    hide Deliveries, Enabled, Step;
    var ms := Working(w.base, k, rec);
    if k == 0 {
      v := AdmitsNext(w, rec, d, f);
      assert ms[1..] == [];
    } else {
      var u := WorkOne(w, rec, d, f);
      v := WorkThrough(u, k - 1, rec, d, f);
      var rest := Working(w.base + 1, k - 1, rec);
      var x := Step(w, AdmitMove(rec, "", 0), d, f);
      var y := Step(x, RetireMove(w.base), d, f);
      ReachesFirst(y, SlideMove, rest, v, d, f);
      ReachesFirst(x, RetireMove(w.base), [SlideMove] + rest, v, d, f);
      ReachesFirst(w, AdmitMove(rec, "", 0), [RetireMove(w.base)] + ([SlideMove] + rest), v, d, f);
      assert ms == [AdmitMove(rec, "", 0)] + ([RetireMove(w.base)] + ([SlideMove] + rest));
    }
  }

  lemma ReachesFirst(w: Window, m: Move, ms: seq<Move>, v: Window, d: nat, f: nat)
    requires Enabled(w, m, d, f) && Reaches(Step(w, m, d, f), ms, v, d, f)
    ensures Reaches(w, [m] + ms, v, d, f)
  {
    hide Enabled, Step;
    assert ([m] + ms)[1..] == ms;
  }

  lemma AdmitsNext(w: Window, rec: Record, d: nat, f: nat) returns (v: Window)
    requires Bare(w) && f > 0
    ensures Enabled(w, AdmitMove(rec, "", 0), d, f) && v == Step(w, AdmitMove(rec, "", 0), d, f)
    ensures Deliveries(v.trace, w.base) > 0
  {
    hide Deliveries;
    v := Admit(w, rec, "", 0);
    TraceSnoc(w.trace, Delivered(w.next), w.base);
  }

  /** Which sequences a session can still deliver: exactly those at or past the cursor and the horizon. Where the log
      was truncated below the cursor, the records rewritten in between are not among them. */
  lemma OpenedDeliversIff(c: nat, horizon: nat, done: set<nat>, rec: Record, d: nat, f: nat, s: nat)
    requires f > 0
    ensures (exists ms, v :: Reaches(Opened(c, horizon, done), ms, v, d, f) && Deliveries(v.trace, s) > 0) <==>
      s >= c && s >= horizon
  {
    hide Deliveries, Reaches;
    var w := Opened(c, horizon, done);
    assert Deliveries(w.trace, s) == 0 by { NothingYet(s); }
    if s >= c && s >= horizon {
      var v := WorkThrough(w, s - w.base, rec, d, f);
    } else {
      forall ms, v | Reaches(w, ms, v, d, f) ensures Deliveries(v.trace, s) == 0 {
        NeverAgain(w, ms, v, d, f, s);
      }
    }
  }

  lemma NothingYet(s: nat)
    ensures Deliveries([], s) == 0
  {
  }

  /** Given back whatever the count says, and taken again, n times over. */
  ghost function Retries(s: nat, n: nat): seq<Move> {
    if n == 0 then [] else [ReleaseMove(s, false), TakeMove(s, "", 0)] + Retries(s, n - 1)
  }

  lemma Retry(w: Window, s: nat, d: nat, f: nat) returns (v: Window)
    requires s in w.entries && w.entries[s].status == Acquired
    ensures Enabled(w, ReleaseMove(s, false), d, f)
    ensures var u := Step(w, ReleaseMove(s, false), d, f);
      Enabled(u, TakeMove(s, "", 0), d, f) && v == Step(u, TakeMove(s, "", 0), d, f)
    ensures s in v.entries && v.entries[s].status == Acquired && Deliveries(v.trace, s) == Deliveries(w.trace, s) + 1
  {
    hide Deliveries;
    v := Take(Release(w, s, false), s, "", 0);
    TraceSnoc(w.trace, Released(s), s);
    TraceSnoc(w.trace + [Released(s)], Delivered(s), s);
  }

  /** Releases that ignore the limit (no working dead-letter route, a departing consumer) allow any number of
      deliveries. */
  lemma {:induction false} Unbounded(w: Window, s: nat, n: nat, d: nat, f: nat) returns (v: Window)
    requires s in w.entries && w.entries[s].status == Acquired
    ensures Reaches(w, Retries(s, n), v, d, f) && Deliveries(v.trace, s) == Deliveries(w.trace, s) + n
    decreases n
  {
    hide Deliveries, Enabled, Step;
    if n == 0 {
      v := w;
    } else {
      var u := Retry(w, s, d, f);
      v := Unbounded(u, s, n - 1, d, f);
      var ms := Retries(s, n);
      assert ms[1..] == [TakeMove(s, "", 0)] + Retries(s, n - 1);
      assert ms[1..][1..] == Retries(s, n - 1);
    }
  }
}
