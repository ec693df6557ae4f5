/** The leadership history of one partition: where each term began. */
module EpochHistory {

  const UNDEFINED_EPOCH: nat := 0

  /** `start` is the first sequence assigned under `epoch`. */
  datatype Entry = Entry(epoch: nat, start: nat)

  /** Terms strictly increase, starts never decrease, and no term is the undefined one. */
  predicate Sorted(h: seq<Entry>) {
    && (forall i :: 0 <= i < |h| ==> h[i].epoch > 0)
    && (forall i, j :: 0 <= i < j < |h| ==> h[i].epoch < h[j].epoch && h[i].start <= h[j].start)
  }

  /** sort.Search for the first entry that starts after `s`. */
  function FirstStartAbove(h: seq<Entry>, s: int): (k: nat)
    requires Sorted(h)
    ensures k <= |h|
    ensures forall j :: 0 <= j < k ==> h[j].start <= s
    ensures forall j :: k <= j < |h| ==> h[j].start > s
  {
    if |h| == 0 || h[|h| - 1].start <= s then |h| else FirstStartAbove(h[..|h| - 1], s)
  }

  /** sort.Search for the first entry of a term after `e`. */
  function FirstEpochAbove(h: seq<Entry>, e: int): (k: nat)
    requires Sorted(h)
    ensures k <= |h|
    ensures forall j :: 0 <= j < k ==> h[j].epoch <= e
    ensures forall j :: k <= j < |h| ==> h[j].epoch > e
  {
    if |h| == 0 || h[|h| - 1].epoch <= e then |h| else FirstEpochAbove(h[..|h| - 1], e)
  }

  function LatestEpoch(h: seq<Entry>): nat {
    if h == [] then UNDEFINED_EPOCH else h[|h| - 1].epoch
  }

  /** The term that covers sequence `s`. */
  function EpochForSeq(h: seq<Entry>, s: int): nat
    requires Sorted(h)
  {
    var k := FirstStartAbove(h, s);
    if k == 0 then UNDEFINED_EPOCH else h[k - 1].epoch
  }

  /** The leader's answer to "where did term `e` end?". */
  datatype EpochEnd = EpochEnd(epoch: nat, end: nat)

  function EndOffsetFor(h: seq<Entry>, e: nat, logEnd: nat): EpochEnd
    requires Sorted(h)
  {
    if h == [] then EpochEnd(UNDEFINED_EPOCH, 0)
    else if e >= h[|h| - 1].epoch then EpochEnd(h[|h| - 1].epoch, logEnd)
    else
      var k := FirstEpochAbove(h, e);
      if k == 0 then EpochEnd(UNDEFINED_EPOCH, 0)
      else EpochEnd(h[k - 1].epoch, h[k].start)
  }

  /** Term i is the latest not past `e`, and a names it and where it ended. */
  predicate Ended(h: seq<Entry>, e: nat, i: nat, logEnd: nat, a: EpochEnd)
    requires i < |h|
  {
    && h[i].epoch == a.epoch <= e
    && if i + 1 < |h| then e < h[i + 1].epoch && a.end == h[i + 1].start else a.end == logEnd
  }

  /** The answer names the latest term not past `e`, and ends it where the next one began, or with the log; there is
      no answer exactly when every term is past `e`. */
  lemma AnswerIs(h: seq<Entry>, e: nat, logEnd: nat)
    requires Sorted(h)
    ensures var a := EndOffsetFor(h, e, logEnd);
      && (a.epoch == UNDEFINED_EPOCH <==> forall i :: 0 <= i < |h| ==> h[i].epoch > e)
      && (a.epoch != UNDEFINED_EPOCH ==> exists i :: 0 <= i < |h| && Ended(h, e, i, logEnd, a))
  {
    if h != [] {
      var last := |h| - 1;
      var k := if e >= h[last].epoch then |h| else FirstEpochAbove(h, e);
      if k > 0 {
        assert h[k - 1].epoch <= e;
        assert Ended(h, e, k - 1, logEnd, EndOffsetFor(h, e, logEnd));
      } else {
        assert h[0].epoch > e;
      }
    }
  }

  /** Recording a term that is not newer is a no-op; one that would start before
      the latest is refused (`ok` false). */
  datatype Assigned = Assigned(entries: seq<Entry>, ok: bool)

  function AssignTerm(h: seq<Entry>, e: nat, start: nat): Assigned {
    if e == UNDEFINED_EPOCH then Assigned(h, true)
    else if h != [] && e <= h[|h| - 1].epoch then Assigned(h, true)
    else if h != [] && start < h[|h| - 1].start then Assigned(h, false)
    else Assigned(h + [Entry(e, start)], true)
  }

  /** Drops every term that began at or after `s`. */
  function CutFrom(h: seq<Entry>, s: nat): (r: seq<Entry>)
    requires Sorted(h)
    ensures r <= h && Sorted(r)
    ensures forall i :: 0 <= i < |h| ==> (h[i].start < s <==> i < |r|)
  {
    h[..FirstStartAbove(h, s - 1)]
  }

  /** The first term still needed once `s` is the oldest sequence. */
  function CutIndex(h: seq<Entry>, s: nat): (k: nat)
    requires Sorted(h)
    ensures k <= |h| && (k == 0 || (k < |h| && h[k].start <= s))
  {
    var i := FirstStartAbove(h, s);
    if i <= 1 then 0 else i - 1
  }

  /** Drops terms that ended before `s`, keeping the one that covers it. */
  function CutBefore(h: seq<Entry>, s: nat): (r: seq<Entry>)
    requires Sorted(h)
    ensures Sorted(r) && LatestEpoch(r) == LatestEpoch(h)
  {
    h[CutIndex(h, s)..]
  }

  /** What is left is the end of the history from the latest term begun by `s` on, or all of it when none has. */
  lemma CutBeforeIs(h: seq<Entry>, s: nat)
    requires Sorted(h)
    ensures var r := CutBefore(h, s);
      && |r| <= |h| && r == h[|h| - |r|..] && (forall i :: 1 <= i < |r| ==> r[i].start > s)
      && (|r| < |h| ==> r != [] && r[0].start <= s)
  {
  }

  /** The boundary index is determined by its two defining properties. */
  lemma FirstStartAboveUnique(h: seq<Entry>, s: int, k: nat)
    requires Sorted(h) && k <= |h|
    requires k > 0 ==> h[k - 1].start <= s
    requires k < |h| ==> h[k].start > s
    ensures FirstStartAbove(h, s) == k
  {
  }

  /** Cutting from `s` leaves the term of every earlier sequence as it was. */
  lemma CutFromKeepsTerms(h: seq<Entry>, s: nat, t: int)
    requires Sorted(h) && t < s
    ensures EpochForSeq(CutFrom(h, s), t) == EpochForSeq(h, t)
  {
    var c := CutFrom(h, s);
    var k := FirstStartAbove(h, t);
    assert k > 0 ==> h[k - 1].start < s;
    FirstStartAboveUnique(c, t, k);
  }

  /** A suffix of the history answers like the whole wherever it reaches. */
  lemma SuffixKeepsTerms(h: seq<Entry>, k: nat, t: int)
    requires Sorted(h) && k < |h| && h[k].start <= t
    ensures Sorted(h[k..]) && EpochForSeq(h[k..], t) == EpochForSeq(h, t)
  {
    var j := FirstStartAbove(h, t);
    FirstStartAboveUnique(h[k..], t, j - k);
  }

  /** Cutting before `s` leaves the term of `s` and everything later as it was,
      and of every earlier sequence the shortened history still covers. */
  lemma CutBeforeKeepsTerms(h: seq<Entry>, s: nat, t: int)
    requires Sorted(h)
    requires t >= s || (CutBefore(h, s) != [] && t >= CutBefore(h, s)[0].start)
    ensures EpochForSeq(CutBefore(h, s), t) == EpochForSeq(h, t)
  {
    var k := CutIndex(h, s);
    if k > 0 { SuffixKeepsTerms(h, k, t); }
  }

  lemma SuffixIndex(h: seq<Entry>, k: nat, t: int)
    requires Sorted(h) && k <= FirstStartAbove(h, t)
    ensures Sorted(h[k..]) && FirstStartAbove(h[k..], t) == FirstStartAbove(h, t) - k
  {
    hide FirstStartAbove;
    var j := FirstStartAbove(h, t);
    if k < j { assert h[k..][j - k - 1] == h[j - 1]; }
    if j < |h| { assert h[k..][j - k] == h[j]; }
    FirstStartAboveUnique(h[k..], t, j - k);
  }

  lemma FirstStartRises(h: seq<Entry>, s: int, t: int)
    requires Sorted(h) && s <= t
    ensures FirstStartAbove(h, s) <= FirstStartAbove(h, t)
  {
    hide FirstStartAbove;
    var j := FirstStartAbove(h, t);
    assert j < |h| ==> h[j].start > t;
  }

  /** Cutting twice is cutting at the later point. */
  lemma CutBeforeTwice(h: seq<Entry>, s: nat, t: nat)
    requires Sorted(h) && s <= t
    ensures CutBefore(CutBefore(h, s), t) == CutBefore(h, t)
  {
    hide FirstStartAbove, Sorted;
    var k := CutIndex(h, s);
    FirstStartRises(h, s, t);
    SuffixIndex(h, k, t);
    assert CutIndex(h, t) == k + CutIndex(h[k..], t);
  }

  /** Sequences before a later term belong to older ones. */
  lemma OlderTermsBelow(h: seq<Entry>, k: nat, t: int)
    requires Sorted(h) && k < |h| && t < h[k].start
    ensures EpochForSeq(h, t) < h[k].epoch
  {
  }

  /** The checkpointed history of a partition, updated in place. */
  class LeaderEpochCache {
    var entries: seq<Entry>

    ghost predicate Valid()
      reads this
    {
      Sorted(entries)
    }

    constructor ()
      ensures Valid() && entries == []
    {
      entries := [];
    }

    method Assign(epoch: nat, start: nat) returns (ok: bool)
      requires Valid()
      modifies this
      ensures Valid()
      ensures Assigned(entries, ok) == AssignTerm(old(entries), epoch, start)
    {
      if epoch == UNDEFINED_EPOCH { return true; }
      var n := |entries|;
      if n > 0 {
        var last := entries[n - 1];
        if epoch <= last.epoch { return true; }
        if start < last.start { return false; }
      }
      entries := entries + [Entry(epoch, start)];
      return true;
    }

    method TruncateFromSeq(s: nat)
      requires Valid()
      modifies this
      ensures Valid()
      ensures entries == CutFrom(old(entries), s)
    {
      var i := FirstStartAbove(entries, s - 1);
      if i == |entries| { return; }
      entries := entries[..i];
    }

    method TruncateBeforeSeq(s: nat)
      requires Valid()
      modifies this
      ensures Valid()
      ensures entries == CutBefore(old(entries), s)
    {
      var i := FirstStartAbove(entries, s);
      if i <= 1 { return; }
      entries := entries[i - 1..];
    }
  }
}
