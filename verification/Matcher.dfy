/** The two topic matchers: exchange bindings and access rules, after the topic exchange of
    AMQP 0-9-1, section 3.1.3.3. `*` stands for one word, `#` for any number of words. */
module Matcher {

  // --- what a pattern means ----------------------------------------------

  /** The words one symbol of a pattern can stand for. */
  predicate StandsFor(symbol: string, words: seq<string>) {
    symbol == "#" || (|words| == 1 && (symbol == "*" || symbol == words[0]))
  }

  function Joined(parts: seq<seq<string>>): seq<string> {
    if parts == [] then [] else parts[0] + Joined(parts[1..])
  }

  /** parts reads the pattern symbol by symbol. */
  predicate Reading(parts: seq<seq<string>>, pattern: seq<string>) {
    |parts| == |pattern| && forall i :: 0 <= i < |parts| ==> StandsFor(pattern[i], parts[i])
  }

  /** Some reading of the pattern yields exactly the words. */
  ghost predicate Generates(pattern: seq<string>, words: seq<string>) {
    exists parts :: Reading(parts, pattern) && Joined(parts) == words
  }

  // --- the same, computed ------------------------------------------------

  predicate Accepts(words: seq<string>, pattern: seq<string>)
    decreases |pattern|, 0
  {
    if pattern == [] then words == []
    else if pattern[0] == "#" then AcceptsFrom(words, pattern[1..], 0)
    else words != [] && (pattern[0] == "*" || pattern[0] == words[0]) && Accepts(words[1..], pattern[1..])
  }

  /** The pattern takes the words from some position k or later. */
  predicate AcceptsFrom(words: seq<string>, pattern: seq<string>, k: nat)
    decreases |pattern|, 1, |words| - k
  {
    k <= |words| && (Accepts(words[k..], pattern) || AcceptsFrom(words, pattern, k + 1))
  }

  lemma {:induction false} AcceptsFromIntro(words: seq<string>, pattern: seq<string>, j: nat, k: nat)
    requires j <= k <= |words| && Accepts(words[k..], pattern)
    ensures AcceptsFrom(words, pattern, j)
    decreases k - j
  {
    if j < k { AcceptsFromIntro(words, pattern, j + 1, k); }
  }

  lemma {:induction false} AcceptsFromElim(words: seq<string>, pattern: seq<string>, j: nat) returns (k: nat)
    requires AcceptsFrom(words, pattern, j)
    ensures j <= k <= |words| && Accepts(words[k..], pattern)
    decreases |words| - j
  {
    if Accepts(words[j..], pattern) { k := j; } else { k := AcceptsFromElim(words, pattern, j + 1); }
  }

  lemma {:induction false} AcceptsIsGenerated(words: seq<string>, pattern: seq<string>)
    returns (parts: seq<seq<string>>)
    requires Accepts(words, pattern)
    ensures Reading(parts, pattern) && Joined(parts) == words
    decreases |pattern|
  {
    if pattern == [] {
      parts := [];
    } else {
      var k := 1;
      if pattern[0] == "#" { k := AcceptsFromElim(words, pattern[1..], 0); }
      var rest := AcceptsIsGenerated(words[k..], pattern[1..]);
      parts := [words[..k]] + rest;
      assert parts[1..] == rest && words[..k] + words[k..] == words;
      forall i | 0 <= i < |parts| ensures StandsFor(pattern[i], parts[i]) {
        if i > 0 { assert parts[i] == rest[i - 1] && pattern[i] == pattern[1..][i - 1]; }
      }
    }
  }

  lemma {:induction false} GeneratedIsAccepted(parts: seq<seq<string>>, pattern: seq<string>)
    requires Reading(parts, pattern)
    ensures Accepts(Joined(parts), pattern)
    decreases |pattern|
  {
    if pattern != [] {
      var words := Joined(parts);
      assert Reading(parts[1..], pattern[1..]);
      GeneratedIsAccepted(parts[1..], pattern[1..]);
      var k := |parts[0]|;
      assert words[k..] == Joined(parts[1..]);
      assert StandsFor(pattern[0], parts[0]);
      if pattern[0] == "#" { AcceptsFromIntro(words, pattern[1..], 0, k); }
    }
  }

  /** The computed form accepts exactly the words the pattern generates. */
  lemma AcceptsIffGenerates(words: seq<string>, pattern: seq<string>)
    ensures Accepts(words, pattern) <==> Generates(pattern, words)
  {
    if Accepts(words, pattern) { var parts := AcceptsIsGenerated(words, pattern); }
    if Generates(pattern, words) {
      var parts :| Reading(parts, pattern) && Joined(parts) == words;
      GeneratedIsAccepted(parts, pattern);
    }
  }

  // --- words -------------------------------------------------------------

  /** strings.Split at dots: always at least one word. */
  function Words(s: string): (w: seq<string>)
    ensures |w| > 0
  {
    if s == "" then [""]
    else
      var rest := Words(s[1..]);
      if s[0] == '.' then [""] + rest else [[s[0]] + rest[0]] + rest[1..]
  }

  function Dotted(w: seq<string>): string
    requires |w| > 0
  {
    if |w| == 1 then w[0] else w[0] + "." + Dotted(w[1..])
  }

  lemma {:induction false} WordsRoundTrip(s: string)
    ensures Dotted(Words(s)) == s && forall i :: 0 <= i < |Words(s)| ==> '.' !in Words(s)[i]
    decreases |s|
  {
    if s != "" {
      var rest := Words(s[1..]);
      WordsRoundTrip(s[1..]);
      var w := Words(s);
      if s[0] == '.' {
        assert w[1..] == rest;
      } else {
        assert w[1..] == rest[1..];
      }
    }
  }

  // --- the matchers ------------------------------------------------------

  /** What a `#` at the head of the pattern asks of the words from ri on. */
  lemma HashHere(words: seq<string>, ri: nat, p: seq<string>, pi: nat)
    requires ri <= |words| && pi < |p| && p[pi] == "#"
    ensures Accepts(words[ri..], p[pi..]) <==> exists k :: ri <= k <= |words| && Accepts(words[k..], p[pi + 1..])
    ensures pi == |p| - 1 ==> Accepts(words[ri..], p[pi..])
  {
    assert p[pi..][1..] == p[pi + 1..];
    if Accepts(words[ri..], p[pi..]) {
      var k := AcceptsFromElim(words[ri..], p[pi + 1..], 0);
      assert words[ri..][k..] == words[ri + k..];
    }
    forall k | ri <= k <= |words| && Accepts(words[k..], p[pi + 1..]) ensures Accepts(words[ri..], p[pi..]) {
      assert words[ri..][k - ri..] == words[k..];
      AcceptsFromIntro(words[ri..], p[pi + 1..], 0, k - ri);
    }
    if pi == |p| - 1 { assert words[|words|..] == [] && p[pi + 1..] == []; }
  }

  /** Any other symbol takes one word. */
  lemma WordHere(words: seq<string>, ri: nat, p: seq<string>, pi: nat)
    requires ri <= |words| && pi < |p| && p[pi] != "#"
    ensures Accepts(words[ri..], p[pi..]) <==>
      ri < |words| && (p[pi] == "*" || p[pi] == words[ri]) && Accepts(words[ri + 1..], p[pi + 1..])
  {
    assert p[pi..][1..] == p[pi + 1..];
    if ri < |words| { assert words[ri..][1..] == words[ri + 1..]; }
  }

  /** The exchange's matcher: a `#` advances the position in place. */
  method MatchParts(r: seq<string>, ri0: nat, p: seq<string>, pi0: nat) returns (ok: bool)
    requires ri0 <= |r| && pi0 <= |p|
    ensures ok <==> Accepts(r[ri0..], p[pi0..])
    decreases |p| - pi0
  {
    hide Accepts;
    var ri: nat, pi: nat := ri0, pi0;
    while pi < |p|
      invariant ri <= |r| && pi0 <= pi <= |p|
      invariant Accepts(r[ri..], p[pi..]) <==> Accepts(r[ri0..], p[pi0..])
    {
      if p[pi] == "#" {
        HashHere(r, ri, p, pi);
        if pi == |p| - 1 { return true; }
        ghost var from := ri;
        while ri <= |r|
          invariant from <= ri <= |r| + 1
          invariant forall k :: from <= k < ri ==> !Accepts(r[k..], p[pi + 1..])
        {
          var sub := MatchParts(r, ri, p, pi + 1);
          if sub { return true; }
          ri := ri + 1;
        }
        return false;
      }
      WordHere(r, ri, p, pi);
      if ri >= |r| { return false; }
      if p[pi] != "*" && p[pi] != r[ri] { return false; }
      ri, pi := ri + 1, pi + 1;
    }
    PatternEnds(r, ri, p, pi);
    return ri == |r|;
  }

  lemma PatternEnds(r: seq<string>, ri: nat, p: seq<string>, pi: nat)
    requires ri <= |r| && pi == |p|
    ensures Accepts(r[ri..], p[pi..]) <==> ri == |r|
  {
  }

  /** The access rules' matcher: a `#` tries each position with its own counter. */
  method MatchSegments(t: seq<string>, ti0: nat, p: seq<string>, pi0: nat) returns (ok: bool)
    requires ti0 <= |t| && pi0 <= |p|
    ensures ok <==> Accepts(t[ti0..], p[pi0..])
    decreases |p| - pi0
  {
    hide Accepts;
    var ti: nat, pi: nat := ti0, pi0;
    while pi < |p|
      invariant ti <= |t| && pi0 <= pi <= |p|
      invariant Accepts(t[ti..], p[pi..]) <==> Accepts(t[ti0..], p[pi0..])
    {
      if p[pi] == "#" {
        HashHere(t, ti, p, pi);
        if pi == |p| - 1 { return true; }
        for i := ti to |t| + 1
          invariant forall k :: ti <= k < i ==> !Accepts(t[k..], p[pi + 1..])
        {
          var sub := MatchSegments(t, i, p, pi + 1);
          if sub { return true; }
        }
        return false;
      }
      WordHere(t, ti, p, pi);
      if ti >= |t| { return false; }
      if p[pi] != "*" && p[pi] != t[ti] { return false; }
      ti, pi := ti + 1, pi + 1;
    }
    PatternEnds(t, ti, p, pi);
    return ti == |t|;
  }

  method RoutingMatch(routingKey: string, pattern: string) returns (ok: bool)
    ensures ok <==> Generates(Words(pattern), Words(routingKey))
  {
    AcceptsIffGenerates(Words(routingKey), Words(pattern));
    ok := MatchParts(Words(routingKey), 0, Words(pattern), 0);
  }

  /** The same language, with a shortcut for the pattern that takes everything. */
  method AccessMatch(topic: string, pattern: string) returns (ok: bool)
    ensures ok <==> Generates(Words(pattern), Words(topic))
  {
    AcceptsIffGenerates(Words(topic), Words(pattern));
    if pattern == "#" {
      assert Words(pattern) == ["#"];
      HashHere(Words(topic), 0, Words(pattern), 0);
      return true;
    }
    ok := MatchSegments(Words(topic), 0, Words(pattern), 0);
  }
}
