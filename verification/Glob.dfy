/** Star patterns of the rule engine. A pattern means every string got by putting some text in the
    place of each star; the engine decides that with prefix, suffix and leftmost search. */
module Glob {
  import opened Text

  // ---------------------------------------------------------------- meaning

  function Stars(pattern: string): nat {
    if pattern == "" then 0 else (if pattern[0] == '*' then 1 else 0) + Stars(pattern[1..])
  }

  /** The pattern with its k-th star replaced by the k-th text. */
  function Instantiate(pattern: string, texts: seq<string>): string
    requires |texts| == Stars(pattern)
  {
    if pattern == "" then ""
    else if pattern[0] == '*' then texts[0] + Instantiate(pattern[1..], texts[1..])
    else [pattern[0]] + Instantiate(pattern[1..], texts)
  }

  ghost predicate Denotes(pattern: string, s: string) {
    exists texts: seq<string> :: |texts| == Stars(pattern) && Instantiate(pattern, texts) == s
  }

  // ---------------------------------------------------------------- what the engine computes

  predicate OccursAt(s: string, k: nat, part: string) {
    k + |part| <= |s| && s[k..k + |part|] == part
  }

  /** The first position from `pos` on where `part` occurs in `s`. */
  function IndexFrom(s: string, pos: nat, part: string): (r: Option<nat>)
    requires pos <= |s|
    ensures r.Some? ==> pos <= r.value && OccursAt(s, r.value, part)
    decreases |s| - pos
  {
    if OccursAt(s, pos, part) then Some(pos)
    else if pos == |s| then None
    else IndexFrom(s, pos + 1, part)
  }

  lemma {:induction false} IndexFromFirst(s: string, pos: nat, part: string, k: nat)
    requires pos <= k && OccursAt(s, k, part)
    ensures IndexFrom(s, pos, part).Some? && IndexFrom(s, pos, part).value <= k
    decreases k - pos
  {
    if !OccursAt(s, pos, part) {
      IndexFromFirst(s, pos + 1, part, k);
    }
  }

  /** Where the leftmost-greedy search stands after placing parts `i`, `i + 1`, ... from `pos` on. */
  function GreedyEnd(parts: seq<string>, i: nat, s: string, pos: nat): (r: Option<nat>)
    requires i <= |parts| && pos <= |s|
    ensures r.Some? ==> pos <= r.value <= |s|
    decreases |parts| - i
  {
    if i == |parts| then Some(pos)
    else if parts[i] == "" then GreedyEnd(parts, i + 1, s, pos)
    else if i == 0 && !HasPrefix(s, parts[0]) then None
    else
      match IndexFrom(s, pos, parts[i])
      case None => None
      case Some(k) => GreedyEnd(parts, i + 1, s, k + |parts[i]|)
  }

  predicate MultiStarAccepts(pattern: string, s: string) {
    var parts := Split(pattern, '*');
    var last := parts[|parts| - 1];
    GreedyEnd(parts, 0, s, 0).Some? && (last == "" || HasSuffix(s, last))
  }

  predicate GlobAccepts(pattern: string, s: string) {
    if pattern == "*" then true
    else if Stars(pattern) > 1 then MultiStarAccepts(pattern, s)
    else if Stars(pattern) == 0 then pattern == s
    else
      var parts := Split(pattern, '*');
      PartsCount(pattern);
      HasPrefix(s, parts[0]) && (parts[1] == "" || HasSuffix(s, parts[1]))
  }

  method MultiStarGlobMatch(pattern: string, s: string) returns (ok: bool)
    ensures ok <==> MultiStarAccepts(pattern, s)
  {
    var parts := Split(pattern, '*');
    var pos: nat := 0;
    for i := 0 to |parts|
      invariant pos <= |s|
      invariant GreedyEnd(parts, 0, s, 0) == GreedyEnd(parts, i, s, pos)
    {
      var part := parts[i];
      if part == "" {
        continue;
      }
      if i == 0 && !HasPrefix(s, part) {
        return false;
      }
      var idx := IndexFrom(s, pos, part);
      if idx.None? {
        return false;
      }
      pos := idx.value + |part|;
    }
    var last := parts[|parts| - 1];
    if last != "" && !HasSuffix(s, last) {
      return false;
    }
    return true;
  }

  method GlobMatch(pattern: string, s: string) returns (ok: bool)
    ensures ok <==> Denotes(pattern, s) || Overlaps(pattern, s)
  {
    GlobExact(pattern, s);
    if pattern == "*" {
      return true;
    }
    if Stars(pattern) > 1 {
      MultiStarIsMeaning(pattern, s);
      ok := MultiStarGlobMatch(pattern, s);
      return;
    }
    var parts := Split(pattern, '*');
    PartsCount(pattern);
    if |parts| == 1 {
      return pattern == s;
    }
    if !HasPrefix(s, parts[0]) {
      return false;
    }
    if parts[1] == "" {
      return true;
    }
    return HasSuffix(s, parts[1]);
  }

  // ---------------------------------------------------------------- parts and stars

  /** `parts[0] + texts[0] + parts[1] + ...` */
  function Fill(parts: seq<string>, texts: seq<string>): string
    requires |parts| == |texts| + 1
  {
    if texts == [] then parts[0] else parts[0] + texts[0] + Fill(parts[1..], texts[1..])
  }

  lemma {:induction false} PartsCount(pattern: string)
    ensures |Split(pattern, '*')| == Stars(pattern) + 1
  {
    if pattern != "" {
      PartsCount(pattern[1..]);
    }
  }

  lemma FillCons(c: char, parts: seq<string>, texts: seq<string>)
    requires |parts| == |texts| + 1
    ensures Fill([[c] + parts[0]] + parts[1..], texts) == [c] + Fill(parts, texts)
  {
    if texts != [] {
      assert ([[c] + parts[0]] + parts[1..])[1..] == parts[1..];
      var rest := Fill(parts[1..], texts[1..]);
      assert ([c] + parts[0]) + texts[0] + rest == [c] + (parts[0] + texts[0] + rest);
    }
  }

  lemma {:induction false} InstantiateIsFill(pattern: string, texts: seq<string>)
    requires |texts| == Stars(pattern)
    ensures |Split(pattern, '*')| == |texts| + 1
    ensures Instantiate(pattern, texts) == Fill(Split(pattern, '*'), texts)
  {
    PartsCount(pattern);
    if pattern != "" {
      var rest := Split(pattern[1..], '*');
      if pattern[0] == '*' {
        InstantiateIsFill(pattern[1..], texts[1..]);
        assert ([""] + rest)[1..] == rest;
      } else {
        InstantiateIsFill(pattern[1..], texts);
        FillCons(pattern[0], rest, texts);
      }
    }
  }

  // ---------------------------------------------------------------- greedy search is complete and sound

  /** `texts[0] + parts[0] + texts[1] + parts[1] + ...` */
  function Trail(parts: seq<string>, texts: seq<string>): string
    requires |parts| == |texts|
  {
    if parts == [] then "" else texts[0] + parts[0] + Trail(parts[1..], texts[1..])
  }

  lemma {:induction false} FillIsTrail(parts: seq<string>, texts: seq<string>)
    requires |parts| == |texts| + 1
    ensures Fill(parts, texts) == parts[0] + Trail(parts[1..], texts)
  {
    if texts != [] {
      FillIsTrail(parts[1..], texts[1..]);
      assert parts[1..][1..] == parts[2..];
    }
  }

  lemma PartAt(s: string, start: nat, text: string, part: string, rest: string)
    requires start <= |s| && s[start..] == text + part + rest
    ensures OccursAt(s, start + |text|, part) && s[start + |text| + |part|..] == rest
  {
    var at := start + |text|;
    assert s[at..] == s[start..][|text|..] == part + rest;
    assert s[at..at + |part|] == s[at..][..|part|] == part;
    assert s[at + |part|..] == s[at..][|part|..] == rest;
  }

  lemma Rejoin(s: string, pos: nat, k: nat, part: string)
    requires pos <= k && OccursAt(s, k, part)
    ensures s[pos..] == s[pos..k] + part + s[k + |part|..]
  {
    assert s[pos..] == s[pos..k] + s[k..k + |part|] + s[k + |part|..];
  }

  /** If the parts from `i` on can be laid out from `start`, the search from an earlier point succeeds. */
  lemma {:induction false} GreedyComplete(parts: seq<string>, i: nat, s: string, pos: nat, start: nat,
                                          texts: seq<string>)
    requires 1 <= i <= |parts| && pos <= start <= |s|
    requires |texts| == |parts| - i && s[start..] == Trail(parts[i..], texts)
    ensures GreedyEnd(parts, i, s, pos).Some?
    decreases |parts| - i
  {
    if i < |parts| {
      assert parts[i..][1..] == parts[i + 1..];
      var at := start + |texts[0]|;
      PartAt(s, start, texts[0], parts[i], Trail(parts[i + 1..], texts[1..]));
      if parts[i] == "" {
        GreedyComplete(parts, i + 1, s, pos, at, texts[1..]);
      } else {
        IndexFromFirst(s, pos, parts[i], at);
        var k := IndexFrom(s, pos, parts[i]);
        GreedyComplete(parts, i + 1, s, k.value + |parts[i]|, at + |parts[i]|, texts[1..]);
      }
    }
  }

  /** A successful search plus the suffix test gives a layout of the parts from `i` on. */
  lemma {:induction false} GreedySound(parts: seq<string>, i: nat, s: string, pos: nat) returns (texts: seq<string>)
    requires 1 <= i < |parts| && pos <= |s|
    requires GreedyEnd(parts, i, s, pos).Some?
    requires HasSuffix(s, parts[|parts| - 1])
    ensures |texts| == |parts| - i && s[pos..] == Trail(parts[i..], texts)
    decreases |parts| - i
  {
    if i == |parts| - 1 {
      texts := LastPart(parts, i, s, pos);
    } else {
      var k := if parts[i] == "" then pos else IndexFrom(s, pos, parts[i]).value;
      var rest := GreedySound(parts, i + 1, s, k + |parts[i]|);
      texts := [s[pos..k]] + rest;
      assert parts[i..][1..] == parts[i + 1..];
      TailOfCons(s[pos..k], rest);
      Rejoin(s, pos, k, parts[i]);
    }
  }

  lemma LastPart(parts: seq<string>, i: nat, s: string, pos: nat) returns (texts: seq<string>)
    requires i + 1 == |parts| && pos <= |s| && GreedyEnd(parts, i, s, pos).Some? && i >= 1
    requires HasSuffix(s, parts[i])
    ensures |texts| == 1 && s[pos..] == Trail(parts[i..], texts)
  {
    var k := |s| - |parts[i]|;
    texts := [s[pos..k]];
    Rejoin(s, pos, k, parts[i]);
    assert parts[i..] == [parts[i]] && [parts[i]][1..] == [] && texts[1..] == [];
    assert s[k + |parts[i]|..] == "";
  }

  /** After the first part the search stands at its end, provided the string starts with it. */
  lemma GreedyFirst(parts: seq<string>, s: string)
    requires |parts| >= 1
    ensures GreedyEnd(parts, 0, s, 0) ==
            if HasPrefix(s, parts[0]) then GreedyEnd(parts, 1, s, |parts[0]|) else None
  {
    if parts[0] != "" && HasPrefix(s, parts[0]) {
      assert s[0..|parts[0]|] == parts[0];
    }
  }

  lemma FillStarts(parts: seq<string>, texts: seq<string>, s: string)
    requires |parts| == |texts| + 1
    ensures Fill(parts, texts) == s <==> HasPrefix(s, parts[0]) && s[|parts[0]|..] == Trail(parts[1..], texts)
  {
    FillIsTrail(parts, texts);
    var first, trail := parts[0], Trail(parts[1..], texts);
    assert (first + trail)[..|first|] == first && (first + trail)[|first|..] == trail;
    if HasPrefix(s, first) {
      assert s == s[..|first|] + s[|first|..];
    }
  }

  lemma AcceptedIsFilled(parts: seq<string>, s: string) returns (texts: seq<string>)
    requires |parts| >= 2 && GreedyEnd(parts, 0, s, 0).Some? && HasSuffix(s, parts[|parts| - 1])
    ensures |texts| + 1 == |parts| && Fill(parts, texts) == s
  {
    GreedyFirst(parts, s);
    texts := GreedySound(parts, 1, s, |parts[0]|);
    FillStarts(parts, texts, s);
  }

  lemma FilledIsAccepted(parts: seq<string>, texts: seq<string>, s: string)
    requires |parts| == |texts| + 1 && Fill(parts, texts) == s
    ensures GreedyEnd(parts, 0, s, 0).Some? && HasSuffix(s, parts[|parts| - 1])
  {
    GreedyFirst(parts, s);
    FillStarts(parts, texts, s);
    GreedyComplete(parts, 1, s, |parts[0]|, |parts[0]|, texts);
    FillEndsInLast(parts, texts);
  }

  lemma AcceptedIsDenoted(pattern: string, s: string)
    requires Stars(pattern) >= 1 && MultiStarAccepts(pattern, s)
    ensures Denotes(pattern, s)
  {
    PartsCount(pattern);
    var texts := AcceptedIsFilled(Split(pattern, '*'), s);
    InstantiateIsFill(pattern, texts);
  }

  lemma DenotedIsAccepted(pattern: string, s: string)
    requires Stars(pattern) >= 1 && Denotes(pattern, s)
    ensures MultiStarAccepts(pattern, s)
  {
    var texts: seq<string> :| |texts| == Stars(pattern) && Instantiate(pattern, texts) == s;
    InstantiateIsFill(pattern, texts);
    FilledIsAccepted(Split(pattern, '*'), texts, s);
  }

  /** The leftmost-greedy search decides the meaning of every pattern with a star. */
  lemma MultiStarIsMeaning(pattern: string, s: string)
    requires Stars(pattern) >= 1
    ensures MultiStarAccepts(pattern, s) <==> Denotes(pattern, s)
  {
    if MultiStarAccepts(pattern, s) {
      AcceptedIsDenoted(pattern, s);
    }
    if Denotes(pattern, s) {
      DenotedIsAccepted(pattern, s);
    }
  }

  lemma {:induction false} FillEndsInLast(parts: seq<string>, texts: seq<string>)
    requires |parts| == |texts| + 1
    ensures HasSuffix(Fill(parts, texts), parts[|parts| - 1])
  {
    if texts != [] {
      FillEndsInLast(parts[1..], texts[1..]);
      var rest := Fill(parts[1..], texts[1..]);
      var last := parts[|parts| - 1];
      var all := Fill(parts, texts);
      assert all == (parts[0] + texts[0]) + rest;
      assert all[|all| - |last|..] == rest[|rest| - |last|..];
    }
  }

  // ---------------------------------------------------------------- the one-star shortcut

  /** The case the one-star shortcut gets wrong: prefix and suffix hold but share characters. */
  predicate Overlaps(pattern: string, s: string) {
    && Stars(pattern) == 1
    && (PartsCount(pattern);
        var parts := Split(pattern, '*');
        |s| < |parts[0]| + |parts[1]| && HasPrefix(s, parts[0]) && HasSuffix(s, parts[1]))
  }

  lemma NoStar(pattern: string, s: string)
    requires Stars(pattern) == 0
    ensures Denotes(pattern, s) <==> pattern == s
  {
    var none: seq<string> := [];
    JoinSplit(pattern, '*');
    InstantiateIsFill(pattern, none);
    forall texts: seq<string> | |texts| == 0
      ensures Instantiate(pattern, texts) == pattern
    {
      assert texts == none;
    }
    assert Denotes(pattern, pattern);
  }

  /** The engine accepts exactly the meaning of the pattern, and overlapping one-star strings. */
  lemma GlobExact(pattern: string, s: string)
    ensures GlobAccepts(pattern, s) <==> Denotes(pattern, s) || Overlaps(pattern, s)
    ensures !(Denotes(pattern, s) && Overlaps(pattern, s))
  {
    if Stars(pattern) == 0 {
      NoStar(pattern, s);
    } else if Stars(pattern) == 1 {
      OneStar(pattern, s);
      LoneStar();
    } else {
      MultiStarIsMeaning(pattern, s);
    }
  }

  lemma FillTwo(parts: seq<string>, texts: seq<string>)
    requires |parts| == 2 && |texts| == 1
    ensures Fill(parts, texts) == parts[0] + texts[0] + parts[1]
  {
    assert texts[1..] == [] && parts[1..][0] == parts[1];
  }

  lemma MiddleOf(pre: string, suf: string, s: string) returns (mid: string)
    requires |s| >= |pre| + |suf| && HasPrefix(s, pre) && HasSuffix(s, suf)
    ensures s == pre + mid + suf
  {
    mid := s[|pre|..|s| - |suf|];
    assert s == s[..|pre|] + mid + s[|s| - |suf|..];
  }

  lemma OneStar(pattern: string, s: string)
    requires Stars(pattern) == 1
    ensures |Split(pattern, '*')| == 2
    ensures Denotes(pattern, s) <==>
            var parts := Split(pattern, '*');
            |s| >= |parts[0]| + |parts[1]| && HasPrefix(s, parts[0]) && HasSuffix(s, parts[1])
  {
    PartsCount(pattern);
    var parts := Split(pattern, '*');
    if |s| >= |parts[0]| + |parts[1]| && HasPrefix(s, parts[0]) && HasSuffix(s, parts[1]) {
      var mid := MiddleOf(parts[0], parts[1], s);
      InstantiateIsFill(pattern, [mid]);
      FillTwo(parts, [mid]);
    }
    if Denotes(pattern, s) {
      var texts: seq<string> :| |texts| == 1 && Instantiate(pattern, texts) == s;
      InstantiateIsFill(pattern, texts);
      FillTwo(parts, texts);
      EndsOf(parts[0], texts[0], parts[1], s);
    }
  }

  lemma LoneStar()
    ensures Split("*", '*') == ["", ""] && Stars("*") == 1
  {
    assert "*"[1..] == "";
  }

  lemma EndsOf(a: string, b: string, c: string, s: string)
    requires s == a + b + c
    ensures HasPrefix(s, a) && HasSuffix(s, c)
  {
  }

  /** A one-star pattern is decided rightly on every string exactly when no nonempty tail of the
      text before the star is also a head of the text after it. */
  predicate Borderless(pre: string, suf: string) {
    forall k :: 1 <= k <= |pre| && k <= |suf| ==> pre[|pre| - k..] != suf[..k]
  }

  lemma BorderOverlaps(pre: string, suf: string, k: nat)
    requires 1 <= k <= |pre| && k <= |suf| && pre[|pre| - k..] == suf[..k]
    ensures var s := pre + suf[k..];
            |s| < |pre| + |suf| && HasPrefix(s, pre) && HasSuffix(s, suf)
  {
    var s := pre + suf[k..];
    assert s[|s| - |suf|..] == pre[|pre| - k..] + suf[k..] == suf;
  }

  lemma OverlapHasBorder(pre: string, suf: string, s: string)
    requires |s| < |pre| + |suf| && HasPrefix(s, pre) && HasSuffix(s, suf)
    ensures !Borderless(pre, suf)
  {
    var k := |pre| + |suf| - |s|;
    assert pre == s[..|pre|] && suf == s[|s| - |suf|..];
    assert pre[|pre| - k..] == s[|pre| - k..|pre|];
    assert suf[..k] == s[|s| - |suf|..|s| - |suf| + k];
    assert pre[|pre| - k..] == suf[..k];
  }

  lemma OneStarPatternExact(pattern: string)
    requires Stars(pattern) == 1
    ensures |Split(pattern, '*')| == 2
    ensures (forall s :: GlobAccepts(pattern, s) <==> Denotes(pattern, s))
            <==> Borderless(Split(pattern, '*')[0], Split(pattern, '*')[1])
  {
    PartsCount(pattern);
    var pre, suf := Split(pattern, '*')[0], Split(pattern, '*')[1];
    forall s
      ensures (GlobAccepts(pattern, s) <==> Denotes(pattern, s)) <==> !Overlaps(pattern, s)
    {
      GlobExact(pattern, s);
    }
    if k :| 1 <= k <= |pre| && k <= |suf| && pre[|pre| - k..] == suf[..k] {
      BorderOverlaps(pre, suf, k);
      assert Overlaps(pattern, pre + suf[k..]);
    }
    if s :| Overlaps(pattern, s) {
      OverlapHasBorder(pre, suf, s);
    }
  }

  // ---------------------------------------------------------------- consequences used by the rules

  /** A pattern accepts itself: a granted command matches again, stars and all. */
  lemma GlobReflexive(pattern: string)
    ensures GlobAccepts(pattern, pattern)
  {
    var texts := seq(Stars(pattern), i => "*");
    StarsForStars(pattern, texts);
    assert Denotes(pattern, pattern);
    GlobExact(pattern, pattern);
  }

  lemma {:induction false} StarsForStars(pattern: string, texts: seq<string>)
    requires |texts| == Stars(pattern) && forall t :: t in texts ==> t == "*"
    ensures Instantiate(pattern, texts) == pattern
  {
    if pattern != "" {
      if pattern[0] == '*' {
        assert forall t :: t in texts[1..] ==> t in texts;
        StarsForStars(pattern[1..], texts[1..]);
        assert texts[0] in texts;
        assert [pattern[0]] + pattern[1..] == pattern;
      } else {
        StarsForStars(pattern[1..], texts);
        assert [pattern[0]] + pattern[1..] == pattern;
      }
    }
  }

  /** Every accepted string starts with the star-free head of the pattern. */
  lemma GlobKeepsHead(pattern: string, head: string, s: string)
    requires HasPrefix(pattern, head) && '*' !in head
    requires GlobAccepts(pattern, s)
    ensures HasPrefix(s, head)
  {
    PartsCount(pattern);
    SplitHead(pattern, head);
    GreedyFirst(Split(pattern, '*'), s);
    if Stars(pattern) == 0 {
      assert pattern == s;
    }
  }

  lemma {:induction false} SplitHead(pattern: string, head: string)
    requires HasPrefix(pattern, head) && '*' !in head
    ensures HasPrefix(Split(pattern, '*')[0], head)
  {
    if head != "" {
      assert pattern[1..][..|head| - 1] == head[1..];
      assert forall c :: c in head[1..] ==> c in head;
      SplitHead(pattern[1..], head[1..]);
      assert pattern[0] == head[0];
      assert Split(pattern, '*')[0] == [head[0]] + Split(pattern[1..], '*')[0];
      assert head == [head[0]] + head[1..];
    }
  }
}
