/** The laws of the patch applier: what it writes for a rendered script, exactly when that is the new
    text, and undoing. */
module UnifiedPatchTheorems {
  import opened Text
  import opened UnifiedPatch
  import opened UnifiedPatchLaws

  // ---------------------------------------------------------------- the script without carriage returns

  function StripSections(sections: seq<Section>): seq<Section> {
    if sections == [] then []
    else [sections[0].(hunk := StripEdits(sections[0].hunk))] + StripSections(sections[1..])
  }

  predicate OldClean(edits: seq<Edit>) {
    forall e :: e in edits && !e.Ins? ==> !EndsInCR(e.line.text)
  }

  predicate AllOldClean(sections: seq<Section>) {
    forall s :: s in sections ==> OldClean(s.hunk)
  }

  lemma {:induction false} StripEditsKeepShape(edits: seq<Edit>)
    ensures |Old(StripEdits(edits))| == |Old(edits)| && |New(StripEdits(edits))| == |New(edits)|
    ensures forall i :: 0 <= i < |New(edits)| ==> New(StripEdits(edits))[i].terminated == New(edits)[i].terminated
  {
    if edits != [] {
      StripEditsKeepShape(edits[1..]);
      TailOfCons(StripEdit(edits[0]), StripEdits(edits[1..]));
    }
  }

  lemma {:induction false} StripEditsKeepOld(edits: seq<Edit>)
    ensures OldClean(edits) ==> Old(StripEdits(edits)) == Old(edits)
    ensures NoCR(edits) ==> StripEdits(edits) == edits
  {
    if edits != [] {
      StripEditsKeepOld(edits[1..]);
      TailOfCons(StripEdit(edits[0]), StripEdits(edits[1..]));
      assert edits[0] in edits && edits == [edits[0]] + edits[1..];
      assert NoCR(edits) ==> NoCR(edits[1..]);
      assert OldClean(edits) ==> OldClean(edits[1..]);
    }
  }

  lemma StripEditsFacts(edits: seq<Edit>)
    ensures |Old(StripEdits(edits))| == |Old(edits)| && |New(StripEdits(edits))| == |New(edits)|
    ensures OldClean(edits) ==> Old(StripEdits(edits)) == Old(edits)
    ensures forall i :: 0 <= i < |New(edits)| ==> New(StripEdits(edits))[i].terminated == New(edits)[i].terminated
    ensures NoCR(edits) ==> StripEdits(edits) == edits
  {
    StripEditsKeepShape(edits);
    StripEditsKeepOld(edits);
  }

  lemma StripHunkOf(s: Section, at: nat)
    ensures HunkOf(s, at).(edits := StripEdits(s.hunk)) == HunkOf(s.(hunk := StripEdits(s.hunk)), at)
  {
    StripEditsFacts(s.hunk);
  }

  lemma {:induction false} StripSectionsHunks(sections: seq<Section>, at: nat)
    ensures StripHunks(Hunks(sections, at)) == Hunks(StripSections(sections), at)
    decreases |sections|
  {
    if sections != [] {
      var s, later := sections[0], sections[1..];
      var stripped := s.(hunk := StripEdits(s.hunk));
      var next := at + |s.gap| + |Old(s.hunk)|;
      StripEditsFacts(s.hunk);
      StripHunkOf(s, at);
      StripSectionsHunks(later, next);
      HunksCons(sections, at, next);
      TailOfCons(HunkOf(s, at), Hunks(later, next));
      TailOfCons(stripped, StripSections(later));
      HunksCons(StripSections(sections), at, next);
    }
  }

  lemma {:induction false} StripKeepsOld(sections: seq<Section>)
    requires AllOldClean(sections)
    ensures OldOf(StripSections(sections)) == OldOf(sections)
  {
    if sections != [] {
      var s, later := sections[0], sections[1..];
      assert s in sections && sections == [s] + later;
      StripEditsFacts(s.hunk);
      StripKeepsOld(later);
      TailOfCons(s.(hunk := StripEdits(s.hunk)), StripSections(later));
    }
  }

  lemma {:induction false} StripNothing(sections: seq<Section>)
    requires NoCRs(sections)
    ensures StripSections(sections) == sections && AllOldClean(sections)
  {
    if sections != [] {
      var s, later := sections[0], sections[1..];
      assert s in sections && sections == [s] + later;
      StripEditsFacts(s.hunk);
      StripNothing(later);
    }
  }

  // ---------------------------------------------------------------- sizes

  /** The size of these lines as a text that ends each of them. */
  function Size(lines: seq<Line>): nat {
    if lines == [] then 0 else |lines[0].text| + 1 + Size(lines[1..])
  }

  lemma {:induction false} SizeConcat(a: seq<Line>, b: seq<Line>)
    ensures Size(a + b) == Size(a) + Size(b)
  {
    if a == [] {
      assert a + b == b;
    } else {
      assert (a + b)[0] == a[0] && (a + b)[1..] == a[1..] + b;
      SizeConcat(a[1..], b);
    }
  }

  lemma {:induction false} JoinSize(lines: seq<Line>)
    requires lines != []
    ensures |Join(Texts(lines), "\n")| == Size(lines) - 1
  {
    var t := Texts(lines);
    assert t[1..] == Texts(lines[1..]);
    if |lines| > 1 {
      JoinSize(lines[1..]);
    } else {
      assert lines[1..] == [];
    }
  }

  lemma ShownSize(lines: seq<Line>)
    ensures |Shown(lines)| == Size(lines) - if lines == [] || LastEnded(lines) then 0 else 1
  {
    if lines != [] {
      JoinSize(lines);
    }
  }

  lemma FlattenIsShown(lines: seq<Line>)
    requires EndedButLast(lines)
    ensures Flatten(lines) == Shown(lines)
  {
    FlattenIsJoin(lines);
  }

  /** A text never ends in a newline when its last line is left open. */
  lemma OpenEnd(lines: seq<Line>)
    requires TextLines(lines) && lines != [] && !LastEnded(lines)
    ensures Shown(lines) != "" && !HasSuffix(Shown(lines), "\n")
  {
    var last, body := lines[|lines| - 1], Join(Texts(lines), "\n");
    JoinEnds(Texts(lines));
    assert last in lines;
    OpenTextEnd(body, last.text);
    assert body + "" == body;
  }

  /** Lines of smaller size never show the same text. */
  lemma SmallerDiffers(a: seq<Line>, b: seq<Line>)
    requires TextLines(b) && Size(a) < Size(b)
    ensures Shown(a) != Flatten(b)
  {
    FlattenIsShown(b);
    ShownSize(a);
    ShownSize(b);
    if !LastEnded(b) {
      OpenEnd(b);
      if LastEnded(a) {
        EndedTextEnd(Join(Texts(a), "\n"));
      }
    }
  }

  lemma {:induction false} StripShrinks(edits: seq<Edit>)
    ensures Size(New(StripEdits(edits))) <= Size(New(edits))
    ensures OldClean(edits) && !NoCR(edits) ==> Size(New(StripEdits(edits))) < Size(New(edits))
  {
    if edits != [] {
      var e, rest := edits[0], edits[1..];
      StripShrinks(rest);
      TailOfCons(StripEdit(e), StripEdits(rest));
      SizeConcat(NewOfEdit(e), New(rest));
      SizeConcat(NewOfEdit(StripEdit(e)), New(StripEdits(rest)));
      OneSize(e);
      OneSize(StripEdit(e));
      assert e in edits && edits == [e] + rest;
      assert OldClean(edits) ==> OldClean(rest);
      assert !NoCR(edits) ==> EndsInCR(e.line.text) || !NoCR(rest);
    }
  }

  lemma OneSize(e: Edit)
    ensures Size(NewOfEdit(e)) == if e.Del? then 0 else |e.line.text| + 1
  {
    if !e.Del? {
      assert NewOfEdit(e)[1..] == [];
    }
  }

  lemma NewSize(s: Section, later: seq<Section>)
    ensures Size(NewOf([s] + later)) == Size(s.gap) + Size(New(s.hunk)) + Size(NewOf(later))
  {
    TailOfCons(s, later);
    SizeConcat(s.gap + New(s.hunk), NewOf(later));
    SizeConcat(s.gap, New(s.hunk));
  }

  lemma {:induction false} StripSectionsShrinks(sections: seq<Section>)
    ensures Size(NewOf(StripSections(sections))) <= Size(NewOf(sections))
    ensures AllOldClean(sections) && !NoCRs(sections) ==> Size(NewOf(StripSections(sections))) < Size(NewOf(sections))
  {
    if sections != [] {
      var s, later := sections[0], sections[1..];
      assert s in sections && sections == [s] + later;
      StripShrinks(s.hunk);
      StripSectionsShrinks(later);
      NewSize(s, later);
      NewSize(s.(hunk := StripEdits(s.hunk)), StripSections(later));
      assert AllOldClean(sections) ==> OldClean(s.hunk) && AllOldClean(later);
      assert !NoCRs(sections) ==> !NoCR(s.hunk) || !NoCRs(later);
    }
  }

  // ---------------------------------------------------------------- the rendered script as its run

  lemma {:induction false} EditLinesOf(edits: seq<Edit>)
    ensures forall e :: e in edits ==> e.line in Old(edits) || e.line in New(edits)
  {
    if edits != [] {
      EditLinesOf(edits[1..]);
    }
  }

  lemma HunkNoBreaks(edits: seq<Edit>)
    requires forall l :: l in Old(edits) || l in New(edits) ==> '\n' !in l.text
    ensures NoBreakEdits(edits)
  {
    EditLinesOf(edits);
  }

  lemma {:induction false} SectionsNoBreaks(sections: seq<Section>, at: nat)
    requires forall l :: l in OldOf(sections) || l in NewOf(sections) ==> '\n' !in l.text
    ensures forall h :: h in Hunks(sections, at) ==> NoBreakEdits(h.edits)
    decreases |sections|
  {
    if sections != [] {
      var s, next := sections[0], at + |sections[0].gap| + |Old(sections[0].hunk)|;
      forall l | l in Old(s.hunk) || l in New(s.hunk)
        ensures '\n' !in l.text
      {
        assert l in OldOf(sections) || l in NewOf(sections);
      }
      HunkNoBreaks(s.hunk);
      forall l | l in OldOf(sections[1..]) || l in NewOf(sections[1..])
        ensures '\n' !in l.text
      {
        assert l in OldOf(sections) || l in NewOf(sections);
      }
      SectionsNoBreaks(sections[1..], next);
      HunksCons(sections, at, next);
    }
  }

  lemma ApplyIsScriptRun(preamble: seq<string>, p: Script)
    requires Preamble(preamble) && Rendered(p)
    ensures var original := Flatten(OldLines(p));
            var orig, origNL := OrigLines(original), HasSuffix(original, "\n");
            ApplyText(original, Render(preamble, p)) ==
            FinishRun(RunHunks(Hunks(StripSections(p.sections), 0), Start, orig, origNL), orig, origNL)
  {
    assert forall l :: l in OldOf(p.sections) ==> l in OldLines(p);
    assert forall l :: l in NewOf(p.sections) ==> l in NewLines(p);
    SectionsNoBreaks(p.sections, 0);
    ApplyIsRun(Flatten(OldLines(p)), preamble, Hunks(p.sections, 0));
    StripSectionsHunks(p.sections, 0);
  }

  // ---------------------------------------------------------------- what is written

  /** A hunk that names no old line and is not at the start: its header gives the line before it, which the
      applier takes for the line to stop at, so that line is held back. */
  predicate Late(s: Section, at: nat) {
    Old(s.hunk) == [] && at + |s.gap| > 0
  }

  /** What is copied before the hunk, `held` being the line held back so far, and what is held back then. */
  function Copied(s: Section, held: seq<Line>, at: nat): seq<Line> {
    var all := held + s.gap;
    if Late(s, at) && all != [] then all[..|all| - 1] else all
  }

  function Kept(s: Section, held: seq<Line>, at: nat): (kept: seq<Line>)
    ensures |kept| <= 1
  {
    var all := held + s.gap;
    if Late(s, at) && all != [] then [all[|all| - 1]] else []
  }

  function After(s: Section, at: nat): nat {
    at + |s.gap| + |Old(s.hunk)|
  }

  /** No such hunk follows right after old lines that an earlier hunk has used up. */
  predicate InRange(sections: seq<Section>, held: seq<Line>, at: nat)
    decreases |sections|
  {
    sections == [] ||
    var s := sections[0];
    (Late(s, at) ==> held + s.gap != []) && InRange(sections[1..], Kept(s, held, at), After(s, at))
  }

  function Written(sections: seq<Section>, held: seq<Line>, at: nat): seq<Line>
    decreases |sections|
  {
    if sections == [] then held
    else
      var s := sections[0];
      Copied(s, held, at) + New(s.hunk) + Written(sections[1..], Kept(s, held, at), After(s, at))
  }

  lemma CopiedAndKept(s: Section, held: seq<Line>, at: nat)
    ensures Copied(s, held, at) + Kept(s, held, at) == held + s.gap
    ensures Late(s, at) ==> Old(s.hunk) == []
    ensures !Late(s, at) ==> Kept(s, held, at) == []
  {
  }

  lemma Regroup(s: Section, held: seq<Line>, at: nat, more: seq<Line>, tail: seq<Line>)
    ensures held + (s.gap + Old(s.hunk) + more) + tail ==
            Copied(s, held, at) + (Old(s.hunk) + (Kept(s, held, at) + more + tail))
  {
    CopiedAndKept(s, held, at);
    var copied, kept := Copied(s, held, at), Kept(s, held, at);
    if Late(s, at) {
      assert held + (s.gap + [] + more) + tail == (held + s.gap) + (more + tail);
      assert copied + ([] + (kept + more + tail)) == (copied + kept) + (more + tail);
    } else {
      assert held + (s.gap + Old(s.hunk) + more) + tail == (held + s.gap) + (Old(s.hunk) + (more + tail));
      assert kept + more + tail == more + tail;
    }
  }

  lemma StopsAt(s: Section, held: seq<Line>, at: nat, cur: nat)
    requires |held| <= 1 && at == cur + |held|
    ensures if Late(s, at) && held + s.gap == [] then Target(HunkOf(s, at).oldStart) < cur
            else Target(HunkOf(s, at).oldStart) == cur + |Copied(s, held, at)|
    ensures !(Late(s, at) && held + s.gap == []) ==>
              After(s, at) == cur + |Copied(s, held, at)| + |Old(s.hunk)| + |Kept(s, held, at)|
  {
    CopiedAndKept(s, held, at);
  }

  lemma FailedHunk(hunks: seq<Hunk>, st: State, orig: seq<string>, origNL: bool)
    requires st.cur <= |orig| && hunks != [] && RunHunk(hunks[0], st, orig, origNL).Err?
    ensures RunHunks(hunks, st, orig, origNL) == RunHunk(hunks[0], st, orig, origNL)
  {
  }

  lemma SectionRuns(s: Section, held: seq<Line>, at: nat, more: seq<Line>, tail: seq<Line>, st: State,
                    orig: seq<string>, origNL: bool, before: seq<Line>) returns (next: State)
    requires |held| <= 1 && at == st.cur + |held| && (Late(s, at) ==> held + s.gap != [])
    requires Remaining(st, orig, origNL, held + (s.gap + Old(s.hunk) + more) + tail) && Shows(st, before)
    ensures RunHunk(HunkOf(s, at), st, orig, origNL) == Ok(next)
    ensures After(s, at) == next.cur + |Kept(s, held, at)| && Shows(next, before + (Copied(s, held, at) + New(s.hunk)))
    ensures Remaining(next, orig, origNL, Kept(s, held, at) + more + tail)
  {
    StopsAt(s, held, at, st.cur);
    Regroup(s, held, at, more, tail);
    next := HunkApplies(HunkOf(s, at), Copied(s, held, at), Kept(s, held, at) + more + tail, st, orig, origNL, before);
  }

  /** A script over its own old lines is written as said. */
  lemma {:induction false} SectionsRun(sections: seq<Section>, held: seq<Line>, at: nat, tail: seq<Line>, st: State,
                                       orig: seq<string>, origNL: bool, before: seq<Line>)
    returns (end: State, body: seq<Line>, left: seq<Line>)
    requires |held| <= 1 && at == st.cur + |held| && InRange(sections, held, at)
    requires Remaining(st, orig, origNL, held + OldOf(sections) + tail) && Shows(st, before)
    ensures RunHunks(Hunks(sections, at), st, orig, origNL) == Ok(end)
    ensures Shows(end, before + body) && Remaining(end, orig, origNL, left + tail)
    ensures body + left == Written(sections, held, at)
    decreases |sections|
  {
    if sections == [] {
      end, body, left := st, [], held;
      assert before + body == before && held + OldOf(sections) + tail == held + tail;
    } else {
      var s, later := sections[0], sections[1..];
      var copied, kept := Copied(s, held, at), Kept(s, held, at);
      var next := SectionRuns(s, held, at, OldOf(later), tail, st, orig, origNL, before);
      end, body, left := SectionsRun(later, kept, After(s, at), tail, next, orig, origNL, before + (copied + New(s.hunk)));
      HunksCons(sections, at, After(s, at));
      RunHunksCons(HunkOf(s, at), Hunks(later, After(s, at)), st, next, orig, origNL);
      ConcatAssoc(before, copied + New(s.hunk), body);
      ConcatAssoc(copied + New(s.hunk), body, left);
      body := copied + New(s.hunk) + body;
    }
  }

  /** It fails at the first hunk out of range. */
  lemma {:induction false} OutOfRangeStops(sections: seq<Section>, held: seq<Line>, at: nat, tail: seq<Line>, st: State,
                                           orig: seq<string>, origNL: bool, before: seq<Line>)
    requires |held| <= 1 && at == st.cur + |held| && !InRange(sections, held, at)
    requires Remaining(st, orig, origNL, held + OldOf(sections) + tail) && Shows(st, before)
    ensures RunHunks(Hunks(sections, at), st, orig, origNL) == Err(HunkOutOfRange)
    decreases |sections|
  {
    var s, later := sections[0], sections[1..];
    HunksCons(sections, at, After(s, at));
    if Late(s, at) && held + s.gap == [] {
      StopsAt(s, held, at, st.cur);
      FailedHunk(Hunks(sections, at), st, orig, origNL);
    } else {
      var next := SectionRuns(s, held, at, OldOf(later), tail, st, orig, origNL, before);
      var shown := before + (Copied(s, held, at) + New(s.hunk));
      OutOfRangeStops(later, Kept(s, held, at), After(s, at), tail, next, orig, origNL, shown);
      RunHunksCons(HunkOf(s, at), Hunks(later, After(s, at)), st, next, orig, origNL);
    }
  }

  lemma RunIsWritten(sections: seq<Section>, tail: seq<Line>, orig: seq<string>, origNL: bool)
    requires Remaining(Start, orig, origNL, OldOf(sections) + tail)
    ensures FinishRun(RunHunks(Hunks(sections, 0), Start, orig, origNL), orig, origNL) ==
            if InRange(sections, [], 0) then Ok(Shown(Written(sections, [], 0) + tail)) else Err(HunkOutOfRange)
  {
    var none: seq<Line> := [];
    assert none + OldOf(sections) + tail == OldOf(sections) + tail;
    if !InRange(sections, [], 0) {
      OutOfRangeStops(sections, [], 0, tail, Start, orig, origNL, []);
    } else {
      var end, body, left := SectionsRun(sections, [], 0, tail, Start, orig, origNL, []);
      assert none + body == body;
      FinishShows(end, orig, origNL, body, left + tail);
      ConcatAssoc(body, left, tail);
    }
  }

  // ---------------------------------------------------------------- mismatches

  lemma {:induction false} EditsCursor(edits: seq<Edit>, st: State, orig: seq<string>)
    requires st.cur <= |orig| && RunEdits(edits, st, orig).Ok?
    ensures RunEdits(edits, st, orig).value.cur == st.cur + |Old(edits)|
  {
    if edits != [] {
      EditsCursor(edits[1..], RunEdit(edits[0], st, orig).value, orig);
    }
  }

  /** An old line that lost its carriage return matches no longer. */
  lemma {:induction false} EditsMismatch(edits: seq<Edit>, st: State, orig: seq<string>)
    requires st.cur <= |orig| && Matches(orig, st.cur, Old(edits)) && !OldClean(edits)
    ensures RunEdits(StripEdits(edits), st, orig).Err?
  {
    var e, rest := edits[0], edits[1..];
    TailOfCons(StripEdit(e), StripEdits(rest));
    MatchesConcat(orig, st.cur, OldOfEdit(e), Old(rest));
    if !e.Ins? {
      assert orig[st.cur + 0] == OldOfEdit(e)[0].text;
    }
    var next := RunEdit(StripEdit(e), st, orig);
    if next.Ok? {
      assert edits == [e] + rest;
      EditsMismatch(rest, next.value, orig);
    }
  }

  /** One stripped hunk over its own old lines: it fails, or leaves the cursor after them. */
  lemma HunkMismatch(h: Hunk, gap: seq<Line>, more: seq<Line>, st: State, orig: seq<string>, origNL: bool)
    requires st.cur <= |orig| && Matches(orig, st.cur, gap + (Old(h.edits) + more))
    requires Target(h.oldStart) == st.cur + |gap|
    ensures var r := RunHunk(h.(edits := StripEdits(h.edits)), st, orig, origNL);
            && (!OldClean(h.edits) ==> r.Err?)
            && (r.Ok? ==> r.value.cur == st.cur + |gap| + |Old(h.edits)| && Matches(orig, r.value.cur, more))
  {
    MatchesConcat(orig, st.cur, gap, Old(h.edits) + more);
    MatchesConcat(orig, st.cur + |gap|, Old(h.edits), more);
    var placed := RunGap(h.oldStart, st, orig, origNL);
    if placed.Ok? {
      if !OldClean(h.edits) {
        EditsMismatch(h.edits, placed.value, orig);
      } else if RunEdits(StripEdits(h.edits), placed.value, orig).Ok? {
        EditsCursor(StripEdits(h.edits), placed.value, orig);
        StripEditsFacts(h.edits);
      }
    }
  }

  lemma StripHunksCons(h: Hunk, rest: seq<Hunk>)
    ensures StripHunks([h] + rest) == [h.(edits := StripEdits(h.edits))] + StripHunks(rest)
  {
    TailOfCons(h, rest);
  }

  lemma {:induction false} SectionsMismatch(sections: seq<Section>, held: seq<Line>, at: nat, tail: seq<Line>, st: State,
                                            orig: seq<string>, origNL: bool)
    requires st.cur <= |orig| && |held| <= 1 && at == st.cur + |held| && !AllOldClean(sections)
    requires Matches(orig, st.cur, held + OldOf(sections) + tail)
    ensures RunHunks(StripHunks(Hunks(sections, at)), st, orig, origNL).Err?
    decreases |sections|
  {
    var s, later := sections[0], sections[1..];
    assert sections == [s] + later;
    var h, rest := HunkOf(s, at), Hunks(later, After(s, at));
    var stripped := h.(edits := StripEdits(s.hunk));
    HunksCons(sections, at, After(s, at));
    StripHunksCons(h, rest);
    StopsAt(s, held, at, st.cur);
    var r := RunHunk(stripped, st, orig, origNL);
    if r.Err? {
      FailedHunk([stripped] + StripHunks(rest), st, orig, origNL);
    } else {
      var kept := Kept(s, held, at);
      Regroup(s, held, at, OldOf(later), tail);
      HunkMismatch(h, Copied(s, held, at), kept + OldOf(later) + tail, st, orig, origNL);
      SectionsMismatch(later, kept, After(s, at), tail, r.value, orig, origNL);
      RunHunksCons(stripped, StripHunks(rest), st, r.value, orig, origNL);
    }
  }

  // ---------------------------------------------------------------- a lone newline

  lemma LoneNewline(lines: seq<Line>)
    requires TextLines(lines) && Flatten(lines) == "\n"
    ensures lines == [Line("", true)]
  {
    FlattenIsShown(lines);
    ShownSize(lines);
    if !LastEnded(lines) && lines != [] {
      OpenEnd(lines);
    }
    assert |lines| == 1 && Size(lines[1..]) == 0;
  }

  function InsertedOf(sections: seq<Section>): seq<Line> {
    if sections == [] then [] else New(sections[0].hunk) + InsertedOf(sections[1..])
  }

  predicate AllInsert(sections: seq<Section>) {
    forall s :: s in sections ==> Old(s.hunk) == []
  }

  lemma {:induction false} EditsOnNothing(edits: seq<Edit>, st: State, before: seq<Line>)
    requires st.cur == 0 && Shows(st, before)
    ensures var r := RunEdits(edits, st, []);
            r.Ok? ==> Old(edits) == [] && r.value.cur == 0 && Shows(r.value, before + New(edits))
  {
    if edits == [] {
      assert before + New(edits) == before;
    } else if edits[0].Ins? {
      EditApplies(edits[0], st, [], before);
      EditsOnNothing(edits[1..], RunEdit(edits[0], st, []).value, before + NewOfEdit(edits[0]));
      ConcatAssoc(before, NewOfEdit(edits[0]), New(edits[1..]));
    }
  }

  /** Over no lines at all, as a lone newline is seen, a run writes the inserted lines, and fails if a hunk
      names an old line. */
  lemma {:induction false} RunOnNothing(sections: seq<Section>, at: nat, st: State, origNL: bool, before: seq<Line>)
    requires st.cur == 0 && Shows(st, before)
    ensures var r := RunHunks(Hunks(sections, at), st, [], origNL);
            r.Ok? ==> AllInsert(sections) && r.value.cur == 0 && Shows(r.value, before + InsertedOf(sections))
    decreases |sections|
  {
    if sections == [] {
      assert before + InsertedOf(sections) == before;
    } else {
      var s, later := sections[0], sections[1..];
      HunksCons(sections, at, After(s, at));
      EditsOnNothing(s.hunk, st, before);
      var r := RunHunk(HunkOf(s, at), st, [], origNL);
      if r.Ok? {
        RunHunksCons(HunkOf(s, at), Hunks(later, After(s, at)), st, r.value, [], origNL);
        RunOnNothing(later, After(s, at), r.value, origNL, before + New(s.hunk));
        ConcatAssoc(before, New(s.hunk), InsertedOf(later));
        assert sections == [s] + later;
      } else {
        FailedHunk(Hunks(sections, at), st, [], origNL);
      }
    }
  }

  /** Each old line of such a script is a line of its own in the new text. */
  lemma {:induction false} InsertedSize(sections: seq<Section>)
    requires AllInsert(StripSections(sections))
    ensures Size(InsertedOf(StripSections(sections))) + Size(OldOf(sections)) <= Size(NewOf(sections))
  {
    if sections != [] {
      var s, later := sections[0], sections[1..];
      var stripped := s.(hunk := StripEdits(s.hunk));
      TailOfCons(stripped, StripSections(later));
      assert StripSections(sections) == [stripped] + StripSections(later) && stripped in StripSections(sections);
      StripEditsFacts(s.hunk);
      StripShrinks(s.hunk);
      InsertedSize(later);
      NewSize(s, later);
      assert sections == [s] + later;
      assert s.gap + [] == s.gap;
      SizeConcat(s.gap, OldOf(later));
      SizeConcat(New(stripped.hunk), InsertedOf(StripSections(later)));
    }
  }

  lemma LoneNewlineFails(preamble: seq<string>, p: Script)
    requires Preamble(preamble) && Rendered(p) && Flatten(OldLines(p)) == "\n"
    ensures ApplyText("\n", Render(preamble, p)) != Ok(Flatten(NewLines(p)))
  {
    LoneNewline(OldLines(p));
    ApplyIsScriptRun(preamble, p);
    var none: seq<string> := [];
    assert OrigLines("\n") == none && HasSuffix("\n", "\n") by {
      assert TrimSuffix("\n", "\n") == "";
    }
    var stripped := StripSections(p.sections);
    var run := RunHunks(Hunks(stripped, 0), Start, none, true);
    assert Shows(Start, []);
    RunOnNothing(stripped, 0, Start, true, []);
    if run.Ok? {
      var ins, no: seq<Line> := InsertedOf(stripped), [];
      assert no + ins == ins && ins + no == ins;
      FinishShows(run.value, none, true, ins, no);
      InsertedIsSmaller(p);
      SmallerDiffers(ins, NewLines(p));
    }
  }

  lemma InsertedIsSmaller(p: Script)
    requires AllInsert(StripSections(p.sections)) && OldLines(p) == [Line("", true)]
    ensures Size(InsertedOf(StripSections(p.sections))) < Size(NewLines(p))
  {
    InsertedSize(p.sections);
    SizeConcat(OldOf(p.sections), p.tail);
    SizeConcat(NewOf(p.sections), p.tail);
    assert OldLines(p)[1..] == [];
  }

  // ---------------------------------------------------------------- the exact condition

  predicate AllAre(lines: seq<Line>, one: seq<Line>) {
    forall l :: l in lines ==> [l] == one
  }

  /** Every line inserted where a line is held back repeats that line. */
  predicate Repeats(sections: seq<Section>, held: seq<Line>, at: nat)
    decreases |sections|
  {
    sections == [] ||
    var s := sections[0];
    && (Late(s, at) ==> held + s.gap != [] && AllAre(New(s.hunk), Kept(s, held, at)))
    && Repeats(sections[1..], Kept(s, held, at), After(s, at))
  }

  lemma {:induction false} WrittenSize(sections: seq<Section>, held: seq<Line>, at: nat)
    ensures Size(Written(sections, held, at)) == Size(held) + Size(NewOf(sections))
    decreases |sections|
  {
    if sections != [] {
      var s, later := sections[0], sections[1..];
      var copied, kept := Copied(s, held, at), Kept(s, held, at);
      CopiedAndKept(s, held, at);
      WrittenSize(later, kept, After(s, at));
      SizeConcat(copied + New(s.hunk), Written(later, kept, After(s, at)));
      SizeConcat(copied, New(s.hunk));
      SizeConcat(copied, kept);
      SizeConcat(held, s.gap);
      NewSize(s, later);
      assert sections == [s] + later;
    }
  }

  lemma {:induction false} WrittenMembers(sections: seq<Section>, held: seq<Line>, at: nat)
    ensures forall l :: l in Written(sections, held, at) ==> l in held || l in NewOf(sections)
    decreases |sections|
  {
    if sections != [] {
      var s, later := sections[0], sections[1..];
      var kept := Kept(s, held, at);
      WrittenMembers(later, kept, After(s, at));
      forall l | l in Written(sections, held, at)
        ensures l in held || l in NewOf(sections)
      {
        assert l in Copied(s, held, at) || l in New(s.hunk) || l in kept || l in NewOf(later);
        assert l in Copied(s, held, at) || l in kept ==> l in held + s.gap;
      }
    }
  }

  /** Repeating a line before it or after it is the same. */
  lemma RunOfOne(run: seq<Line>, kept: seq<Line>)
    requires |kept| == 1 && AllAre(run, kept)
    ensures run + kept == kept + run
  {
    var x := kept[0];
    assert kept == [x];
    forall i | 0 <= i < |run|
      ensures run[i] == x
    {
      assert run[i] in run;
    }
    forall i | 0 <= i < |run| + 1
      ensures (run + [x])[i] == x && ([x] + run)[i] == x
    {
    }
  }

  lemma {:induction false} RepeatsIsRight(sections: seq<Section>, held: seq<Line>, at: nat)
    requires Repeats(sections, held, at)
    ensures InRange(sections, held, at) && Written(sections, held, at) == held + NewOf(sections)
    decreases |sections|
  {
    if sections == [] {
      assert held + NewOf(sections) == held;
    } else {
      var s, later := sections[0], sections[1..];
      var copied, kept, ins := Copied(s, held, at), Kept(s, held, at), New(s.hunk);
      CopiedAndKept(s, held, at);
      RepeatsIsRight(later, kept, After(s, at));
      if Late(s, at) {
        RunOfOne(ins, kept);
      } else {
        assert ins + kept == kept + ins;
      }
      MoveKept(copied, ins, kept, NewOf(later));
      ConcatAssoc(held, s.gap + ins, NewOf(later));
      ConcatAssoc(held, s.gap, ins);
    }
  }

  lemma MoveKept(copied: seq<Line>, ins: seq<Line>, kept: seq<Line>, news: seq<Line>)
    requires ins + kept == kept + ins
    ensures copied + ins + (kept + news) == copied + kept + ins + news
  {
    assert copied + ins + (kept + news) == copied + (ins + kept) + news;
    assert copied + kept + ins + news == copied + (kept + ins) + news;
  }

  /** Moving one element past a run leaves the list as it was only when the run repeats it. */
  lemma {:induction false} SameAfterMove(run: seq<string>, x: string, a: seq<string>, b: seq<string>, i: nat)
    requires run + a == [x] + (run + b) && i < |run|
    ensures run[i] == x
  {
    assert (run + a)[i] == run[i];
    if i > 0 {
      assert ([x] + (run + b))[i] == run[i - 1];
      SameAfterMove(run, x, a, b, i - 1);
    }
  }

  lemma Cancel(run: seq<string>, x: string, a: seq<string>, b: seq<string>)
    requires run + a == [x] + (run + b)
    ensures forall i :: 0 <= i < |run| ==> run[i] == x
    ensures a == [x] + b
  {
    forall i | 0 <= i < |run|
      ensures run[i] == x
    {
      SameAfterMove(run, x, a, b, i);
    }
    assert a == (run + a)[|run|..] && [x] + b == ([x] + (run + b))[..1] + ([x] + (run + b))[1 + |run|..];
    assert |a| == 1 + |b|;
    forall j | 0 <= j < |a|
      ensures a[j] == ([x] + b)[j]
    {
      assert a[j] == (run + a)[|run| + j];
      if j == 0 {
        assert ([x] + (run + b))[|run|] == if |run| == 0 then x else run[|run| - 1];
      } else {
        assert ([x] + (run + b))[|run| + j] == b[j - 1];
      }
    }
  }

  /** Texts and the end of both lists agree. */
  predicate Alike(a: seq<Line>, b: seq<Line>) {
    Texts(a) == Texts(b) && (LastEnded(a) <==> LastEnded(b))
  }

  lemma {:induction false} NothingNew(sections: seq<Section>, held: seq<Line>, at: nat)
    requires NewOf(sections) == []
    ensures Written(sections, held, at) == held
    decreases |sections|
  {
    if sections != [] {
      var s, later := sections[0], sections[1..];
      CopiedAndKept(s, held, at);
      NothingNew(later, Kept(s, held, at), After(s, at));
      assert s.gap == [] && New(s.hunk) == [];
      assert Copied(s, held, at) + [] + Kept(s, held, at) == held + s.gap;
    }
  }

  lemma AlikeParts(front: seq<Line>, a: seq<Line>, b: seq<Line>)
    requires Alike(front + a, front + b)
    ensures Alike(a, b)
  {
    assert Texts(front + a) == Texts(front) + Texts(a) && Texts(front + b) == Texts(front) + Texts(b);
    assert Texts(a) == Texts(front + a)[|front|..] && Texts(b) == Texts(front + b)[|front|..];
    assert |a| == |Texts(a)| == |b|;
  }

  /** The run inserted before the line held back, where it should come after it. */
  lemma LateStep(copied: seq<Line>, ins: seq<Line>, x: Line, w: seq<Line>, n: seq<Line>)
    requires EndedButLast(copied + ([x] + (ins + n))) && Alike(copied + (ins + w), copied + ([x] + (ins + n)))
    requires n == [] ==> w == [x]
    ensures (forall l :: l in ins ==> l == x) && Alike(w, [x] + n) && EndedButLast([x] + n)
  {
    var b := [x] + (ins + n);
    AlikeParts(copied, ins + w, b);
    EndedParts(copied, b);
    assert Texts(ins + w) == Texts(ins) + Texts(w) && Texts(b) == [x.text] + (Texts(ins) + Texts(n));
    Cancel(Texts(ins), x.text, Texts(w), Texts(n));
    assert Texts([x] + n) == [x.text] + Texts(n);
    EndedParts([x] + ins, n) by {
      assert b == [x] + ins + n;
    }
    LateEnds(ins, x, w, n);
    forall i | 0 <= i < |ins|
      ensures ins[i] == x
    {
      assert ins[i].text == Texts(ins)[i] && b[1 + i] == ins[i] && b[0] == x;
    }
  }

  lemma LateEnds(ins: seq<Line>, x: Line, w: seq<Line>, n: seq<Line>)
    requires EndedButLast([x] + (ins + n)) && Alike(ins + w, [x] + (ins + n)) && |w| == 1 + |n| && (n == [] ==> w == [x])
    ensures LastEnded(w) <==> LastEnded([x] + n)
    ensures ins != [] || n != [] ==> x.terminated
    ensures ins != [] ==> ins[|ins| - 1].terminated
  {
    var b := [x] + (ins + n);
    assert b[0] == x && (ins != [] ==> b[|ins|] == ins[|ins| - 1]);
    assert (ins + w)[|ins + w| - 1] == w[|w| - 1];
    if n != [] {
      assert b[|b| - 1] == n[|n| - 1] == ([x] + n)[|n|];
    } else if ins != [] {
      assert b[|b| - 1] == ins[|ins| - 1];
    }
  }

  /** Only scripts that repeat give lists that look alike. */
  lemma {:induction false} AlikeRepeats(sections: seq<Section>, held: seq<Line>, at: nat, tail: seq<Line>)
    requires InRange(sections, held, at) && EndedButLast(held + (NewOf(sections) + tail))
    requires Alike(Written(sections, held, at) + tail, held + (NewOf(sections) + tail))
    ensures Repeats(sections, held, at)
    decreases |sections|
  {
    if sections != [] {
      var s, later := sections[0], sections[1..];
      var copied, kept, ins := Copied(s, held, at), Kept(s, held, at), New(s.hunk);
      var w, n := Written(later, kept, After(s, at)) + tail, NewOf(later) + tail;
      NewSideIs(s, held, at, NewOf(later), tail);
      ConcatAssoc(copied + ins, Written(later, kept, After(s, at)), tail);
      ConcatAssoc(copied, ins, w);
      if n == [] {
        NothingNew(later, kept, After(s, at));
        assert kept + [] == kept;
      }
      if Late(s, at) {
        LateStep(copied, ins, kept[0], w, n);
      } else {
        EarlyStep(copied, ins, w, n);
      }
      assert kept + n == if Late(s, at) then [kept[0]] + n else n;
      AlikeRepeats(later, kept, After(s, at), tail);
    }
  }

  lemma EarlyStep(copied: seq<Line>, ins: seq<Line>, w: seq<Line>, n: seq<Line>)
    requires EndedButLast(copied + ([] + (ins + n))) && Alike(copied + (ins + w), copied + ([] + (ins + n)))
    ensures Alike(w, n) && EndedButLast(n)
  {
    assert [] + (ins + n) == ins + n;
    AlikeParts(copied, ins + w, ins + n);
    AlikeParts(ins, w, n);
    EndedParts(copied, ins + n);
    EndedParts(ins, n);
  }

  lemma NewSideIs(s: Section, held: seq<Line>, at: nat, news: seq<Line>, tail: seq<Line>)
    ensures held + ((s.gap + New(s.hunk) + news) + tail) ==
            Copied(s, held, at) + (Kept(s, held, at) + (New(s.hunk) + (news + tail)))
  {
    CopiedAndKept(s, held, at);
    var copied, kept, rest := Copied(s, held, at), Kept(s, held, at), New(s.hunk) + (news + tail);
    assert held + ((s.gap + New(s.hunk) + news) + tail) == (held + s.gap) + rest;
    assert copied + (kept + rest) == (copied + kept) + rest;
  }

  lemma SameJoin(a: seq<Line>, b: seq<Line>)
    requires a != [] && b != [] && Join(Texts(a), "\n") == Join(Texts(b), "\n")
    requires forall l :: l in a || l in b ==> '\n' !in l.text
    ensures Texts(a) == Texts(b)
  {
    NoBreakTexts(a);
    NoBreakTexts(b);
    SplitJoin(Texts(a), '\n');
    SplitJoin(Texts(b), '\n');
  }

  /** Lists of lines of the same size that show the same text look alike. */
  lemma SameShown(a: seq<Line>, b: seq<Line>)
    requires Shown(a) == Shown(b) && Size(a) == Size(b)
    requires forall l :: l in a || l in b ==> '\n' !in l.text
    ensures Alike(a, b)
  {
    ShownSize(a);
    ShownSize(b);
    if a != [] && b != [] {
      var ja, jb := Join(Texts(a), "\n"), Join(Texts(b), "\n");
      assert ja == Shown(a)[..|ja|] && jb == Shown(b)[..|jb|];
      SameJoin(a, b);
    }
  }

  lemma WrittenRight(p: Script)
    requires Rendered(p) && InRange(p.sections, [], 0)
    ensures Shown(Written(p.sections, [], 0) + p.tail) == Flatten(NewLines(p)) <==> Repeats(p.sections, [], 0)
  {
    var a, b, none: seq<Line> := Written(p.sections, [], 0) + p.tail, NewLines(p), [];
    FlattenIsShown(b);
    assert none + b == b;
    if Repeats(p.sections, [], 0) {
      RepeatsIsRight(p.sections, [], 0);
      assert none + NewOf(p.sections) == NewOf(p.sections);
    }
    if Shown(a) == Shown(b) {
      WrittenSize(p.sections, [], 0);
      SizeConcat(Written(p.sections, [], 0), p.tail);
      SizeConcat(NewOf(p.sections), p.tail);
      WrittenMembers(p.sections, [], 0);
      SameShown(a, b);
      AlikeRepeats(p.sections, [], 0, p.tail);
    }
  }

  /** What applying a rendered script gives, if its old lines hold no carriage returns: the lines as written,
      less the carriage returns of inserted lines, or an error when some hunk is out of range. */
  lemma ScriptWritten(preamble: seq<string>, p: Script)
    requires Preamble(preamble) && Rendered(p) && Flatten(OldLines(p)) != "\n" && AllOldClean(p.sections)
    ensures var sections := StripSections(p.sections);
            ApplyText(Flatten(OldLines(p)), Render(preamble, p)) ==
            if InRange(sections, [], 0) then Ok(Shown(Written(sections, [], 0) + p.tail)) else Err(HunkOutOfRange)
  {
    ApplyIsScriptRun(preamble, p);
    OldTextRemains(OldLines(p));
    StripKeepsOld(p.sections);
    RunIsWritten(StripSections(p.sections), p.tail, OrigLines(Flatten(OldLines(p))), HasSuffix(Flatten(OldLines(p)), "\n"));
  }

  lemma OldTextRemains(olds: seq<Line>)
    requires TextLines(olds) && Flatten(olds) != "\n"
    ensures Remaining(Start, OrigLines(Flatten(olds)), HasSuffix(Flatten(olds), "\n"), olds)
  {
    OrigOfText(olds);
    var orig := OrigLines(Flatten(olds));
    assert forall i :: 0 <= i < |olds| ==> orig[0 + i] == Texts(olds)[i];
  }

  /** Applying a rendered script gives its new text, newline at the end included, exactly when the old text
      is not a lone newline, no rendered line ends in a carriage return, and every hunk that names no old
      line stands at the start of the text or repeats the line before it. */
  lemma ScriptExact(preamble: seq<string>, p: Script)
    requires Preamble(preamble) && Rendered(p)
    ensures ApplyText(Flatten(OldLines(p)), Render(preamble, p)) == Ok(Flatten(NewLines(p)))
            <==> Flatten(OldLines(p)) != "\n" && NoCRs(p.sections) && Repeats(p.sections, [], 0)
  {
    if Flatten(OldLines(p)) == "\n" {
      LoneNewlineFails(preamble, p);
    } else if NoCRs(p.sections) {
      StripNothing(p.sections);
      ScriptWritten(preamble, p);
      if InRange(p.sections, [], 0) {
        WrittenRight(p);
      } else if Repeats(p.sections, [], 0) {
        RepeatsIsRight(p.sections, [], 0);
      }
    } else if AllOldClean(p.sections) {
      CarriageReturnsShow(preamble, p);
    } else {
      OldCarriageReturnFails(preamble, p);
    }
  }

  lemma CarriageReturnsShow(preamble: seq<string>, p: Script)
    requires Preamble(preamble) && Rendered(p) && Flatten(OldLines(p)) != "\n"
    requires AllOldClean(p.sections) && !NoCRs(p.sections)
    ensures ApplyText(Flatten(OldLines(p)), Render(preamble, p)) != Ok(Flatten(NewLines(p)))
  {
    var stripped := StripSections(p.sections);
    ScriptWritten(preamble, p);
    StripSectionsShrinks(p.sections);
    WrittenSize(stripped, [], 0);
    SizeConcat(Written(stripped, [], 0), p.tail);
    SizeConcat(NewOf(p.sections), p.tail);
    SmallerDiffers(Written(stripped, [], 0) + p.tail, NewLines(p));
  }

  lemma OldCarriageReturnFails(preamble: seq<string>, p: Script)
    requires Preamble(preamble) && Rendered(p) && Flatten(OldLines(p)) != "\n" && !AllOldClean(p.sections)
    ensures ApplyText(Flatten(OldLines(p)), Render(preamble, p)).Err?
  {
    ApplyIsScriptRun(preamble, p);
    OldTextRemains(OldLines(p));
    StripSectionsHunks(p.sections, 0);
    ScriptMismatch(p.sections, p.tail, OrigLines(Flatten(OldLines(p))), HasSuffix(Flatten(OldLines(p)), "\n"));
  }

  lemma ScriptMismatch(sections: seq<Section>, tail: seq<Line>, orig: seq<string>, origNL: bool)
    requires Matches(orig, 0, OldOf(sections) + tail) && !AllOldClean(sections)
    ensures RunHunks(StripHunks(Hunks(sections, 0)), Start, orig, origNL).Err?
  {
    var none: seq<Line> := [];
    assert none + OldOf(sections) + tail == OldOf(sections) + tail;
    SectionsMismatch(sections, [], 0, tail, Start, orig, origNL);
  }

  lemma {:induction false} AnchoredRepeats(sections: seq<Section>, held: seq<Line>, at: nat)
    requires Anchored(sections, at)
    ensures Repeats(sections, held, at)
    decreases |sections|
  {
    if sections != [] {
      AnchoredRepeats(sections[1..], Kept(sections[0], held, at), After(sections[0], at));
    }
  }

  /** The usual case: when every hunk names an old line or is at the start, only the lone newline and the
      carriage returns remain. */
  lemma RenderThenApply(preamble: seq<string>, p: Script)
    requires Preamble(preamble) && Rendered(p) && Anchored(p.sections, 0)
    ensures ApplyText(Flatten(OldLines(p)), Render(preamble, p)) == Ok(Flatten(NewLines(p)))
            <==> Flatten(OldLines(p)) != "\n" && NoCRs(p.sections)
  {
    ScriptExact(preamble, p);
    AnchoredRepeats(p.sections, [], 0);
  }

  // ---------------------------------------------------------------- undoing

  function InvertEdit(e: Edit): Edit {
    match e
    case Keep(l) => Keep(l)
    case Del(l) => Ins(l)
    case Ins(l) => Del(l)
  }

  function InvertEdits(edits: seq<Edit>): seq<Edit> {
    if edits == [] then [] else [InvertEdit(edits[0])] + InvertEdits(edits[1..])
  }

  /** The same sections with `+` and `-` swapped; each section has a header of its own. */
  predicate Inverse(a: seq<Section>, b: seq<Section>) {
    && |a| == |b|
    && forall i :: 0 <= i < |a| ==> a[i].gap == b[i].gap && b[i].hunk == InvertEdits(a[i].hunk)
  }

  lemma {:induction false} InvertSwaps(edits: seq<Edit>)
    ensures Old(InvertEdits(edits)) == New(edits) && New(InvertEdits(edits)) == Old(edits)
    ensures NoCR(InvertEdits(edits)) <==> NoCR(edits)
  {
    if edits != [] {
      InvertSwaps(edits[1..]);
      TailOfCons(InvertEdit(edits[0]), InvertEdits(edits[1..]));
      assert edits == [edits[0]] + edits[1..];
    }
  }

  lemma {:induction false} InverseSwaps(a: seq<Section>, b: seq<Section>)
    requires Inverse(a, b)
    ensures OldOf(b) == NewOf(a) && NewOf(b) == OldOf(a)
  {
    if a != [] {
      InvertSwaps(a[0].hunk);
      InverseSwaps(a[1..], b[1..]);
    }
  }

  lemma InverseNoCRs(a: seq<Section>, b: seq<Section>)
    requires Inverse(a, b)
    ensures NoCRs(a) <==> NoCRs(b)
  {
    forall i | 0 <= i < |a|
      ensures NoCR(a[i].hunk) <==> NoCR(b[i].hunk)
    {
      InvertSwaps(a[i].hunk);
    }
  }

  /** Applying a script and then its inverse gives the old text back, exactly when neither text is a
      lone newline, no rendered line ends in a carriage return, and both scripts repeat where they only
      insert, as they do when every hunk is anchored. */
  lemma ApplyThenUndo(preamble: seq<string>, p: Script, undoPreamble: seq<string>, undo: Script)
    requires Preamble(preamble) && Rendered(p)
    requires Preamble(undoPreamble) && Rendered(undo)
    requires Inverse(p.sections, undo.sections) && p.tail == undo.tail
    ensures var before, after := Flatten(OldLines(p)), Flatten(NewLines(p));
            ApplyText(before, Render(preamble, p)) == Ok(after)
            && ApplyText(after, Render(undoPreamble, undo)) == Ok(before)
            <==> before != "\n" && after != "\n" && NoCRs(p.sections)
                 && Repeats(p.sections, [], 0) && Repeats(undo.sections, [], 0)
    ensures Anchored(p.sections, 0) ==> Repeats(p.sections, [], 0)
    ensures Anchored(undo.sections, 0) ==> Repeats(undo.sections, [], 0)
  {
    if Anchored(p.sections, 0) {
      AnchoredRepeats(p.sections, [], 0);
    }
    if Anchored(undo.sections, 0) {
      AnchoredRepeats(undo.sections, [], 0);
    }
    InverseSwaps(p.sections, undo.sections);
    InverseNoCRs(p.sections, undo.sections);
    ScriptExact(preamble, p);
    ScriptExact(undoPreamble, undo);
  }

  /** The usual header reads as the start of its hunk, for every count of lines before it. */
  lemma UsualHeader(oldBefore: nat, oldCount: nat, newBefore: nat, newCount: nat, edits: seq<Edit>)
    requires oldBefore < MaxInt
    ensures Readable(Hunk(Header(oldBefore, oldCount, newBefore, newCount), RangeStart(oldBefore, oldCount), edits))
  {
    HeaderParses(oldBefore, oldCount, newBefore, newCount);
    HeaderText(oldBefore, oldCount, newBefore, newCount);
  }

  // ---------------------------------------------------------------- one hunk that only inserts

  /** Inserting below untouched lines without naming one. */
  predicate OnlyInserts(s: Section) {
    s.gap != [] && Old(s.hunk) == [] && New(s.hunk) != [] && NoCR(s.hunk)
  }

  /** What the applier writes for one such hunk: the inserted lines before the last copied one. */
  function Misplaced(s: Section, tail: seq<Line>): seq<Line>
    requires s.gap != []
  {
    s.gap[..|s.gap| - 1] + New(s.hunk) + [s.gap[|s.gap| - 1]] + tail
  }

  lemma LateSection(s: Section)
    requires OnlyInserts(s)
    ensures Late(s, 0) && Copied(s, [], 0) == s.gap[..|s.gap| - 1] && Kept(s, [], 0) == [s.gap[|s.gap| - 1]]
  {
    var none: seq<Line> := [];
    assert none + s.gap == s.gap;
  }

  lemma OneLateWritten(s: Section, tail: seq<Line>)
    requires OnlyInserts(s)
    ensures InRange([s], [], 0) && Written([s], [], 0) + tail == Misplaced(s, tail)
  {
    LateSection(s);
    var kept := Kept(s, [], 0);
    assert [s][1..] == [];
    assert InRange([], kept, After(s, 0)) && Written([], kept, After(s, 0)) == kept;
  }

  lemma OneLateRepeats(s: Section)
    requires OnlyInserts(s)
    ensures Repeats([s], [], 0) <==> AllAre(New(s.hunk), [s.gap[|s.gap| - 1]])
  {
    LateSection(s);
    assert [s][1..] == [];
  }

  lemma AllAreIs(lines: seq<Line>, x: Line)
    ensures AllAre(lines, [x]) <==> forall l :: l in lines ==> l == x
  {
    assert forall l :: [l] == [x] <==> [l][0] == x;
  }

  lemma InsertionMisplaced(preamble: seq<string>, p: Script)
    requires Preamble(preamble) && |p.sections| == 1 && OnlyInserts(p.sections[0])
    requires Rendered(p) && Flatten(OldLines(p)) != "\n"
    ensures var lines := Misplaced(p.sections[0], p.tail);
            ApplyText(Flatten(OldLines(p)), Render(preamble, p)) ==
            Ok(Join(Texts(lines), "\n") + if LastEnded(OldLines(p)) then "\n" else "")
  {
    var s := p.sections[0];
    assert p.sections == [s] && [s][1..] == [];
    OneLateWritten(s, p.tail);
    StripNothing(p.sections);
    ScriptWritten(preamble, p);
    assert OldOf([s]) == s.gap + [] + OldOf([]) == s.gap;
    var lines, olds := Misplaced(s, p.tail), OldLines(p);
    assert lines[|lines| - 1] == olds[|olds| - 1];
  }

  /** Such a hunk gives the new text only when every inserted line repeats the line before it. */
  lemma OnlyInsertsExact(preamble: seq<string>, p: Script)
    requires Preamble(preamble) && |p.sections| == 1 && OnlyInserts(p.sections[0]) && Rendered(p)
    ensures var s := p.sections[0];
            ApplyText(Flatten(OldLines(p)), Render(preamble, p)) == Ok(Flatten(NewLines(p)))
            <==> Flatten(OldLines(p)) != "\n" && forall l :: l in New(s.hunk) ==> l == s.gap[|s.gap| - 1]
  {
    var s := p.sections[0];
    assert p.sections == [s];
    OneLateRepeats(s);
    AllAreIs(New(s.hunk), s.gap[|s.gap| - 1]);
    ScriptExact(preamble, p);
  }

  /** The smallest such case: a patch that adds line `b` after the only line `a`. */
  function AddAfter(a: string, b: string, header: string): Script {
    Script([Section([Line(a, true)], header, [Ins(Line(b, true))])], [])
  }

  lemma AddAfterLines(a: string, b: string, header: string)
    ensures OldLines(AddAfter(a, b, header)) == [Line(a, true)]
    ensures NewLines(AddAfter(a, b, header)) == [Line(a, true), Line(b, true)]
    ensures New(AddAfter(a, b, header).sections[0].hunk) == [Line(b, true)]
    ensures Old(AddAfter(a, b, header).sections[0].hunk) == []
  {
    var s := AddAfter(a, b, header).sections[0];
    assert s.hunk[1..] == [] && New([]) == [] && Old([]) == [];
    var sections := AddAfter(a, b, header).sections;
    assert sections[1..] == [] && OldOf([]) == [] && NewOf([]) == [];
    assert OldOf(sections) == s.gap && NewOf(sections) == s.gap + New(s.hunk);
  }

  lemma TwoLines(a: string, b: string)
    ensures Flatten([Line(a, true)]) == a + "\n" && Flatten([Line(a, true), Line(b, true)]) == a + "\n" + b + "\n"
    ensures Join(Texts([Line(a, true), Line(b, true)]), "\n") + "\n" == a + "\n" + b + "\n"
  {
    var la, lb := Line(a, true), Line(b, true);
    FlattenIsJoin([la, lb]);
    assert [la, lb][1..] == [lb] && [la][1..] == [] && [lb][1..] == [];
  }

  lemma AddAfterGoesBefore(a: string, b: string, header: string)
    requires a != "" && '\n' !in a && '\n' !in b && !EndsInCR(b)
    requires Readable(Hunk(header, 1, [Ins(Line(b, true))]))
    ensures Flatten(OldLines(AddAfter(a, b, header))) == a + "\n"
    ensures Flatten(NewLines(AddAfter(a, b, header))) == a + "\n" + b + "\n"
    ensures ApplyText(a + "\n", Render([], AddAfter(a, b, header))) == Ok(b + "\n" + a + "\n")
  {
    var p := AddAfter(a, b, header);
    var s := p.sections[0];
    AddAfterLines(a, b, header);
    TwoLines(a, b);
    TwoLines(b, a);
    HunksCons(p.sections, 0, 1);
    assert Misplaced(s, []) == [Line(b, true), Line(a, true)];
    InsertionMisplaced([], p);
  }
}
