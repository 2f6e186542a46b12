/** Rendering an edit script and applying it gives the new text, and the inverse script undoes it. */
module UnifiedPatchLaws {
  import opened Text
  import opened UnifiedPatch

  // ---------------------------------------------------------------- edits run as lines

  function RunEdit(e: Edit, st: State, orig: seq<string>): (r: Result<State, PatchError>)
    requires st.cur <= |orig|
    ensures r.Ok? ==> r.value.cur <= |orig|
  {
    var l := e.line;
    var matches := st.cur < |orig| && orig[st.cur] == l.text;
    match e
    case Keep(_) =>
      if matches then Ok(State(st.out + [l.text], st.cur + 1, true, l.terminated, Context)) else Err(ContextMismatch)
    case Del(_) =>
      if matches then Ok(st.(cur := st.cur + 1, last := Removed)) else Err(DeleteMismatch)
    case Ins(_) =>
      Ok(State(st.out + [l.text], st.cur, true, l.terminated, Added))
  }

  function RunEdits(edits: seq<Edit>, st: State, orig: seq<string>): (r: Result<State, PatchError>)
    requires st.cur <= |orig|
    ensures r.Ok? ==> r.value.cur <= |orig|
  {
    if edits == [] then Ok(st)
    else
      match RunEdit(edits[0], st, orig)
      case Err(e) => Err(e)
      case Ok(next) => RunEdits(edits[1..], next, orig)
  }

  /** Copying the untouched lines up to where a hunk starts. */
  function RunGap(oldStart: nat, st: State, orig: seq<string>, origNL: bool): (r: Result<State, PatchError>)
    requires st.cur <= |orig|
    ensures r.Ok? ==> r.value.cur <= |orig|
  {
    var target := if oldStart == 0 then 0 else oldStart - 1;
    if target < st.cur || target > |orig| then Err(HunkOutOfRange)
    else if target > st.cur then
      Ok(State(st.out + orig[st.cur..target], target, true, target < |orig| || origNL, NoLine))
    else Ok(st)
  }

  function RunHunk(h: Hunk, st: State, orig: seq<string>, origNL: bool): (r: Result<State, PatchError>)
    requires st.cur <= |orig|
    ensures r.Ok? ==> r.value.cur <= |orig|
  {
    match RunGap(h.oldStart, st, orig, origNL)
    case Err(e) => Err(e)
    case Ok(placed) => RunEdits(h.edits, placed, orig)
  }

  function RunHunks(hunks: seq<Hunk>, st: State, orig: seq<string>, origNL: bool): (r: Result<State, PatchError>)
    requires st.cur <= |orig|
    ensures r.Ok? ==> r.value.cur <= |orig|
  {
    if hunks == [] then Ok(st)
    else
      match RunHunk(hunks[0], st, orig, origNL)
      case Err(e) => Err(e)
      case Ok(next) => RunHunks(hunks[1..], next, orig, origNL)
  }

  function Then(r: Result<State, PatchError>, rest: seq<string>, orig: seq<string>, origNL: bool)
    : Result<State, PatchError>
    requires r.Ok? ==> r.value.cur <= |orig|
  {
    match r
    case Err(e) => Err(e)
    case Ok(st) => Interpret(rest, true, st, orig, origNL)
  }

  lemma EditRuns(e: Edit, rest: seq<string>, st: State, orig: seq<string>, origNL: bool)
    requires st.cur <= |orig|
    ensures Interpret(RenderEdit(e) + rest, true, st, orig, origNL) == Then(RunEdit(e, st, orig), rest, orig, origNL)
  {
    var lines := RenderEdit(e) + rest;
    assert lines[0][0] == RenderEdit(e)[0][0] && lines[0][1..] == e.line.text;
    if !e.line.terminated {
      assert lines[1..] == [Marker] + rest;
      assert lines[1..][1..] == rest;
      assert Marker[0] == '\\';
    } else {
      assert lines[1..] == rest;
    }
  }

  lemma {:induction false} EditsRun(edits: seq<Edit>, rest: seq<string>, st: State, orig: seq<string>, origNL: bool)
    requires st.cur <= |orig|
    ensures Interpret(RenderEdits(edits) + rest, true, st, orig, origNL) ==
            Then(RunEdits(edits, st, orig), rest, orig, origNL)
  {
    if edits == [] {
      assert RenderEdits(edits) + rest == rest;
    } else {
      var more := RenderEdits(edits[1..]) + rest;
      assert RenderEdits(edits) + rest == RenderEdit(edits[0]) + more;
      EditRuns(edits[0], more, st, orig, origNL);
      var next := RunEdit(edits[0], st, orig);
      if next.Ok? {
        EditsRun(edits[1..], rest, next.value, orig, origNL);
      }
    }
  }

  // ---------------------------------------------------------------- headers

  predicate Word(s: string) {
    s != "" && forall c :: c in s ==> !IsSpace(c)
  }

  lemma {:induction false} WordLengthOf(w: string, rest: string)
    requires forall c :: c in w ==> !IsSpace(c)
    requires rest == "" || IsSpace(rest[0])
    ensures WordLength(w + rest) == |w|
  {
    if w == "" {
      assert w + rest == rest;
    } else {
      assert (w + rest)[0] == w[0];
      assert (w + rest)[1..] == w[1..] + rest;
      assert forall c :: c in w[1..] ==> c in w;
      WordLengthOf(w[1..], rest);
    }
  }

  lemma FieldsOfWord(w: string, rest: string)
    requires Word(w) && (rest == "" || IsSpace(rest[0]))
    ensures Fields(w + rest) == [w] + Fields(rest)
  {
    assert (w + rest)[0] == w[0] && w[0] in w;
    WordLengthOf(w, rest);
    assert (w + rest)[..|w|] == w && (w + rest)[|w|..] == rest;
  }

  lemma FieldsAfterSpace(s: string)
    ensures Fields(" " + s) == Fields(s)
  {
    assert (" " + s)[1..] == s;
    assert TrimLeft(" " + s) == TrimLeft(s);
  }

  lemma DigitsAreNoSpace(s: string)
    requires AllDigits(s)
    ensures forall c :: c in s ==> !IsSpace(c) && c != ',' && c != '\n' && c != '\r'
  {
    forall c | c in s
      ensures IsDigit(c)
    {
      var i :| 0 <= i < |s| && s[i] == c;
      assert IsDigit(s[i]);
    }
  }

  function Range(a: nat, b: nat): string {
    Itoa(a) + [','] + Itoa(b)
  }

  lemma RangeIsWord(a: nat, b: nat)
    ensures Word(Range(a, b)) && forall c :: c in Range(a, b) ==> c != '\n' && c != '\r'
    ensures Split(Range(a, b), ',')[0] == Itoa(a)
  {
    DigitsAreNoSpace(Itoa(a));
    DigitsAreNoSpace(Itoa(b));
    SplitAtSep(Itoa(a), Itoa(b), ',');
  }

  lemma NextField(w: string, rest: string)
    requires Word(w)
    ensures Fields(w + (" " + rest)) == [w] + Fields(rest)
  {
    FieldsOfWord(w, " " + rest);
    FieldsAfterSpace(rest);
  }

  lemma FourFields(a: string, b: string, c: string, d: string)
    requires Word(a) && Word(b) && Word(c) && Word(d)
    ensures Fields(a + (" " + (b + (" " + (c + (" " + d)))))) == [a, b, c, d]
  {
    NextField(a, b + (" " + (c + (" " + d))));
    NextField(b, c + (" " + d));
    NextField(c, d);
    assert d + "" == d;
    FieldsOfWord(d, "");
  }

  lemma HeaderParses(oldBefore: nat, oldCount: nat, newBefore: nat, newCount: nat)
    requires oldBefore < MaxInt
    ensures ParseOldStart(Header(oldBefore, oldCount, newBefore, newCount)) == Ok(RangeStart(oldBefore, oldCount))
  {
    var start, newStart := RangeStart(oldBefore, oldCount), RangeStart(newBefore, newCount);
    RangeIsWord(start, oldCount);
    RangeIsWord(newStart, newCount);
    var minus, plus := "-" + Range(start, oldCount), "+" + Range(newStart, newCount);
    FourFields("@@", minus, plus, "@@");
    assert TrimPrefix(minus, "-") == Range(start, oldCount);
    AtoiItoa(start);
  }

  lemma HeaderText(oldBefore: nat, oldCount: nat, newBefore: nat, newCount: nat)
    ensures var h := Header(oldBefore, oldCount, newBefore, newCount);
            HasPrefix(h, "@@") && !EndsInCR(h) && '\n' !in h
  {
    var start, newStart := RangeStart(oldBefore, oldCount), RangeStart(newBefore, newCount);
    RangeIsWord(start, oldCount);
    RangeIsWord(newStart, newCount);
    var minus, plus := "-" + Range(start, oldCount), "+" + Range(newStart, newCount);
    assert '\n' !in minus && '\n' !in plus;
    var h := Header(oldBefore, oldCount, newBefore, newCount);
    assert h == "@@" + (" " + (minus + (" " + (plus + (" " + "@@")))));
    assert h[|h| - 1] == '@';
  }

  lemma ReadableCons(h: Hunk, hunks: seq<Hunk>)
    requires Readable(h) && AllReadable(hunks)
    ensures AllReadable([h] + hunks)
  {
  }

  lemma HunkRuns(h: Hunk, rest: seq<string>, inHunk: bool, st: State, orig: seq<string>, origNL: bool)
    requires st.cur <= |orig| && Readable(h)
    ensures Interpret([h.header] + (RenderEdits(h.edits) + rest), inHunk, st, orig, origNL) ==
            Then(RunHunk(h, st, orig, origNL), rest, orig, origNL)
  {
    var body := RenderEdits(h.edits) + rest;
    assert ([h.header] + body)[1..] == body;
    var placed := RunGap(h.oldStart, st, orig, origNL);
    assert HunkHeader(h.header, st, orig, origNL) == placed;
    if placed.Ok? {
      EditsRun(h.edits, rest, placed.value, orig, origNL);
    }
  }

  lemma {:induction false} HunksRun(hunks: seq<Hunk>, rest: seq<string>, inHunk: bool,
                                    st: State, orig: seq<string>, origNL: bool)
    requires st.cur <= |orig|
    requires AllReadable(hunks)
    requires hunks == [] ==> inHunk
    ensures Interpret(RenderHunks(hunks) + rest, inHunk, st, orig, origNL) ==
            Then(RunHunks(hunks, st, orig, origNL), rest, orig, origNL)
  {
    if hunks == [] {
      assert RenderHunks(hunks) + rest == rest;
    } else {
      var later := RenderHunks(hunks[1..]);
      assert RenderHunks(hunks) + rest == [hunks[0].header] + (RenderEdits(hunks[0].edits) + (later + rest));
      HunkRuns(hunks[0], later + rest, inHunk, st, orig, origNL);
      var next := RunHunk(hunks[0], st, orig, origNL);
      if next.Ok? {
        HunksRun(hunks[1..], rest, true, next.value, orig, origNL);
      }
    }
  }

  // ---------------------------------------------------------------- carriage returns and the diff text

  function StripCR(s: string): string {
    if EndsInCR(s) then s[..|s| - 1] else s
  }

  function StripLines(lines: seq<string>): (r: seq<string>)
    ensures |r| == |lines|
  {
    seq(|lines|, i requires 0 <= i < |lines| => StripCR(lines[i]))
  }

  function StripEdit(e: Edit): Edit {
    e.(line := e.line.(text := StripCR(e.line.text)))
  }

  function StripEdits(edits: seq<Edit>): seq<Edit> {
    if edits == [] then [] else [StripEdit(edits[0])] + StripEdits(edits[1..])
  }

  function StripHunks(hunks: seq<Hunk>): seq<Hunk> {
    if hunks == [] then [] else [hunks[0].(edits := StripEdits(hunks[0].edits))] + StripHunks(hunks[1..])
  }

  lemma DropCRCons(c: char, below: string)
    requires below != ""
    ensures DropCR([c] + below) ==
            if c == '\r' && below[0] == '\n' then "\n" + DropCR(below[1..]) else [c] + DropCR(below)
  {
    var s := [c] + below;
    assert s[1..] == below && s[1] == below[0] && s[2..] == below[1..];
  }

  lemma StripCons(c: char, tail: string)
    requires tail != ""
    ensures StripCR([c] + tail) == [c] + StripCR(tail)
  {
    var s := [c] + tail;
    assert s[..|s| - 1] == [c] + tail[..|tail| - 1];
  }

  lemma {:induction false} DropCRLine(a: string, rest: string)
    requires '\n' !in a
    ensures DropCR(a + ("\n" + rest)) == StripCR(a) + ("\n" + DropCR(rest))
  {
    var end := "\n" + rest;
    if a == "" {
      assert end[1..] == rest;
      assert a + end == end;
    } else {
      var tail := a[1..];
      assert a == [a[0]] + tail && forall c :: c in tail ==> c in a;
      ConcatAssoc([a[0]], tail, end);
      DropCRCons(a[0], tail + end);
      DropCRLine(tail, rest);
      if tail == "" {
        assert tail + end == end && end[1..] == rest && a == [a[0]];
      } else {
        assert (tail + end)[0] == tail[0] && tail[0] in tail;
        StripCons(a[0], tail);
        ConcatAssoc([a[0]], StripCR(tail), "\n" + DropCR(rest));
      }
    }
  }

  predicate NoBreaks(lines: seq<string>) {
    forall l :: l in lines ==> '\n' !in l
  }

  /** The lines the applier sees of a diff whose lines are all ended. */
  lemma {:induction false} DiffLines(lines: seq<string>)
    requires NoBreaks(lines)
    ensures Split(DropCR(Join(lines + [""], "\n")), '\n') == StripLines(lines) + [""]
  {
    if lines == [] {
      assert lines + [""] == [""];
      assert StripLines(lines) + [""] == [""];
    } else {
      var a, rest := lines[0], lines[1..];
      assert (lines + [""])[1..] == rest + [""];
      var more := Join(rest + [""], "\n");
      ConcatAssoc(a, "\n", more);
      DropCRLine(a, more);
      DiffLines(rest);
      ConcatAssoc(StripCR(a), "\n", DropCR(more));
      assert '\n' !in StripCR(a);
      SplitAtSep(StripCR(a), DropCR(more), '\n');
      assert StripLines(lines) == [StripCR(a)] + StripLines(rest);
      assert [StripCR(a)] + (StripLines(rest) + [""]) == StripLines(lines) + [""];
    }
  }

  lemma StripConcat(a: seq<string>, b: seq<string>)
    ensures StripLines(a + b) == StripLines(a) + StripLines(b)
  {
  }

  lemma StripRenderEdit(e: Edit)
    ensures StripLines(RenderEdit(e)) == RenderEdit(StripEdit(e))
  {
    var line := RenderEdit(e)[0];
    assert line[1..] == e.line.text;
    assert StripCR(line) == RenderEdit(StripEdit(e))[0];
    assert !EndsInCR(Marker);
  }

  lemma {:induction false} StripRenderEdits(edits: seq<Edit>)
    ensures StripLines(RenderEdits(edits)) == RenderEdits(StripEdits(edits))
  {
    if edits != [] {
      StripRenderEdit(edits[0]);
      StripRenderEdits(edits[1..]);
      StripConcat(RenderEdit(edits[0]), RenderEdits(edits[1..]));
      assert StripEdits(edits)[1..] == StripEdits(edits[1..]);
    }
  }

  lemma {:induction false} StripRenderHunks(hunks: seq<Hunk>)
    requires AllReadable(hunks)
    ensures StripLines(RenderHunks(hunks)) == RenderHunks(StripHunks(hunks))
    ensures AllReadable(StripHunks(hunks))
  {
    if hunks != [] {
      var h := hunks[0];
      assert h in hunks && Readable(h);
      StripRenderHunks(hunks[1..]);
      StripRenderEdits(h.edits);
      StripConcat(RenderEdits(h.edits), RenderHunks(hunks[1..]));
      StripConcat([h.header], RenderEdits(h.edits) + RenderHunks(hunks[1..]));
      assert StripLines([h.header]) == [h.header];
      assert StripHunks(hunks)[1..] == StripHunks(hunks[1..]);
      ReadableCons(h.(edits := StripEdits(h.edits)), StripHunks(hunks[1..]));
    }
  }

  lemma {:induction false} PreambleSkipped(preamble: seq<string>, rest: seq<string>, st: State, orig: seq<string>,
                                           origNL: bool)
    requires st.cur <= |orig|
    requires forall l :: l in preamble ==> !HasPrefix(l, "@@")
    ensures Interpret(preamble + rest, false, st, orig, origNL) == Interpret(rest, false, st, orig, origNL)
  {
    if preamble == [] {
      assert preamble + rest == rest;
    } else {
      assert (preamble + rest)[1..] == preamble[1..] + rest;
      assert (preamble + rest)[0] == preamble[0];
      PreambleSkipped(preamble[1..], rest, st, orig, origNL);
    }
  }

  function FinishRun(r: Result<State, PatchError>, orig: seq<string>, origNL: bool): Result<string, PatchError>
    requires r.Ok? ==> r.value.cur <= |orig|
  {
    match r
    case Err(e) => Err(e)
    case Ok(st) => Ok(Finish(st, orig, origNL))
  }

  predicate NoBreakEdits(edits: seq<Edit>) {
    forall e :: e in edits ==> '\n' !in e.line.text
  }

  lemma {:induction false} EditLinesNoBreaks(edits: seq<Edit>)
    requires NoBreakEdits(edits)
    ensures NoBreaks(RenderEdits(edits))
  {
    if edits != [] {
      EditLinesNoBreaks(edits[1..]);
      assert edits[0] in edits;
      forall l | l in RenderEdit(edits[0])
        ensures '\n' !in l
      {
        assert '\n' !in Marker;
      }
    }
  }

  /** A rendered line is the first header, one of the first hunk's, or one of the rest. */
  lemma RenderedLineIs(hunks: seq<Hunk>)
    requires hunks != []
    ensures forall l :: l in RenderHunks(hunks) ==>
              l == hunks[0].header || l in RenderEdits(hunks[0].edits) || l in RenderHunks(hunks[1..])
  {
    var edits, rest := RenderEdits(hunks[0].edits), RenderHunks(hunks[1..]);
    assert RenderHunks(hunks) == [hunks[0].header] + (edits + rest);
    assert forall l :: l in edits + rest ==> l in edits || l in rest;
  }

  lemma {:induction false} HunkLinesNoBreaks(hunks: seq<Hunk>)
    requires AllReadable(hunks) && forall h :: h in hunks ==> NoBreakEdits(h.edits)
    ensures NoBreaks(RenderHunks(hunks))
  {
    if hunks != [] {
      var h, rest := hunks[0], hunks[1..];
      assert h in hunks && forall g :: g in rest ==> g in hunks;
      EditLinesNoBreaks(h.edits);
      HunkLinesNoBreaks(rest);
      RenderedLineIs(hunks);
    }
  }

  lemma DiffOfHunks(preamble: seq<string>, hunks: seq<Hunk>)
    requires Preamble(preamble) && AllReadable(hunks)
    requires forall h :: h in hunks ==> NoBreakEdits(h.edits)
    ensures AllReadable(StripHunks(hunks))
    ensures Split(DropCR(Join(preamble + RenderHunks(hunks) + [""], "\n")), '\n') ==
            StripLines(preamble) + (RenderHunks(StripHunks(hunks)) + [""])
  {
    HunkLinesNoBreaks(hunks);
    var body := RenderHunks(hunks);
    DiffLines(preamble + body);
    StripConcat(preamble, body);
    StripRenderHunks(hunks);
    assert StripLines(preamble) + StripLines(body) + [""] == StripLines(preamble) + (StripLines(body) + [""]);
  }

  lemma StripPreamble(preamble: seq<string>)
    requires Preamble(preamble)
    ensures forall l :: l in StripLines(preamble) ==> !HasPrefix(l, "@@")
  {
    forall l | l in StripLines(preamble)
      ensures !HasPrefix(l, "@@")
    {
      var i :| 0 <= i < |preamble| && StripCR(preamble[i]) == l;
      assert preamble[i] in preamble;
      HeaderKept(preamble[i], "@@");
    }
  }

  lemma HeaderKept(line: string, mark: string)
    ensures HasPrefix(StripCR(line), mark) ==> HasPrefix(line, mark)
  {
    var kept := StripCR(line);
    assert kept == line[..|kept|];
    if HasPrefix(kept, mark) {
      assert mark == kept[..|mark|] == line[..|mark|];
    }
  }

  lemma LastLineIgnored(st: State, orig: seq<string>, origNL: bool)
    requires st.cur <= |orig|
    ensures Interpret([""], true, st, orig, origNL) == Ok(st)
  {
    assert [""][1..] == [];
    assert Interpret([], true, st, orig, origNL) == Ok(st);
  }

  lemma HunksRunAlone(hunks: seq<Hunk>, orig: seq<string>, origNL: bool)
    requires AllReadable(hunks)
    ensures Interpret(RenderHunks(hunks) + [""], false, Start, orig, origNL) == RunHunks(hunks, Start, orig, origNL)
  {
    if hunks == [] {
      assert RenderHunks(hunks) + [""] == [""];
    } else {
      HunksRun(hunks, [""], false, Start, orig, origNL);
      var r := RunHunks(hunks, Start, orig, origNL);
      if r.Ok? {
        LastLineIgnored(r.value, orig, origNL);
      }
    }
  }

  /** Applying a diff text is running its hunks, less the carriage returns, on the old lines. */
  lemma ApplyIsRun(original: string, preamble: seq<string>, hunks: seq<Hunk>)
    requires Preamble(preamble) && AllReadable(hunks)
    requires forall h :: h in hunks ==> NoBreakEdits(h.edits)
    ensures var orig, origNL := OrigLines(original), HasSuffix(original, "\n");
            ApplyText(original, Join(preamble + RenderHunks(hunks) + [""], "\n")) ==
            FinishRun(RunHunks(StripHunks(hunks), Start, orig, origNL), orig, origNL)
  {
    var orig, origNL := OrigLines(original), HasSuffix(original, "\n");
    DiffOfHunks(preamble, hunks);
    StripPreamble(preamble);
    PreambleSkipped(StripLines(preamble), RenderHunks(StripHunks(hunks)) + [""], Start, orig, origNL);
    HunksRunAlone(StripHunks(hunks), orig, origNL);
  }

  // ---------------------------------------------------------------- texts and lines

  function Texts(lines: seq<Line>): (r: seq<string>)
    ensures |r| == |lines|
  {
    seq(|lines|, i requires 0 <= i < |lines| => lines[i].text)
  }

  predicate EndedButLast(lines: seq<Line>) {
    forall i :: 0 <= i < |lines| - 1 ==> lines[i].terminated
  }

  predicate LastEnded(lines: seq<Line>) {
    lines != [] && lines[|lines| - 1].terminated
  }

  lemma {:induction false} FlattenIsJoin(lines: seq<Line>)
    requires EndedButLast(lines)
    ensures Flatten(lines) == Join(Texts(lines), "\n") + if LastEnded(lines) then "\n" else ""
  {
    if |lines| > 1 {
      FlattenIsJoin(lines[1..]);
      assert Texts(lines)[1..] == Texts(lines[1..]);
      assert lines[0].terminated;
    } else if |lines| == 1 {
      assert lines[1..] == [];
    }
  }

  lemma {:induction false} JoinEnds(parts: seq<string>)
    requires parts != []
    ensures HasSuffix(Join(parts, "\n"), parts[|parts| - 1])
    ensures |parts| >= 2 ==> Join(parts, "\n") != ""
  {
    if |parts| > 1 {
      JoinEnds(parts[1..]);
      var rest := Join(parts[1..], "\n");
      var all := parts[0] + "\n" + rest;
      var last := parts[|parts| - 1];
      assert all[|all| - |last|..] == rest[|rest| - |last|..];
    }
  }

  lemma OpenTextEnd(body: string, last: string)
    requires HasSuffix(body, last) && last != "" && '\n' !in last
    ensures !HasSuffix(body, "\n") && TrimSuffix(body, "\n") == body
  {
    assert body[|body| - 1] == body[|body| - |last|..][|last| - 1] == last[|last| - 1];
    assert last[|last| - 1] in last;
  }

  lemma EndedTextEnd(body: string)
    ensures HasSuffix(body + "\n", "\n") && TrimSuffix(body + "\n", "\n") == body
  {
    var text := body + "\n";
    assert text[..|text| - 1] == body && text[|text| - 1..] == "\n";
  }

  /** The applier sees the lines of a text, unless the text is a lone newline. */
  lemma OrigOfText(lines: seq<Line>)
    requires TextLines(lines) && Flatten(lines) != "\n"
    ensures OrigLines(Flatten(lines)) == Texts(lines)
    ensures HasSuffix(Flatten(lines), "\n") <==> LastEnded(lines)
  {
    FlattenIsJoin(lines);
    var parts, body := Texts(lines), Join(Texts(lines), "\n");
    if lines != [] {
      JoinEnds(parts);
      var last := lines[|lines| - 1];
      assert last in lines;
      if last.terminated {
        EndedTextEnd(body);
      } else {
        OpenTextEnd(body, last.text);
        assert body + "" == body;
      }
      assert |parts| == 1 ==> body == last.text;
      NoBreakTexts(lines);
      SplitJoin(parts, '\n');
    }
  }

  lemma NoBreakTexts(lines: seq<Line>)
    requires forall l :: l in lines ==> '\n' !in l.text
    ensures forall t :: t in Texts(lines) ==> '\n' !in t
  {
    forall t | t in Texts(lines)
      ensures '\n' !in t
    {
      var i :| 0 <= i < |lines| && lines[i].text == t;
      assert lines[i] in lines;
    }
  }

  // ---------------------------------------------------------------- a matching script runs through

  /** The state's output is exactly these new lines. */
  predicate Shows(st: State, lines: seq<Line>) {
    && st.out == Texts(lines)
    && (st.hasOutput <==> lines != [])
    && (lines != [] ==> (st.endsNL <==> LastEnded(lines)))
  }

  lemma ShowsMore(st: State, lines: seq<Line>, more: seq<Line>, next: State)
    requires Shows(st, lines)
    requires next.out == st.out + Texts(more) && more != [] && next.hasOutput && (next.endsNL <==> LastEnded(more))
    ensures Shows(next, lines + more)
  {
    assert Texts(lines + more) == Texts(lines) + Texts(more);
  }

  function NewOfEdit(e: Edit): seq<Line> {
    if e.Del? then [] else [e.line]
  }

  function OldOfEdit(e: Edit): seq<Line> {
    if e.Ins? then [] else [e.line]
  }

  lemma EditApplies(e: Edit, st: State, orig: seq<string>, before: seq<Line>)
    requires st.cur + |OldOfEdit(e)| <= |orig|
    requires !e.Ins? ==> orig[st.cur] == e.line.text
    requires Shows(st, before)
    ensures var r := RunEdit(e, st, orig);
            r.Ok? && r.value.cur == st.cur + |OldOfEdit(e)| && Shows(r.value, before + NewOfEdit(e))
  {
    if e.Del? {
      assert before + NewOfEdit(e) == before;
    } else {
      assert Texts([e.line]) == [e.line.text];
      ShowsMore(st, before, [e.line], RunEdit(e, st, orig).value);
    }
  }

  /** These old lines stand at this place. */
  predicate Matches(orig: seq<string>, at: nat, olds: seq<Line>) {
    at + |olds| <= |orig| && forall i :: 0 <= i < |olds| ==> orig[at + i] == olds[i].text
  }

  lemma MatchesConcat(orig: seq<string>, at: nat, a: seq<Line>, b: seq<Line>)
    ensures Matches(orig, at, a + b) <==> Matches(orig, at, a) && Matches(orig, at + |a|, b)
  {
    if Matches(orig, at, a + b) {
      assert forall i :: 0 <= i < |a| ==> (a + b)[i] == a[i];
      forall i | 0 <= i < |b|
        ensures orig[at + |a| + i] == b[i].text
      {
        assert (a + b)[|a| + i] == b[i];
      }
    }
  }

  lemma {:induction false} EditsApply(edits: seq<Edit>, st: State, orig: seq<string>, before: seq<Line>)
    requires st.cur <= |orig| && Matches(orig, st.cur, Old(edits)) && Shows(st, before)
    ensures var r := RunEdits(edits, st, orig);
            r.Ok? && r.value.cur == st.cur + |Old(edits)| && Shows(r.value, before + New(edits))
  {
    if edits == [] {
      assert before + New(edits) == before;
    } else {
      var e := edits[0];
      MatchesConcat(orig, st.cur, OldOfEdit(e), Old(edits[1..]));
      assert !e.Ins? ==> orig[st.cur + 0] == OldOfEdit(e)[0].text;
      EditApplies(e, st, orig, before);
      EditsApply(edits[1..], RunEdit(e, st, orig).value, orig, before + NewOfEdit(e));
      ConcatAssoc(before, NewOfEdit(e), New(edits[1..]));
    }
  }

  /** The old lines from the cursor on, with their newline status. */
  predicate Remaining(st: State, orig: seq<string>, origNL: bool, lines: seq<Line>) {
    && st.cur + |lines| == |orig| && Matches(orig, st.cur, lines)
    && EndedButLast(lines)
    && (lines != [] ==> (origNL <==> LastEnded(lines)))
  }

  lemma EndedParts(a: seq<Line>, b: seq<Line>)
    requires EndedButLast(a + b)
    ensures EndedButLast(b) && (b != [] ==> (LastEnded(b) <==> LastEnded(a + b)))
    ensures if b == [] then a + b == a else a != [] ==> LastEnded(a)
  {
    var all := a + b;
    assert forall i :: 0 <= i < |b| ==> b[i] == all[|a| + i];
    assert a != [] ==> a[|a| - 1] == all[|a| - 1];
  }

  lemma RemainingAfter(st: State, orig: seq<string>, origNL: bool, done: seq<Line>, more: seq<Line>, next: State)
    requires Remaining(st, orig, origNL, done + more) && next.cur == st.cur + |done|
    ensures Matches(orig, st.cur, done) && Remaining(next, orig, origNL, more)
    ensures done != [] ==> (LastEnded(done) <==> next.cur < |orig| || origNL)
  {
    MatchesConcat(orig, st.cur, done, more);
    EndedParts(done, more);
  }

  /** The old lines the header has copied before its hunk starts. */
  function Target(oldStart: nat): nat {
    if oldStart == 0 then 0 else oldStart - 1
  }

  lemma GapApplies(oldStart: nat, gap: seq<Line>, st: State, orig: seq<string>, origNL: bool, before: seq<Line>)
    requires st.cur + |gap| == Target(oldStart) <= |orig| && Matches(orig, st.cur, gap)
    requires gap != [] ==> (LastEnded(gap) <==> Target(oldStart) < |orig| || origNL)
    requires Shows(st, before)
    ensures var r := RunGap(oldStart, st, orig, origNL);
            r.Ok? && r.value.cur == Target(oldStart) && Shows(r.value, before + gap)
  {
    if gap == [] {
      assert before + gap == before;
    } else {
      assert orig[st.cur..Target(oldStart)] == Texts(gap);
      ShowsMore(st, before, gap, RunGap(oldStart, st, orig, origNL).value);
    }
  }

  /** A hunk whose header stops after these lines copies them and then applies to its own old lines. */
  lemma HunkApplies(h: Hunk, gap: seq<Line>, more: seq<Line>, st: State, orig: seq<string>, origNL: bool,
                    before: seq<Line>) returns (next: State)
    requires Remaining(st, orig, origNL, gap + (Old(h.edits) + more))
    requires Target(h.oldStart) == st.cur + |gap| && Shows(st, before)
    ensures RunHunk(h, st, orig, origNL) == Ok(next)
    ensures next.cur == st.cur + |gap| + |Old(h.edits)|
    ensures Shows(next, before + (gap + New(h.edits))) && Remaining(next, orig, origNL, more)
  {
    var passed := st.(cur := st.cur + |gap|);
    RemainingAfter(st, orig, origNL, gap, Old(h.edits) + more, passed);
    GapApplies(h.oldStart, gap, st, orig, origNL, before);
    var placed := RunGap(h.oldStart, st, orig, origNL).value;
    next := EditsEnd(h.edits, placed, orig, before, gap, passed, origNL, more);
  }

  lemma EditsEnd(edits: seq<Edit>, placed: State, orig: seq<string>, before: seq<Line>, gap: seq<Line>, passed: State,
                 origNL: bool, more: seq<Line>) returns (next: State)
    requires placed.cur == passed.cur && Shows(placed, before + gap)
    requires Remaining(passed, orig, origNL, Old(edits) + more)
    ensures placed.cur <= |orig| && RunEdits(edits, placed, orig) == Ok(next) && next.cur == placed.cur + |Old(edits)|
    ensures Shows(next, before + (gap + New(edits))) && Remaining(next, orig, origNL, more)
  {
    MatchesConcat(orig, passed.cur, Old(edits), more);
    EditsApply(edits, placed, orig, before + gap);
    next := RunEdits(edits, placed, orig).value;
    RemainingAfter(passed, orig, origNL, Old(edits), more, next);
    ConcatAssoc(before, gap, New(edits));
  }

  lemma RunHunksCons(h: Hunk, hunks: seq<Hunk>, st: State, next: State, orig: seq<string>, origNL: bool)
    requires st.cur <= |orig| && RunHunk(h, st, orig, origNL) == Ok(next)
    ensures RunHunks([h] + hunks, st, orig, origNL) == RunHunks(hunks, next, orig, origNL)
  {
    TailOfCons(h, hunks);
  }

  lemma HunksCons(sections: seq<Section>, at: nat, next: nat)
    requires sections != [] && next == at + |sections[0].gap| + |Old(sections[0].hunk)|
    ensures Hunks(sections, at) == [HunkOf(sections[0], at)] + Hunks(sections[1..], next)
  {
  }

  /** The text of these lines, which may be out of order: only the last decides how it ends. */
  function Shown(lines: seq<Line>): string {
    Join(Texts(lines), "\n") + if LastEnded(lines) then "\n" else ""
  }

  lemma FinishShows(st: State, orig: seq<string>, origNL: bool, before: seq<Line>, rest: seq<Line>)
    requires Remaining(st, orig, origNL, rest) && Shows(st, before)
    ensures Finish(st, orig, origNL) == Shown(before + rest)
  {
    assert orig[st.cur..] == Texts(rest);
    assert Texts(before + rest) == Texts(before) + Texts(rest);
    assert rest == [] ==> before + rest == before;
    assert Join([], "\n") + "" == Join([], "\n");
  }
}
