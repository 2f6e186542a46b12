/** The unified-patch applier: an interpreter of patch lines with a cursor into the old lines. Its
    specification is an edit script, so that rendering a script and applying it gives the new text. */
module UnifiedPatch {
  import opened Text

  // ---------------------------------------------------------------- the interpreter as functions

  /** What the previous patch line of the current hunk was, as far as a no-newline marker cares. */
  datatype LastLine = NoLine | Context | Removed | Added

  datatype PatchError =
    | InvalidHeader | InvalidRange | HunkOutOfRange | ContextMismatch | DeleteMismatch | InvalidLine

  datatype State = State(out: seq<string>, cur: nat, hasOutput: bool, endsNL: bool, last: LastLine)

  const Start := State([], 0, false, false, NoLine)

  function WordLength(s: string): (n: nat)
    ensures n <= |s|
  {
    if s == "" || IsSpace(s[0]) then 0 else 1 + WordLength(s[1..])
  }

  lemma {:induction false} TrimLeftShrinks(s: string)
    ensures |TrimLeft(s)| <= |s|
    ensures TrimLeft(s) != "" ==> !IsSpace(TrimLeft(s)[0])
  {
    if s != "" && IsSpace(s[0]) {
      TrimLeftShrinks(s[1..]);
    }
  }

  /** `strings.Fields`: the words between runs of white space. */
  function Fields(s: string): seq<string>
    decreases |s|
  {
    var t := TrimLeft(s);
    TrimLeftShrinks(s);
    if t == "" then []
    else
      var n := WordLength(t);
      [t[..n]] + Fields(t[n..])
  }

  function ParseOldStart(header: string): Result<int, PatchError> {
    var fields := Fields(header);
    if |fields| < 3 then Err(InvalidHeader)
    else
      match Atoi(Split(TrimPrefix(fields[1], "-"), ',')[0])
      case Number(n) => Ok(n)
      case _ => Err(InvalidRange)
  }

  function HunkHeader(line: string, st: State, orig: seq<string>, origNL: bool): (r: Result<State, PatchError>)
    requires st.cur <= |orig|
    ensures r.Ok? ==> r.value.cur <= |orig|
  {
    match ParseOldStart(line)
    case Err(e) => Err(e)
    case Ok(oldStart) =>
      var target := if oldStart == 0 then 0 else oldStart - 1;
      if target < st.cur || target > |orig| then Err(HunkOutOfRange)
      else if target > st.cur then
        Ok(State(st.out + orig[st.cur..target], target, true, target < |orig| || origNL, NoLine))
      else
        Ok(st)
  }

  function HunkLine(line: string, st: State, orig: seq<string>): (r: Result<State, PatchError>)
    requires line != "" && st.cur <= |orig|
    ensures r.Ok? ==> r.value.cur <= |orig|
  {
    var want := line[1..];
    if line[0] == ' ' then
      if st.cur >= |orig| || orig[st.cur] != want then Err(ContextMismatch)
      else Ok(State(st.out + [want], st.cur + 1, true, true, Context))
    else if line[0] == '-' then
      if st.cur >= |orig| || orig[st.cur] != want then Err(DeleteMismatch)
      else Ok(st.(cur := st.cur + 1, last := Removed))
    else if line[0] == '+' then
      Ok(State(st.out + [want], st.cur, true, true, Added))
    else if line[0] == '\\' then
      Ok(if st.last.Added? || st.last.Context? then st.(endsNL := false) else st)
    else
      Err(InvalidLine)
  }

  /** Everything outside a hunk is skipped; inside, empty lines are. */
  function Interpret(lines: seq<string>, inHunk: bool, st: State, orig: seq<string>, origNL: bool)
    : (r: Result<State, PatchError>)
    requires st.cur <= |orig|
    ensures r.Ok? ==> r.value.cur <= |orig|
  {
    if lines == [] then Ok(st)
    else if HasPrefix(lines[0], "@@") then
      match HunkHeader(lines[0], st, orig, origNL)
      case Err(e) => Err(e)
      case Ok(next) => Interpret(lines[1..], true, next, orig, origNL)
    else if !inHunk || lines[0] == "" then
      Interpret(lines[1..], inHunk, st, orig, origNL)
    else
      match HunkLine(lines[0], st, orig)
      case Err(e) => Err(e)
      case Ok(next) => Interpret(lines[1..], true, next, orig, origNL)
  }

  function Finish(st: State, orig: seq<string>, origNL: bool): string
    requires st.cur <= |orig|
  {
    var rest := orig[st.cur..];
    var text := Join(st.out + rest, "\n");
    if (st.hasOutput || rest != []) && (if rest != [] then origNL else st.endsNL) then text + "\n" else text
  }

  function OrigLines(original: string): seq<string> {
    var body := TrimSuffix(original, "\n");
    if body == "" then [] else Split(body, '\n')
  }

  /** `strings.ReplaceAll(s, "\r\n", "\n")` */
  function DropCR(s: string): string {
    if s == "" then ""
    else if |s| >= 2 && s[0] == '\r' && s[1] == '\n' then "\n" + DropCR(s[2..])
    else [s[0]] + DropCR(s[1..])
  }

  function ApplyText(original: string, diff: string): Result<string, PatchError> {
    var orig, origNL := OrigLines(original), HasSuffix(original, "\n");
    match Interpret(Split(DropCR(diff), '\n'), false, Start, orig, origNL)
    case Err(e) => Err(e)
    case Ok(st) => Ok(Finish(st, orig, origNL))
  }

  // ---------------------------------------------------------------- the loops of the source

  /** One line of a hunk, not empty. */
  method ApplyHunkLine(line: string, st: State, origLines: seq<string>) returns (res: Result<State, PatchError>)
    requires line != "" && st.cur <= |origLines|
    ensures res == HunkLine(line, st, origLines)
  {
    var want := line[1..];
    if line[0] == ' ' {
      if st.cur >= |origLines| || origLines[st.cur] != want {
        return Err(ContextMismatch);
      }
      return Ok(State(st.out + [want], st.cur + 1, true, true, Context));
    }
    if line[0] == '-' {
      if st.cur >= |origLines| || origLines[st.cur] != want {
        return Err(DeleteMismatch);
      }
      return Ok(st.(cur := st.cur + 1, last := Removed));
    }
    if line[0] == '+' {
      return Ok(State(st.out + [want], st.cur, true, true, Added));
    }
    if line[0] == '\\' {
      if st.last.Added? || st.last.Context? {
        return Ok(st.(endsNL := false));
      }
      return Ok(st);
    }
    return Err(InvalidLine);
  }

  /** The inner loop: the lines of one hunk, up to the next header or the end of the patch. */
  method ApplyHunkLines(patchLines: seq<string>, start: nat, st: State, origLines: seq<string>, ghost origNL: bool)
    returns (i: nat, res: Result<State, PatchError>)
    requires start <= |patchLines| && st.cur <= |origLines|
    ensures start <= i <= |patchLines|
    ensures res.Ok? ==> (i < |patchLines| ==> HasPrefix(patchLines[i], "@@")) && res.value.cur <= |origLines|
    ensures Interpret(patchLines[start..], true, st, origLines, origNL) ==
            if res.Err? then res else Interpret(patchLines[i..], true, res.value, origLines, origNL)
  {
    var now := st;
    i := start;
    while i < |patchLines| && !HasPrefix(patchLines[i], "@@")
      invariant start <= i <= |patchLines| && now.cur <= |origLines|
      invariant Interpret(patchLines[start..], true, st, origLines, origNL) ==
                Interpret(patchLines[i..], true, now, origLines, origNL)
    {
      var line := patchLines[i];
      assert patchLines[i..][1..] == patchLines[i + 1..];
      i := i + 1;
      if line == "" {
        continue;
      }
      res := ApplyHunkLine(line, now, origLines);
      if res.Err? {
        return;
      }
      now := res.value;
    }
    res := Ok(now);
  }

  /** The lines up to where the hunk starts are copied. */
  method ApplyHunkHeader(line: string, st: State, origLines: seq<string>, origNL: bool)
    returns (res: Result<State, PatchError>)
    requires st.cur <= |origLines|
    ensures res == HunkHeader(line, st, origLines, origNL)
  {
    var parsed := ParseOldStart(line);
    if parsed.Err? {
      return Err(parsed.error);
    }
    var target := if parsed.value == 0 then 0 else parsed.value - 1;
    if target < st.cur || target > |origLines| {
      return Err(HunkOutOfRange);
    }
    if target > st.cur {
      return Ok(State(st.out + origLines[st.cur..target], target, true, target < |origLines| || origNL, NoLine));
    }
    return Ok(st);
  }

  method ApplyUnifiedPatchText(original: string, diff: string) returns (res: Result<string, PatchError>)
    ensures res == ApplyText(original, diff)
  {
    var origNL := HasSuffix(original, "\n");
    var origLines := OrigLines(original);
    var patchLines := Split(DropCR(diff), '\n');
    var st: State := Start;
    var i: nat := 0;
    while i < |patchLines|
      invariant i <= |patchLines| && st.cur <= |origLines|
      invariant Interpret(patchLines, false, Start, origLines, origNL) ==
                Interpret(patchLines[i..], false, st, origLines, origNL)
    {
      var line := patchLines[i];
      assert patchLines[i..][1..] == patchLines[i + 1..];
      i := i + 1;
      if HasPrefix(line, "@@") {
        var placed := ApplyHunkHeader(line, st, origLines, origNL);
        if placed.Err? {
          return Err(placed.error);
        }
        st := placed.value;
        var hunk;
        i, hunk := ApplyHunkLines(patchLines, i, st, origLines, origNL);
        if hunk.Err? {
          return Err(hunk.error);
        }
        st := hunk.value;
        HunkEnds(patchLines[i..], st, origLines, origNL);
      }
    }
    var out, hasOutput, endsNL := st.out, st.hasOutput, st.endsNL;
    var remaining := origLines[st.cur..];
    out := out + remaining;
    if |remaining| > 0 {
      hasOutput, endsNL := true, origNL;
    }
    var text := Join(out, "\n");
    if hasOutput && endsNL {
      text := text + "\n";
    }
    return Ok(text);
  }

  /** At the end of the patch or at a header it does not matter whether a hunk was open. */
  lemma HunkEnds(lines: seq<string>, st: State, orig: seq<string>, origNL: bool)
    requires st.cur <= |orig|
    requires lines == [] || HasPrefix(lines[0], "@@")
    ensures Interpret(lines, true, st, orig, origNL) == Interpret(lines, false, st, orig, origNL)
  {
  }

  // ---------------------------------------------------------------- edit scripts

  /** A line with its own newline status: only the last line of a text may lack the newline. */
  datatype Line = Line(text: string, terminated: bool)

  datatype Edit = Keep(line: Line) | Del(line: Line) | Ins(line: Line)

  /** Untouched lines, then one hunk: its header line and its edits. */
  datatype Section = Section(gap: seq<Line>, header: string, hunk: seq<Edit>)

  datatype Script = Script(sections: seq<Section>, tail: seq<Line>)

  function Old(edits: seq<Edit>): seq<Line> {
    if edits == [] then []
    else (if edits[0].Ins? then [] else [edits[0].line]) + Old(edits[1..])
  }

  function New(edits: seq<Edit>): seq<Line> {
    if edits == [] then []
    else (if edits[0].Del? then [] else [edits[0].line]) + New(edits[1..])
  }

  function OldOf(sections: seq<Section>): seq<Line> {
    if sections == [] then [] else sections[0].gap + Old(sections[0].hunk) + OldOf(sections[1..])
  }

  function NewOf(sections: seq<Section>): seq<Line> {
    if sections == [] then [] else sections[0].gap + New(sections[0].hunk) + NewOf(sections[1..])
  }

  function OldLines(p: Script): seq<Line> {
    OldOf(p.sections) + p.tail
  }

  function NewLines(p: Script): seq<Line> {
    NewOf(p.sections) + p.tail
  }

  function Flatten(lines: seq<Line>): string {
    if lines == [] then ""
    else lines[0].text + (if lines[0].terminated then "\n" else "") + Flatten(lines[1..])
  }

  /** Every line but the last ends in a newline, and no line has one inside. */
  predicate Terminated(lines: seq<Line>) {
    && (forall l :: l in lines ==> '\n' !in l.text)
    && (forall i :: 0 <= i < |lines| - 1 ==> lines[i].terminated)
  }

  /** The lines of a text: the line left open at the end is not empty. */
  predicate TextLines(lines: seq<Line>) {
    Terminated(lines) && (lines != [] && !lines[|lines| - 1].terminated ==> lines[|lines| - 1].text != "")
  }

  // ---------------------------------------------------------------- rendering

  const Marker := "\\ No newline at end of file"

  function RenderEdit(e: Edit): seq<string> {
    var mark := match e case Keep(_) => ' ' case Del(_) => '-' case Ins(_) => '+';
    [[mark] + e.line.text] + if e.line.terminated then [] else [Marker]
  }

  function RenderEdits(edits: seq<Edit>): seq<string> {
    if edits == [] then [] else RenderEdit(edits[0]) + RenderEdits(edits[1..])
  }

  /** A range names its first line, or the line before it when it is empty. */
  function RangeStart(before: nat, count: nat): nat {
    if count == 0 then before else before + 1
  }

  /** The usual header: `@@ -start,count +start,count @@`. */
  function Header(oldBefore: nat, oldCount: nat, newBefore: nat, newCount: nat): string {
    "@@" + (" " + (("-" + (Itoa(RangeStart(oldBefore, oldCount)) + [','] + Itoa(oldCount)))
    + (" " + (("+" + (Itoa(RangeStart(newBefore, newCount)) + [','] + Itoa(newCount)))
    + (" " + "@@")))))
  }

  datatype Hunk = Hunk(header: string, oldStart: nat, edits: seq<Edit>)

  function HunkOf(s: Section, oldAt: nat): Hunk {
    Hunk(s.header, RangeStart(oldAt + |s.gap|, |Old(s.hunk)|), s.hunk)
  }

  /** The hunks of a script whose first section starts after `oldAt` old lines. */
  function Hunks(sections: seq<Section>, oldAt: nat): seq<Hunk> {
    if sections == [] then []
    else [HunkOf(sections[0], oldAt)] + Hunks(sections[1..], oldAt + |sections[0].gap| + |Old(sections[0].hunk)|)
  }

  function RenderHunks(hunks: seq<Hunk>): seq<string> {
    if hunks == [] then [] else [hunks[0].header] + (RenderEdits(hunks[0].edits) + RenderHunks(hunks[1..]))
  }

  /** The diff text: any lines that do not start a hunk, then the hunks, every line ended. */
  function Render(preamble: seq<string>, p: Script): string {
    Join(preamble + RenderHunks(Hunks(p.sections, 0)) + [""], "\n")
  }

  // ---------------------------------------------------------------- the conditions of the law

  /** Every hunk names an old line, or inserts at the very start. */
  predicate Anchored(sections: seq<Section>, oldAt: nat) {
    sections == [] ||
    var before := oldAt + |sections[0].gap|;
    (Old(sections[0].hunk) != [] || before == 0) && Anchored(sections[1..], before + |Old(sections[0].hunk)|)
  }

  predicate Preamble(lines: seq<string>) {
    forall l :: l in lines ==> '\n' !in l && !HasPrefix(l, "@@")
  }

  predicate EndsInCR(s: string) {
    s != "" && s[|s| - 1] == '\r'
  }

  predicate NoCR(edits: seq<Edit>) {
    forall e :: e in edits ==> !EndsInCR(e.line.text)
  }

  /** No rendered line has a carriage return before its newline. */
  predicate NoCRs(sections: seq<Section>) {
    forall s :: s in sections ==> NoCR(s.hunk)
  }

  /** A header on one line of its own that the applier reads as the hunk's start. */
  predicate Readable(h: Hunk) {
    && HasPrefix(h.header, "@@") && !EndsInCR(h.header) && '\n' !in h.header
    && ParseOldStart(h.header) == Ok(h.oldStart)
  }

  predicate AllReadable(hunks: seq<Hunk>) {
    forall h :: h in hunks ==> Readable(h)
  }

  /** A script over a text, its headers as the applier reads them. */
  predicate Rendered(p: Script) {
    AllReadable(Hunks(p.sections, 0)) && TextLines(OldLines(p)) && TextLines(NewLines(p))
  }
}
