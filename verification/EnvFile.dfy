/** Setting a variable in an env file: a line editor that replaces the first matching line or appends one. */
module EnvFile {
  import opened Text

  // ---------------------------------------------------------------- lines

  /** `strings.SplitAfter` at newlines: each line keeps its newline, the last has none. */
  function SplitAfter(s: string): (lines: seq<string>)
    ensures |lines| >= 1
  {
    if s == "" then [""]
    else
      var rest := SplitAfter(s[1..]);
      if s[0] == '\n' then ["\n"] + rest else [[s[0]] + rest[0]] + rest[1..]
  }

  function Concat(lines: seq<string>): string {
    if lines == [] then "" else lines[0] + Concat(lines[1..])
  }

  predicate Terminated(line: string) {
    line != "" && line[|line| - 1] == '\n' && '\n' !in line[..|line| - 1]
  }

  /** The shape of a text cut into lines. */
  predicate AreLines(lines: seq<string>) {
    && |lines| >= 1 && '\n' !in lines[|lines| - 1]
    && forall i :: 0 <= i < |lines| - 1 ==> Terminated(lines[i])
  }

  lemma {:induction false} ConcatSplitAfter(s: string)
    ensures Concat(SplitAfter(s)) == s
  {
    if s == "" {
      assert [""][1..] == [];
    } else {
      ConcatSplitAfter(s[1..]);
      var rest := SplitAfter(s[1..]);
      assert s == [s[0]] + s[1..];
      if s[0] == '\n' {
        TailOfCons("\n", rest);
      } else {
        TailOfCons([s[0]] + rest[0], rest[1..]);
        ConcatAssoc([s[0]], rest[0], Concat(rest[1..]));
      }
    }
  }

  lemma {:induction false} SplitAfterLines(s: string)
    ensures AreLines(SplitAfter(s))
  {
    if s != "" {
      SplitAfterLines(s[1..]);
      var rest := SplitAfter(s[1..]);
      if s[0] != '\n' && |rest| > 1 {
        LongerLine(s[0], rest[0]);
      }
    }
  }

  lemma LongerLine(c: char, line: string)
    requires c != '\n' && Terminated(line)
    ensures Terminated([c] + line)
  {
    var longer := [c] + line;
    assert longer[..|longer| - 1] == [c] + line[..|line| - 1];
  }

  lemma {:induction false} SplitAfterOne(line: string, more: string)
    requires Terminated(line)
    ensures SplitAfter(line + more) == [line] + SplitAfter(more)
    decreases |line|
  {
    assert (line + more)[1..] == line[1..] + more;
    if |line| == 1 {
      assert line == "\n" && line[1..] + more == more;
    } else {
      assert line[..|line| - 1][0] == line[0];
      assert line[1..][..|line| - 2] == line[..|line| - 1][1..];
      SplitAfterOne(line[1..], more);
      assert [line[0]] + line[1..] == line;
      TailOfCons(line[1..], SplitAfter(more));
    }
  }

  lemma {:induction false} SplitAfterWhole(s: string)
    requires '\n' !in s
    ensures SplitAfter(s) == [s]
  {
    if s != "" {
      SplitAfterWhole(s[1..]);
      assert [s[0]] + s[1..] == s;
    }
  }

  /** Cutting and joining are inverse. */
  lemma {:induction false} SplitAfterConcat(lines: seq<string>)
    requires AreLines(lines)
    ensures SplitAfter(Concat(lines)) == lines
  {
    if |lines| == 1 {
      assert Concat(lines[1..]) == "";
      assert Concat(lines) == lines[0];
      SplitAfterWhole(lines[0]);
    } else {
      SplitAfterConcat(lines[1..]);
      SplitAfterOne(lines[0], Concat(lines[1..]));
    }
  }

  // ---------------------------------------------------------------- what a line says

  function Body(line: string): string {
    TrimSuffix(TrimSuffix(line, "\n"), "\r")
  }

  /** Blank lines, comments and exports are passed over. */
  predicate Skipped(body: string) {
    var trimmed := TrimSpace(body);
    trimmed == "" || HasPrefix(trimmed, "#") || HasPrefix(trimmed, "export ")
  }

  predicate Sets(line: string, key: string) {
    !Skipped(Body(line)) && HasPrefix(Body(line), key + "=")
  }

  function ValueIn(line: string, key: string): string
    requires Sets(line, key)
  {
    Body(line)[|key| + 1..]
  }

  /** The first line from `i` on that sets the key, or the number of lines. */
  function FindLine(lines: seq<string>, key: string, i: nat): (k: nat)
    requires i <= |lines|
    ensures i <= k <= |lines| && (k < |lines| ==> Sets(lines[k], key)) && forall j :: i <= j < k ==> !Sets(lines[j], key)
    decreases |lines| - i
  {
    if i == |lines| || Sets(lines[i], key) then i else FindLine(lines, key, i + 1)
  }

  function Lookup(text: string, key: string): Option<string> {
    var lines := SplitAfter(text);
    var k := FindLine(lines, key, 0);
    if k < |lines| then Some(ValueIn(lines[k], key)) else None
  }

  // ---------------------------------------------------------------- the edit

  datatype Edit = Edit(text: string, previous: string, created: bool)

  function LineEnd(line: string): string {
    if HasSuffix(line, "\n") then "\n" else ""
  }

  /** The text with its last line ended. */
  function Ended(text: string): string {
    if text != "" && !HasSuffix(text, "\n") then text + "\n" else text
  }

  function SetEnv(original: string, key: string, value: string): Edit {
    var lines := SplitAfter(original);
    var k := FindLine(lines, key, 0);
    if k < |lines| then
      Edit(Concat(lines[k := key + "=" + value + LineEnd(lines[k])]), ValueIn(lines[k], key), false)
    else Edit(Ended(original) + key + "=" + value + "\n", "", true)
  }

  lemma FindIs(lines: seq<string>, key: string, k: nat)
    requires k < |lines| && Sets(lines[k], key) && forall j :: 0 <= j < k ==> !Sets(lines[j], key)
    ensures FindLine(lines, key, 0) == k
  {
  }

  lemma FindNone(lines: seq<string>, key: string)
    requires forall j :: 0 <= j < |lines| ==> !Sets(lines[j], key)
    ensures FindLine(lines, key, 0) == |lines|
  {
  }

  lemma EmptySetsNothing(key: string)
    ensures !Sets("", key)
  {
  }

  lemma FoundAt(original: string, key: string, value: string, i: nat)
    requires i < |SplitAfter(original)| && Sets(SplitAfter(original)[i], key)
    requires forall j :: 0 <= j < i ==> !Sets(SplitAfter(original)[j], key)
    ensures var lines := SplitAfter(original);
            SetEnv(original, key, value) ==
            Edit(Concat(lines[i := key + "=" + value + LineEnd(lines[i])]), ValueIn(lines[i], key), false)
  {
    FindIs(SplitAfter(original), key, i);
  }

  lemma NotFound(original: string, key: string, value: string)
    requires forall j :: 0 <= j < |SplitAfter(original)| ==> !Sets(SplitAfter(original)[j], key)
    ensures SetEnv(original, key, value) == Edit(Ended(original) + key + "=" + value + "\n", "", true)
  {
    FindNone(SplitAfter(original), key);
  }

  method ApplySetEnv(original: string, key: string, value: string) returns (edit: Edit)
    ensures edit == SetEnv(original, key, value)
  {
    var lines := SplitAfter(original);
    ghost var all := lines;
    EmptySetsNothing(key);
    if |lines| == 1 && lines[0] == "" {
      lines := [];
    }
    var prefix := key + "=";
    for i := 0 to |lines|
      invariant lines == all || (lines == [] && all == [""])
      invariant forall j :: 0 <= j < i ==> !Sets(lines[j], key)
    {
      var line := lines[i];
      var body := TrimSuffix(line, "\n");
      body := TrimSuffix(body, "\r");
      if Skipped(body) {
        continue;
      }
      if HasPrefix(body, prefix) {
        var old' := TrimPrefix(body, prefix);
        var lineEnd := "";
        if HasSuffix(line, "\n") {
          lineEnd := "\n";
        }
        FoundAt(original, key, value, i);
        lines := lines[i := prefix + value + lineEnd];
        return Edit(Concat(lines), old', false);
      }
    }
    NotFound(original, key, value);
    var out := original;
    if out != "" && !HasSuffix(out, "\n") {
      out := out + "\n";
    }
    ConcatAssoc(out, key, "=");
    out := out + prefix + value + "\n";
    return Edit(out, "", true);
  }

  // ---------------------------------------------------------------- laws

  /** What the edit says about the past. */
  lemma ReportsThePast(text: string, key: string, value: string)
    ensures var e := SetEnv(text, key, value);
            Lookup(text, key) == if e.created then None else Some(e.previous)
  {
  }

  predicate KeySkipped(key: string) {
    HasPrefix(TrimLeft(key), "#") || HasPrefix(TrimLeft(key), "export ")
  }

  /** The key and value survive on a line of their own. */
  predicate Fits(key: string, value: string) {
    '\n' !in key && !KeySkipped(key) && '\n' !in value && !HasSuffix(value, "\r")
  }

  lemma {:induction false} TrimRightKeeps(s: string, k: nat)
    requires k < |s| && !IsSpace(s[k])
    ensures k < |TrimRight(s)| <= |s| && TrimRight(s) == s[..|TrimRight(s)|]
    decreases |s|
  {
    if IsSpace(s[|s| - 1]) {
      TrimRightKeeps(s[..|s| - 1], k);
      assert s[..|s| - 1][..|TrimRight(s)|] == s[..|TrimRight(s)|];
    } else {
      assert s[..|s|] == s;
    }
  }

  lemma {:induction false} TrimLeftKeeps(key: string, c: char, rest: string)
    requires !IsSpace(c)
    ensures TrimLeft(key + [c] + rest) == TrimLeft(key) + [c] + rest
  {
    if key != "" && IsSpace(key[0]) {
      assert (key + [c] + rest)[1..] == key[1..] + [c] + rest;
      TrimLeftKeeps(key[1..], c, rest);
    } else if key == "" {
      assert key + [c] + rest == [c] + rest;
    }
  }

  /** Whether a line that sets the key is passed over depends on the key alone. */
  lemma SkippedIffKey(key: string, value: string)
    ensures Skipped(key + "=" + value) <==> KeySkipped(key)
  {
    var body := key + "=" + value;
    var name := TrimLeft(key);
    TrimLeftKeeps(key, '=', value);
    var left := TrimLeft(body);
    assert left == name + "=" + value;
    TrimRightKeeps(left, |name|);
    var trimmed := TrimSpace(body);
    assert trimmed[..|name| + 1] == left[..|name| + 1] == name + "=";
    PrefixBeforeEquals(trimmed, name, "#");
    PrefixBeforeEquals(trimmed, name, "export ");
  }

  lemma PrefixBeforeEquals(s: string, name: string, mark: string)
    requires |s| > |name| && s[..|name| + 1] == name + "=" && '=' !in mark
    ensures HasPrefix(s, mark) <==> HasPrefix(name, mark)
  {
    assert s[|name|] == s[..|name| + 1][|name|] == '=';
    assert |mark| > |name| ==> mark[|name|] != '=';
    if HasPrefix(s, mark) {
      assert |mark| <= |name|;
      assert mark == s[..|mark|] == s[..|name| + 1][..|mark|];
    }
    if HasPrefix(name, mark) {
      assert s[..|mark|] == s[..|name| + 1][..|mark|];
    }
  }

  lemma BodyOf(content: string, end: string)
    requires '\n' !in content && (end == "\n" || end == "")
    ensures Body(content + end) == TrimSuffix(content, "\r")
  {
    if end == "\n" {
      assert (content + end)[|content|..] == end && (content + end)[..|content|] == content;
    } else {
      assert content + end == content;
      assert content != "" ==> content[|content| - 1] in content;
    }
  }

  // ---------------------------------------------------------------- lines of the edited text

  lemma {:induction false} ConcatAppend(a: seq<string>, b: seq<string>)
    ensures Concat(a + b) == Concat(a) + Concat(b)
  {
    if a == [] {
      assert a + b == b;
    } else {
      assert (a + b)[1..] == a[1..] + b;
      ConcatAppend(a[1..], b);
      ConcatAssoc(a[0], Concat(a[1..]), Concat(b));
    }
  }

  function Front(lines: seq<string>): seq<string>
    requires lines != []
  {
    lines[..|lines| - 1]
  }

  function Last(lines: seq<string>): string
    requires lines != []
  {
    lines[|lines| - 1]
  }

  /** The lines of a text once its last line is ended, without the empty last one. */
  function EndedLines(lines: seq<string>): seq<string>
    requires lines != []
  {
    if Last(lines) == "" then Front(lines) else Front(lines) + [Last(lines) + "\n"]
  }

  lemma OneLine(text: string)
    requires |SplitAfter(text)| == 1
    ensures SplitAfter(text) == [text] && '\n' !in text
  {
    SplitAfterLines(text);
    ConcatSplitAfter(text);
    ConcatOne(SplitAfter(text)[0]);
    assert SplitAfter(text) == [SplitAfter(text)[0]];
  }

  lemma LastOfTail(head: string, rest: seq<string>)
    requires rest != []
    ensures Last([head] + rest) == Last(rest)
  {
  }

  lemma {:induction false} LastLine(text: string)
    ensures Last(SplitAfter(text)) == "" <==> text == "" || text[|text| - 1] == '\n'
  {
    if text != "" {
      var c, tail := text[0], text[1..];
      LastLine(tail);
      var rest := SplitAfter(tail);
      assert tail != "" ==> text[|text| - 1] == tail[|tail| - 1];
      if c == '\n' {
        LastOfTail("\n", rest);
      } else if |rest| > 1 {
        assert tail != "";
        LastOfTail([c] + rest[0], rest[1..]);
      } else {
        OneLine(tail);
        assert tail != "" ==> tail[|tail| - 1] in tail;
        assert rest[1..] == [];
      }
    }
  }

  lemma ConcatOne(line: string)
    ensures Concat([line]) == line
  {
    assert [line][1..] == [];
  }

  lemma ConcatFrontLast(lines: seq<string>, more: string)
    requires lines != []
    ensures Concat(Front(lines) + [Last(lines) + more]) == Concat(lines) + more
  {
    assert lines == Front(lines) + [Last(lines)];
    ConcatAppend(Front(lines), [Last(lines)]);
    ConcatOne(Last(lines));
    ConcatAppend(Front(lines), [Last(lines) + more]);
    ConcatOne(Last(lines) + more);
    ConcatAssoc(Concat(Front(lines)), Last(lines), more);
  }

  lemma ConcatFront(lines: seq<string>)
    requires lines != [] && Last(lines) == ""
    ensures Concat(Front(lines)) == Concat(lines)
  {
    assert lines == Front(lines) + [Last(lines)];
    ConcatAppend(Front(lines), [Last(lines)]);
    ConcatOne(Last(lines));
  }

  lemma EndedIsEndedLines(text: string)
    ensures Concat(EndedLines(SplitAfter(text))) == Ended(text)
  {
    var lines := SplitAfter(text);
    ConcatSplitAfter(text);
    LastLine(text);
    HasNewline(text);
    if Last(lines) == "" {
      ConcatFront(lines);
    } else {
      ConcatFrontLast(lines, "\n");
    }
  }

  lemma HasNewline(text: string)
    ensures HasSuffix(text, "\n") <==> text != "" && text[|text| - 1] == '\n'
  {
  }

  lemma EndedLine(content: string)
    requires '\n' !in content
    ensures Terminated(content + "\n")
  {
    var line := content + "\n";
    assert line[..|line| - 1] == content;
  }

  /** All lines of an appended text but the new one are those of the original. */
  lemma AppendedLines(text: string, content: string)
    requires '\n' !in content
    ensures SplitAfter(Ended(text) + content + "\n") == EndedLines(SplitAfter(text)) + [content + "\n", ""]
  {
    var ended := EndedLines(SplitAfter(text));
    var lines := ended + [content + "\n", ""];
    SplitAfterLines(text);
    EndedLine(content);
    if Last(SplitAfter(text)) != "" {
      EndedLine(Last(SplitAfter(text)));
    }
    assert AreLines(lines);
    SplitAfterConcat(lines);
    EndedIsEndedLines(text);
    ConcatAppend(ended, [content + "\n", ""]);
    assert [content + "\n", ""][1..] == [""] && [""][1..] == [];
    assert Concat([content + "\n", ""]) == content + "\n";
    ConcatAssoc(Ended(text), content, "\n");
  }

  /** All lines of a replaced text but the one are those of the original. */
  lemma ReplacedLines(text: string, k: nat, content: string)
    requires k < |SplitAfter(text)| && '\n' !in content
    ensures var lines := SplitAfter(text);
            SplitAfter(Concat(lines[k := content + LineEnd(lines[k])])) == lines[k := content + LineEnd(lines[k])]
  {
    var lines := SplitAfter(text);
    SplitAfterLines(text);
    var line := content + LineEnd(lines[k]);
    if k < |lines| - 1 {
      assert Terminated(lines[k]);
      assert lines[k][|lines[k]| - 1..] == "\n";
      EndedLine(content);
    } else {
      assert lines[k] != "" ==> lines[k][|lines[k]| - 1] in lines[k];
      assert line == content;
    }
    SplitAfterConcat(lines[k := line]);
  }

  // ---------------------------------------------------------------- what the new line says

  lemma NewLineSays(key: string, value: string, end: string)
    requires '\n' !in key && '\n' !in value && (end == "\n" || end == "")
    ensures Sets(key + "=" + value + end, key) <==> !KeySkipped(key)
    ensures !KeySkipped(key) ==> ValueIn(key + "=" + value + end, key) == TrimSuffix(value, "\r")
    ensures Body(key + "=" + value + end) == key + "=" + TrimSuffix(value, "\r")
  {
    var content := key + "=" + value;
    BodyOf(content, end);
    var kept := TrimSuffix(value, "\r");
    assert content[|content| - 1] == if value == "" then '=' else value[|value| - 1];
    assert TrimSuffix(content, "\r") == key + "=" + kept;
    SkippedIffKey(key, kept);
    assert (key + "=" + kept)[|key| + 1..] == kept;
    assert HasPrefix(key + "=" + kept, key + "=");
  }

  lemma BodyHasNoNewline(line: string)
    requires Terminated(line) || '\n' !in line
    ensures '\n' !in Body(line)
  {
    if Terminated(line) {
      assert line[|line| - 1..] == "\n";
    }
    assert line != "" ==> line[|line| - 1] in line;
    assert '\n' !in TrimSuffix(line, "\n");
  }

  /** No lookup yields a newline, and no key with one is ever found. */
  lemma LookupHasNoNewline(text: string, key: string)
    ensures Lookup(text, key).Some? ==> '\n' !in Lookup(text, key).value && '\n' !in key
  {
    SplitAfterLines(text);
    var lines := SplitAfter(text);
    var k := FindLine(lines, key, 0);
    if k < |lines| {
      BodyHasNoNewline(lines[k]);
      var body := Body(lines[k]);
      assert forall c :: c in key + "=" ==> c in body;
      assert forall c :: c in key ==> c in key + "=";
    }
  }

  lemma EndingKeepsBody(line: string)
    requires '\n' !in line
    ensures Body(line + "\n") == Body(line)
  {
    BodyOf(line, "\n");
    BodyOf(line, "");
    assert line + "" == line;
  }

  /** A lookup after the set gives the value exactly when key and value fit on a line of their own: no
      newline in either, no carriage return at the end, and a key that does not start a comment or an
      export. */
  lemma SetThenLookup(text: string, key: string, value: string)
    ensures Lookup(SetEnv(text, key, value).text, key) == Some(value) <==> Fits(key, value)
  {
    var after := SetEnv(text, key, value).text;
    if '\n' in key || '\n' in value {
      LookupHasNoNewline(after, key);
    } else {
      SetThenLookupOneLine(text, key, value);
      assert HasSuffix(value, "\r") <==> TrimSuffix(value, "\r") != value;
    }
  }

  lemma ReplacedLookup(lines: seq<string>, k: nat, key: string, value: string)
    requires '\n' !in key && '\n' !in value && k == FindLine(lines, key, 0) < |lines|
    ensures !KeySkipped(key)
    ensures var new' := lines[k := key + "=" + value + LineEnd(lines[k])];
            FindLine(new', key, 0) == k && ValueIn(new'[k], key) == TrimSuffix(value, "\r")
  {
    FoundKeyIsNotSkipped(lines[k], key);
    NewLineSays(key, value, LineEnd(lines[k]));
    FindIs(lines[k := key + "=" + value + LineEnd(lines[k])], key, k);
  }

  lemma AppendedLookup(ended: seq<string>, key: string, value: string)
    requires '\n' !in key && '\n' !in value && forall j :: 0 <= j < |ended| ==> !Sets(ended[j], key)
    ensures var more := ended + [key + "=" + value + "\n", ""];
            if KeySkipped(key) then FindLine(more, key, 0) == |more|
            else FindLine(more, key, 0) == |ended| && ValueIn(more[|ended|], key) == TrimSuffix(value, "\r")
  {
    var line := key + "=" + value + "\n";
    var more := ended + [line, ""];
    NewLineSays(key, value, "\n");
    EmptySetsNothing(key);
    assert more[|ended|] == line && more[|ended| + 1] == "";
    if KeySkipped(key) {
      FindNone(more, key);
    } else {
      FindIs(more, key, |ended|);
    }
  }

  /** The line written, and where a lookup finds it. */
  lemma SetThenFind(text: string, key: string, value: string)
    requires '\n' !in key && '\n' !in value
    ensures var lines := SplitAfter(SetEnv(text, key, value).text);
            var k := FindLine(lines, key, 0);
            if KeySkipped(key) then k == |lines|
            else k < |lines| && ValueIn(lines[k], key) == TrimSuffix(value, "\r")
                 && lines[k] == key + "=" + value + LineEnd(lines[k])
  {
    var lines := SplitAfter(text);
    var k := FindLine(lines, key, 0);
    OtherLinesStay(text, key, value);
    if k < |lines| {
      ReplacedLookup(lines, k, key, value);
      LineEndOfNew(key + "=" + value, LineEnd(lines[k]));
    } else {
      EndedSetNothing(text, key);
      AppendedLookup(EndedLines(lines), key, value);
      LineEndOfNew(key + "=" + value, "\n");
    }
  }

  lemma SetThenLookupOneLine(text: string, key: string, value: string)
    requires '\n' !in key && '\n' !in value
    ensures Lookup(SetEnv(text, key, value).text, key) ==
            if KeySkipped(key) then None else Some(TrimSuffix(value, "\r"))
  {
    SetThenFind(text, key, value);
  }

  lemma EndedSetNothing(text: string, key: string)
    requires forall j :: 0 <= j < |SplitAfter(text)| ==> !Sets(SplitAfter(text)[j], key)
    ensures forall j :: 0 <= j < |EndedLines(SplitAfter(text))| ==> !Sets(EndedLines(SplitAfter(text))[j], key)
  {
    SplitAfterLines(text);
    EndingKeepsBody(Last(SplitAfter(text)));
  }

  lemma FoundKeyIsNotSkipped(line: string, key: string)
    requires Sets(line, key)
    ensures !KeySkipped(key)
  {
    var body := Body(line);
    assert body == key + "=" + body[|key| + 1..];
    SkippedIffKey(key, body[|key| + 1..]);
  }

  // ---------------------------------------------------------------- what stays

  /** Every other line is byte for byte as before, up to a newline that ends the last one. */
  lemma OtherLinesStay(text: string, key: string, value: string)
    requires '\n' !in key && '\n' !in value
    ensures var e, lines := SetEnv(text, key, value), SplitAfter(text);
            var k := FindLine(lines, key, 0);
            && (e.created <==> k == |lines|)
            && SplitAfter(e.text) == if e.created then EndedLines(lines) + [key + "=" + value + "\n", ""]
                                     else lines[k := key + "=" + value + LineEnd(lines[k])]
  {
    var lines := SplitAfter(text);
    var k := FindLine(lines, key, 0);
    if k < |lines| {
      ReplacedLines(text, k, key + "=" + value);
    } else {
      AppendedLines(text, key + "=" + value);
      ConcatAssoc(Ended(text), key, "=");
      ConcatAssoc(Ended(text), key + "=", value);
    }
  }

  /** A line names one key without `=`. */
  lemma OneKeyALine(line: string, key: string, other: string)
    requires '=' !in key && '=' !in other && HasPrefix(Body(line), key + "=") && HasPrefix(Body(line), other + "=")
    ensures key == other
  {
    var body := Body(line);
    assert body[|key|] == '=' && body[|other|] == '=';
    assert forall i :: 0 <= i < |key| ==> body[i] == key[i] && key[i] in key;
    assert forall i :: 0 <= i < |other| ==> body[i] == other[i] && other[i] in other;
    assert |key| == |other|;
    assert key == body[..|key|] && other == body[..|other|];
  }

  lemma ReplacedKeepsOthers(lines: seq<string>, k: nat, line: string, key: string, other: string)
    requires k < |lines| && Sets(lines[k], key) && !Sets(line, other)
    requires '=' !in key && '=' !in other && other != key
    ensures var found := FindLine(lines, other, 0);
            FindLine(lines[k := line], other, 0) == found && (found < |lines| ==> found != k)
  {
    if Sets(lines[k], other) {
      OneKeyALine(lines[k], key, other);
    }
    var found := FindLine(lines, other, 0);
    if found < |lines| {
      FindIs(lines[k := line], other, found);
    } else {
      FindNone(lines[k := line], other);
    }
  }

  lemma EndedBodies(lines: seq<string>)
    requires AreLines(lines)
    ensures var ended := EndedLines(lines);
            |lines| - 1 <= |ended| <= |lines| && forall j :: 0 <= j < |ended| ==> Body(ended[j]) == Body(lines[j])
    ensures |EndedLines(lines)| < |lines| ==> Last(lines) == ""
  {
    var ended, last := EndedLines(lines), Last(lines);
    EndingKeepsBody(last);
    forall j | 0 <= j < |ended|
      ensures Body(ended[j]) == Body(lines[j])
    {
      assert ended[j] == if j < |lines| - 1 then lines[j] else last + "\n";
    }
  }

  function Hits(lines: seq<string>, key: string): (r: seq<bool>)
    ensures |r| == |lines|
  {
    seq(|lines|, i requires 0 <= i < |lines| => Sets(lines[i], key))
  }

  function FirstTrue(bs: seq<bool>): (k: nat)
    ensures k <= |bs|
  {
    if bs == [] || bs[0] then 0 else 1 + FirstTrue(bs[1..])
  }

  lemma {:induction false} FirstTrueAppend(a: seq<bool>, b: seq<bool>)
    ensures FirstTrue(a + b) == if FirstTrue(a) < |a| then FirstTrue(a) else |a| + FirstTrue(b)
  {
    if a == [] {
      assert a + b == b;
    } else {
      assert (a + b)[1..] == a[1..] + b;
      FirstTrueAppend(a[1..], b);
    }
  }

  lemma {:induction false} FindIsFirst(lines: seq<string>, key: string, i: nat)
    requires i <= |lines|
    ensures FindLine(lines, key, i) == i + FirstTrue(Hits(lines, key)[i..])
    decreases |lines| - i
  {
    if i < |lines| {
      assert Hits(lines, key)[i] == Sets(lines[i], key);
      assert Hits(lines, key)[i..][1..] == Hits(lines, key)[i + 1..];
      FindIsFirst(lines, key, i + 1);
    }
  }

  lemma FindFirst(lines: seq<string>, key: string)
    ensures FindLine(lines, key, 0) == FirstTrue(Hits(lines, key))
  {
    FindIsFirst(lines, key, 0);
    assert Hits(lines, key)[0..] == Hits(lines, key);
  }

  /** Lines with the same bodies are hits together. */
  lemma SameHits(a: seq<string>, b: seq<string>, key: string)
    requires |a| <= |b| && forall j :: 0 <= j < |a| ==> Body(a[j]) == Body(b[j])
    ensures Hits(a, key) == Hits(b, key)[..|a|]
  {
  }

  lemma {:induction false} AllFalse(bs: seq<bool>)
    requires forall j :: 0 <= j < |bs| ==> !bs[j]
    ensures FirstTrue(bs) == |bs|
  {
    if bs != [] {
      AllFalse(bs[1..]);
    }
  }

  lemma FalseTail(all: seq<bool>, n: nat)
    requires n <= |all| && forall j :: n <= j < |all| ==> !all[j]
    ensures FirstTrue(all) == if FirstTrue(all[..n]) < n then FirstTrue(all[..n]) else |all|
  {
    assert all == all[..n] + all[n..];
    FirstTrueAppend(all[..n], all[n..]);
    AllFalse(all[n..]);
  }

  lemma EndedMiss(lines: seq<string>, key: string)
    requires AreLines(lines)
    ensures forall j :: |EndedLines(lines)| <= j < |lines| ==> !Hits(lines, key)[j]
  {
    EndedBodies(lines);
    EmptySetsNothing(key);
  }

  lemma EndedHits(lines: seq<string>, key: string)
    requires AreLines(lines)
    ensures FirstTrue(Hits(lines, key)) ==
            var k := FirstTrue(Hits(EndedLines(lines), key));
            if k < |EndedLines(lines)| then k else |lines|
  {
    EndedBodies(lines);
    SameHits(EndedLines(lines), lines, key);
    EndedMiss(lines, key);
    FalseTail(Hits(lines, key), |EndedLines(lines)|);
  }

  lemma NoneHit(line: string, key: string)
    requires !Sets(line, key)
    ensures Hits([line, ""], key) == [false, false] && FirstTrue(Hits([line, ""], key)) == 2
  {
    EmptySetsNothing(key);
    assert Hits([line, ""], key) == [false, false];
    assert [false, false][1..] == [false] && [false][1..] == [];
  }

  lemma AppendedKeepsOthers(lines: seq<string>, line: string, other: string)
    requires AreLines(lines) && !Sets(line, other)
    ensures var found, more := FindLine(lines, other, 0), EndedLines(lines) + [line, ""];
            if found < |lines| then FindLine(more, other, 0) == found && Body(more[found]) == Body(lines[found])
            else FindLine(more, other, 0) == |more|
  {
    var ended := EndedLines(lines);
    var more := ended + [line, ""];
    EndedBodies(lines);
    EndedHits(lines, other);
    FindFirst(lines, other);
    FindFirst(more, other);
    NoneHit(line, other);
    assert Hits(more, other) == Hits(ended, other) + Hits([line, ""], other);
    FirstTrueAppend(Hits(ended, other), Hits([line, ""], other));
  }

  /** Every other key looks up as before. */
  lemma OtherKeysStay(text: string, key: string, value: string, other: string)
    requires '\n' !in key && '\n' !in value && '=' !in key && '=' !in other && other != key
    ensures Lookup(SetEnv(text, key, value).text, other) == Lookup(text, other)
  {
    var lines := SplitAfter(text);
    var k := FindLine(lines, key, 0);
    OtherLinesStay(text, key, value);
    if k < |lines| {
      NewLineIsNot(key, value, LineEnd(lines[k]), other);
      ReplacedKeepsOthers(lines, k, key + "=" + value + LineEnd(lines[k]), key, other);
    } else {
      NewLineIsNot(key, value, "\n", other);
      SplitAfterLines(text);
      AppendedKeepsOthers(lines, key + "=" + value + "\n", other);
    }
  }

  lemma NewLineIsNot(key: string, value: string, end: string, other: string)
    requires '\n' !in key && '\n' !in value && (end == "\n" || end == "")
    requires '=' !in key && '=' !in other && other != key
    ensures !Sets(key + "=" + value + end, other)
  {
    var line := key + "=" + value + end;
    NewLineSays(key, value, end);
    assert HasPrefix(Body(line), key + "=");
    if HasPrefix(Body(line), other + "=") {
      OneKeyALine(line, key, other);
    }
  }

  /** Repeating a set changes nothing. */
  lemma SetTwice(text: string, key: string, value: string)
    requires '\n' !in key && '\n' !in value && !KeySkipped(key)
    ensures var once := SetEnv(text, key, value).text;
            SetEnv(once, key, value) == Edit(once, TrimSuffix(value, "\r"), false)
  {
    var once := SetEnv(text, key, value).text;
    SetThenFind(text, key, value);
    ConcatSplitAfter(once);
    var lines := SplitAfter(once);
    var k := FindLine(lines, key, 0);
    assert lines[k := lines[k]] == lines;
  }

  lemma LineEndOfNew(content: string, end: string)
    requires '\n' !in content && (end == "\n" || end == "")
    ensures LineEnd(content + end) == end
  {
    var line := content + end;
    assert content != "" ==> content[|content| - 1] in content;
    if end == "\n" {
      assert line[|line| - 1..] == end;
    } else {
      assert line == content;
    }
  }
}
