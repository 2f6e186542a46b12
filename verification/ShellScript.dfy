/** Flattening a shell script into command segments, and what running the script can do. The script
    is given as its syntax tree; literal words stand for themselves. */
module ShellScript {
  import opened Text

  datatype WordPart =
    | Lit(value: string)
    | SglQuoted(value: string)
    | DblQuoted(parts: seq<WordPart>)
    | Dynamic

  datatype Word = Word(parts: seq<WordPart>)

  datatype Redirect = Redirect(op: string, word: Word)

  datatype BinaryOp = AndAnd | OrOr | Pipe

  datatype Command =
    | Call(assigns: nat, args: seq<Word>)
    | Binary(op: BinaryOp, x: Stmt, y: Stmt)
    | Block(stmts: seq<Stmt>)
    | Subshell(stmts: seq<Stmt>)
    | Other

  datatype Stmt = Stmt(redirs: seq<Redirect>, negated: bool, background: bool, cmd: Command)

  datatype Segment = Segment(argv: seq<string>, unsupported: string)

  // ---------------------------------------------------------------- words and redirections

  function LitText(parts: seq<WordPart>): Option<string> {
    if parts == [] then Some("")
    else if !parts[0].Lit? then None
    else
      match LitText(parts[1..])
      case None => None
      case Some(rest) => Some(parts[0].value + rest)
  }

  function PartText(part: WordPart): Option<string> {
    match part
    case Lit(v) => Some(v)
    case SglQuoted(v) => Some(v)
    case DblQuoted(parts) => LitText(parts)
    case Dynamic => None
  }

  function PartsText(parts: seq<WordPart>): Option<string> {
    if parts == [] then Some("")
    else
      match (PartText(parts[0]), PartsText(parts[1..]))
      case (Some(first), Some(rest)) => Some(first + rest)
      case _ => None
  }

  lemma {:induction false} LitTextAppend(parts: seq<WordPart>, next: WordPart)
    ensures LitText(parts + [next]) ==
            if LitText(parts).Some? && next.Lit? then Some(LitText(parts).value + next.value) else None
  {
    if parts == [] {
      assert parts + [next] == [next] && [next][1..] == [];
      assert next.Lit? ==> next.value + "" == next.value == "" + next.value;
    } else {
      assert (parts + [next])[1..] == parts[1..] + [next];
      LitTextAppend(parts[1..], next);
      if LitText(parts).Some? && next.Lit? {
        ConcatAssoc(parts[0].value, LitText(parts[1..]).value, next.value);
      }
    }
  }

  lemma {:induction false} PartsTextAppend(parts: seq<WordPart>, next: WordPart)
    ensures PartsText(parts + [next]) ==
            if PartsText(parts).Some? && PartText(next).Some?
            then Some(PartsText(parts).value + PartText(next).value) else None
  {
    if parts == [] {
      assert parts + [next] == [next] && [next][1..] == [];
      var text := PartText(next);
      assert text.Some? ==> text.value + "" == text.value == "" + text.value;
    } else {
      assert (parts + [next])[1..] == parts[1..] + [next];
      PartsTextAppend(parts[1..], next);
      if PartsText(parts).Some? && PartText(next).Some? {
        ConcatAssoc(PartText(parts[0]).value, PartsText(parts[1..]).value, PartText(next).value);
      }
    }
  }

  lemma {:induction false} NonePrefix(parts: seq<WordPart>, k: nat)
    requires k <= |parts| && PartsText(parts[..k]).None?
    ensures PartsText(parts).None?
    decreases |parts| - k
  {
    if k == |parts| {
      assert parts[..k] == parts;
    } else {
      assert parts[..k + 1] == parts[..k] + [parts[k]];
      PartsTextAppend(parts[..k], parts[k]);
      NonePrefix(parts, k + 1);
    }
  }

  /** The text of a word without expansions, or nothing. */
  method StaticWord(w: Word) returns (text: Option<string>)
    ensures text == PartsText(w.parts)
  {
    var b := "";
    for i := 0 to |w.parts|
      invariant PartsText(w.parts[..i]) == Some(b)
    {
      var part := w.parts[i];
      assert w.parts[..i + 1] == w.parts[..i] + [part];
      PartsTextAppend(w.parts[..i], part);
      match part {
        case Lit(v) => b := b + v;
        case SglQuoted(v) => b := b + v;
        case DblQuoted(inner) =>
          ghost var before := b;
          for j := 0 to |inner|
            invariant LitText(inner[..j]).Some? && b == before + LitText(inner[..j]).value
          {
            assert inner[..j + 1] == inner[..j] + [inner[j]];
            LitTextAppend(inner[..j], inner[j]);
            if !inner[j].Lit? {
              LitNonePrefix(inner, j + 1);
              NonePrefix(w.parts, i + 1);
              return None;
            }
            ConcatAssoc(before, LitText(inner[..j]).value, inner[j].value);
            b := b + inner[j].value;
          }
          assert inner[..|inner|] == inner;
        case Dynamic =>
          NonePrefix(w.parts, i + 1);
          return None;
      }
    }
    assert w.parts[..|w.parts|] == w.parts;
    return Some(b);
  }

  lemma {:induction false} LitNonePrefix(parts: seq<WordPart>, k: nat)
    requires k <= |parts| && LitText(parts[..k]).None?
    ensures LitText(parts).None?
    decreases |parts| - k
  {
    if k == |parts| {
      assert parts[..k] == parts;
    } else {
      assert parts[..k + 1] == parts[..k] + [parts[k]];
      LitTextAppend(parts[..k], parts[k]);
      LitNonePrefix(parts, k + 1);
    }
  }

  /** Duplicating or closing a file descriptor touches no file. */
  predicate IsFdDup(redir: Redirect) {
    && (redir.op == ">&" || redir.op == "<&")
    && match PartsText(redir.word.parts)
       case None => false
       case Some(w) => w == "-" || AllDigits(w)
  }

  predicate OnlyFdDups(redirs: seq<Redirect>) {
    forall r :: r in redirs ==> IsFdDup(r)
  }

  // ---------------------------------------------------------------- segments

  function WordTexts(args: seq<Word>): Option<seq<string>> {
    if args == [] then Some([])
    else
      match (PartsText(args[0].parts), WordTexts(args[1..]))
      case (Some(first), Some(rest)) => Some([first] + rest)
      case _ => None
  }

  function SegmentOfCall(assigns: nat, args: seq<Word>): Segment {
    if assigns > 0 then Segment([], "env assignment prefix")
    else
      match WordTexts(args)
      case None => Segment([], "dynamic shell word")
      case Some(argv) => if argv == [] then Segment([], "empty command") else Segment(argv, "")
  }

  method SegmentFromCall(assigns: nat, args: seq<Word>) returns (s: Segment)
    ensures s == SegmentOfCall(assigns, args)
  {
    if assigns > 0 {
      return Segment([], "env assignment prefix");
    }
    var argv: seq<string> := [];
    assert args[0..] == args;
    assert WordTexts(args).Some? ==> argv + WordTexts(args).value == WordTexts(args).value;
    for i := 0 to |args|
      invariant WordTexts(args) ==
                match WordTexts(args[i..]) case None => None case Some(rest) => Some(argv + rest)
    {
      assert args[i..][1..] == args[i + 1..];
      var arg := StaticWord(args[i]);
      if arg.None? {
        return Segment([], "dynamic shell word");
      }
      if WordTexts(args[i + 1..]).Some? {
        ConcatAssoc(argv, [arg.value], WordTexts(args[i + 1..]).value);
      }
      argv := argv + [arg.value];
    }
    if |argv| == 0 {
      return Segment([], "empty command");
    }
    return Segment(argv, "");
  }

  function SegmentsOfStmt(s: Stmt): seq<Segment>
    decreases s
  {
    if !OnlyFdDups(s.redirs) then [Segment([], "redirect")] else SegmentsOfCommand(s.cmd)
  }

  function SegmentsOfCommand(c: Command): seq<Segment>
    decreases c
  {
    match c
    case Call(assigns, args) => [SegmentOfCall(assigns, args)]
    case Binary(_, x, y) => SegmentsOfStmt(x) + SegmentsOfStmt(y)
    case Block(stmts) => SegmentsOfList(stmts)
    case Subshell(stmts) => SegmentsOfList(stmts)
    case Other => [Segment([], "unsupported shell construct")]
  }

  function SegmentsOfList(stmts: seq<Stmt>): seq<Segment>
    decreases stmts
  {
    if stmts == [] then [] else SegmentsOfStmt(stmts[0]) + SegmentsOfList(stmts[1..])
  }

  // ---------------------------------------------------------------- leaves

  /** What a leaf of the tree does when it runs: a known command, or something unknown. */
  datatype Event = Ran(argv: seq<string>) | Unknown

  function CallEvent(assigns: nat, args: seq<Word>): Event {
    match WordTexts(args)
    case None => Unknown
    case Some(argv) => if assigns > 0 || argv == [] then Unknown else Ran(argv)
  }

  /** The leaves in the order they stand in the script. */
  function LeavesOfStmt(s: Stmt): seq<Event>
    decreases s
  {
    if !OnlyFdDups(s.redirs) then [Unknown] else LeavesOfCommand(s.cmd)
  }

  function LeavesOfCommand(c: Command): seq<Event>
    decreases c
  {
    match c
    case Call(assigns, args) => [CallEvent(assigns, args)]
    case Binary(_, x, y) => LeavesOfStmt(x) + LeavesOfStmt(y)
    case Block(stmts) => LeavesOfList(stmts)
    case Subshell(stmts) => LeavesOfList(stmts)
    case Other => [Unknown]
  }

  function LeavesOfList(stmts: seq<Stmt>): seq<Event>
    decreases stmts
  {
    if stmts == [] then [] else LeavesOfStmt(stmts[0]) + LeavesOfList(stmts[1..])
  }

  predicate Describes(segment: Segment, leaf: Event) {
    match leaf
    case Ran(argv) => segment == Segment(argv, "") && argv != []
    case Unknown => segment.unsupported != "" && segment.argv == []
  }

  predicate DescribeAll(segments: seq<Segment>, leaves: seq<Event>) {
    |segments| == |leaves| && forall i :: 0 <= i < |segments| ==> Describes(segments[i], leaves[i])
  }

  lemma DescribeConcat(a: seq<Segment>, b: seq<Segment>, x: seq<Event>, y: seq<Event>)
    requires DescribeAll(a, x) && DescribeAll(b, y)
    ensures DescribeAll(a + b, x + y)
  {
  }

  /** The segments are exactly the leaves of the tree, in order. */
  lemma {:induction false} SegmentsAreLeavesOfStmt(s: Stmt)
    ensures DescribeAll(SegmentsOfStmt(s), LeavesOfStmt(s))
    decreases s
  {
    if OnlyFdDups(s.redirs) {
      SegmentsAreLeavesOfCommand(s.cmd);
    }
  }

  lemma {:induction false} SegmentsAreLeavesOfCommand(c: Command)
    ensures DescribeAll(SegmentsOfCommand(c), LeavesOfCommand(c))
    decreases c
  {
    match c
    case Call(_, _) =>
    case Binary(_, x, y) =>
      SegmentsAreLeavesOfStmt(x);
      SegmentsAreLeavesOfStmt(y);
      DescribeConcat(SegmentsOfStmt(x), SegmentsOfStmt(y), LeavesOfStmt(x), LeavesOfStmt(y));
    case Block(stmts) => SegmentsAreLeaves(stmts);
    case Subshell(stmts) => SegmentsAreLeaves(stmts);
    case Other =>
  }

  lemma {:induction false} SegmentsAreLeaves(stmts: seq<Stmt>)
    ensures DescribeAll(SegmentsOfList(stmts), LeavesOfList(stmts))
    decreases stmts
  {
    if stmts != [] {
      SegmentsAreLeavesOfStmt(stmts[0]);
      SegmentsAreLeaves(stmts[1..]);
      DescribeConcat(SegmentsOfStmt(stmts[0]), SegmentsOfList(stmts[1..]),
                     LeavesOfStmt(stmts[0]), LeavesOfList(stmts[1..]));
    }
  }

  // ---------------------------------------------------------------- running a script

  /** `all` is made of `a` and `b`, each in its own order. */
  ghost predicate Interleaving(a: seq<Event>, b: seq<Event>, all: seq<Event>)
    decreases |all|
  {
    if all == [] then a == [] && b == []
    else
      || (a != [] && a[0] == all[0] && Interleaving(a[1..], b, all[1..]))
      || (b != [] && b[0] == all[0] && Interleaving(a, b[1..], all[1..]))
  }

  /** The statement may run these leaves in this order and end well or badly. A leaf ends either way. */
  ghost predicate StmtRuns(s: Stmt, events: seq<Event>, ok: bool)
    decreases s, 0
  {
    if !OnlyFdDups(s.redirs) then events == [Unknown]
    else if s.background then ok && (CommandRuns(s.cmd, events, true) || CommandRuns(s.cmd, events, false))
    else CommandRuns(s.cmd, events, if s.negated then !ok else ok)
  }

  ghost predicate CommandRuns(c: Command, events: seq<Event>, ok: bool)
    decreases c, 0
  {
    match c
    case Call(assigns, args) => events == [CallEvent(assigns, args)]
    case Other => events == [Unknown]
    case Binary(Pipe, x, y) =>
      exists a, b, okA: bool :: StmtRuns(x, a, okA) && StmtRuns(y, b, ok) && Interleaving(a, b, events)
    case Binary(AndAnd, x, y) =>
      || (!ok && StmtRuns(x, events, false))
      || exists a, b :: StmtRuns(x, a, true) && StmtRuns(y, b, ok) && events == a + b
    case Binary(OrOr, x, y) =>
      || (ok && StmtRuns(x, events, true))
      || exists a, b :: StmtRuns(x, a, false) && StmtRuns(y, b, ok) && events == a + b
    case Block(stmts) => ListRuns(stmts, events, ok)
    case Subshell(stmts) => ListRuns(stmts, events, ok)
  }

  /** A list runs its statements in turn and may be left early; a background statement runs beside
      what follows it. */
  ghost predicate ListRuns(stmts: seq<Stmt>, events: seq<Event>, ok: bool)
    decreases stmts, 0
  {
    if stmts == [] then events == []
    else if |stmts| == 1 then StmtRuns(stmts[0], events, ok)
    else
      || (exists okFirst: bool :: StmtRuns(stmts[0], events, okFirst))
      || exists a, b, okFirst: bool ::
           StmtRuns(stmts[0], a, okFirst) && ListRuns(stmts[1..], b, ok)
           && (if stmts[0].background then Interleaving(a, b, events) else events == a + b)
  }

  lemma {:induction false} InterleavingMembers(a: seq<Event>, b: seq<Event>, all: seq<Event>)
    requires Interleaving(a, b, all)
    ensures forall e :: e in all ==> e in a || e in b
    decreases |all|
  {
    if all != [] {
      if a != [] && a[0] == all[0] && Interleaving(a[1..], b, all[1..]) {
        InterleavingMembers(a[1..], b, all[1..]);
      } else {
        InterleavingMembers(a, b[1..], all[1..]);
      }
    }
  }

  // ---------------------------------------------------------------- which leaves can run

  /** The statement can end this way. A list may be left early, so only a list of one is bound by its end. */
  predicate CanEndStmt(s: Stmt, ok: bool)
    decreases s
  {
    if !OnlyFdDups(s.redirs) then true
    else if s.background then ok
    else CanEndCommand(s.cmd, if s.negated then !ok else ok)
  }

  predicate CanEndCommand(c: Command, ok: bool)
    decreases c
  {
    match c
    case Call(_, _) => true
    case Other => true
    case Binary(Pipe, _, y) => CanEndStmt(y, ok)
    case Binary(AndAnd, x, y) => (!ok && CanEndStmt(x, false)) || (CanEndStmt(x, true) && CanEndStmt(y, ok))
    case Binary(OrOr, x, y) => (ok && CanEndStmt(x, true)) || (CanEndStmt(x, false) && CanEndStmt(y, ok))
    case Block(stmts) => |stmts| == 1 ==> CanEndStmt(stmts[0], ok)
    case Subshell(stmts) => |stmts| == 1 ==> CanEndStmt(stmts[0], ok)
  }

  /** The leaves that are not dead: what follows `&&` counts if what stands before it can end well, what
      follows `||` if that can end badly. */
  function LiveOfStmt(s: Stmt): seq<Event>
    decreases s
  {
    if !OnlyFdDups(s.redirs) then [Unknown] else LiveOfCommand(s.cmd)
  }

  function LiveOfCommand(c: Command): seq<Event>
    decreases c
  {
    match c
    case Call(assigns, args) => [CallEvent(assigns, args)]
    case Binary(op, x, y) =>
      LiveOfStmt(x) + if op.Pipe? || CanEndStmt(x, op.AndAnd?) then LiveOfStmt(y) else []
    case Block(stmts) => LiveOfList(stmts)
    case Subshell(stmts) => LiveOfList(stmts)
    case Other => [Unknown]
  }

  function LiveOfList(stmts: seq<Stmt>): seq<Event>
    decreases stmts
  {
    if stmts == [] then [] else LiveOfStmt(stmts[0]) + LiveOfList(stmts[1..])
  }

  lemma {:induction false} OneAfterTheOther(a: seq<Event>, b: seq<Event>)
    ensures Interleaving(a, b, a + b)
    decreases |a| + |b|
  {
    if a != [] {
      assert (a + b)[1..] == a[1..] + b;
      OneAfterTheOther(a[1..], b);
    } else if b != [] {
      assert a + b == b;
      OneAfterTheOther(a, b[1..]);
      assert a + b[1..] == b[1..];
    }
  }

  /** Every statement can end somehow. */
  lemma {:induction false} SomeEnd(s: Stmt)
    ensures CanEndStmt(s, true) || CanEndStmt(s, false)
    decreases s
  {
    match s.cmd
    case Binary(_, x, y) =>
      SomeEnd(x);
      SomeEnd(y);
    case Block(stmts) => if |stmts| == 1 { SomeEnd(stmts[0]); }
    case Subshell(stmts) => if |stmts| == 1 { SomeEnd(stmts[0]); }
    case _ =>
  }

  lemma {:induction false} StmtEnds(s: Stmt, ok: bool) returns (events: seq<Event>)
    requires CanEndStmt(s, ok)
    ensures StmtRuns(s, events, ok)
    decreases s, 1
  {
    if !OnlyFdDups(s.redirs) {
      events := [Unknown];
    } else if s.background {
      SomeEnd(Stmt([], false, false, s.cmd));
      events := CommandEnds(s.cmd, CanEndCommand(s.cmd, true));
    } else {
      events := CommandEnds(s.cmd, if s.negated then !ok else ok);
    }
  }

  lemma {:induction false} CommandEnds(c: Command, ok: bool) returns (events: seq<Event>)
    requires CanEndCommand(c, ok)
    ensures CommandRuns(c, events, ok)
    decreases c, 1
  {
    match c
    case Call(assigns, args) => events := [CallEvent(assigns, args)];
    case Other => events := [Unknown];
    case Block(stmts) => events := ListEnds(stmts, ok);
    case Subshell(stmts) => events := ListEnds(stmts, ok);
    case Binary(op, x, y) =>
      if (op.AndAnd? && !ok && CanEndStmt(x, false)) || (op.OrOr? && ok && CanEndStmt(x, true)) {
        events := StmtEnds(x, op.OrOr?);
      } else {
        SomeEnd(x);
        var okA := if op.Pipe? then CanEndStmt(x, true) else op.AndAnd?;
        var a := StmtEnds(x, okA);
        var b := StmtEnds(y, ok);
        events := a + b;
        OneAfterTheOther(a, b);
      }
  }

  lemma {:induction false} ListEnds(stmts: seq<Stmt>, ok: bool) returns (events: seq<Event>)
    requires |stmts| == 1 ==> CanEndStmt(stmts[0], ok)
    ensures ListRuns(stmts, events, ok)
    decreases stmts, 0
  {
    if stmts == [] {
      events := [];
    } else {
      SomeEnd(stmts[0]);
      events := StmtEnds(stmts[0], if |stmts| == 1 then ok else CanEndStmt(stmts[0], true));
    }
  }

  /** What ends in some run can end: the analysis misses no way a statement may end. */
  lemma {:induction false} EndedCanEnd(s: Stmt, events: seq<Event>, ok: bool)
    requires StmtRuns(s, events, ok)
    ensures CanEndStmt(s, ok)
    decreases s
  {
    if OnlyFdDups(s.redirs) && !s.background {
      CommandEndedCanEnd(s.cmd, events, if s.negated then !ok else ok);
    }
  }

  lemma {:induction false} CommandEndedCanEnd(c: Command, events: seq<Event>, ok: bool)
    requires CommandRuns(c, events, ok)
    ensures CanEndCommand(c, ok)
    decreases c
  {
    match c
    case Call(_, _) =>
    case Other =>
    case Block(stmts) => if |stmts| == 1 { EndedCanEnd(stmts[0], events, ok); }
    case Subshell(stmts) => if |stmts| == 1 { EndedCanEnd(stmts[0], events, ok); }
    case Binary(Pipe, x, y) =>
      var a, b, okA: bool :| StmtRuns(x, a, okA) && StmtRuns(y, b, ok) && Interleaving(a, b, events);
      EndedCanEnd(y, b, ok);
    case Binary(AndAnd, x, y) =>
      if !ok && StmtRuns(x, events, false) {
        EndedCanEnd(x, events, false);
      } else {
        var a, b :| StmtRuns(x, a, true) && StmtRuns(y, b, ok) && events == a + b;
        EndedCanEnd(x, a, true);
        EndedCanEnd(y, b, ok);
      }
    case Binary(OrOr, x, y) =>
      if ok && StmtRuns(x, events, true) {
        EndedCanEnd(x, events, true);
      } else {
        var a, b :| StmtRuns(x, a, false) && StmtRuns(y, b, ok) && events == a + b;
        EndedCanEnd(x, a, false);
        EndedCanEnd(y, b, ok);
      }
  }

  /** Whatever the exit statuses, a script runs only its live leaves. */
  lemma {:induction false} StmtRunsLive(s: Stmt, events: seq<Event>, ok: bool)
    requires StmtRuns(s, events, ok)
    ensures forall e :: e in events ==> e in LiveOfStmt(s)
    decreases s
  {
    if OnlyFdDups(s.redirs) {
      var inner :| CommandRuns(s.cmd, events, inner);
      CommandRunsLive(s.cmd, events, inner);
    }
  }

  lemma {:induction false} CommandRunsLive(c: Command, events: seq<Event>, ok: bool)
    requires CommandRuns(c, events, ok)
    ensures forall e :: e in events ==> e in LiveOfCommand(c)
    decreases c
  {
    match c
    case Call(_, _) =>
    case Other =>
    case Block(stmts) => ListRunsLive(stmts, events, ok);
    case Subshell(stmts) => ListRunsLive(stmts, events, ok);
    case Binary(Pipe, x, y) =>
      var a, b, okA: bool :| StmtRuns(x, a, okA) && StmtRuns(y, b, ok) && Interleaving(a, b, events);
      StmtRunsLive(x, a, okA);
      StmtRunsLive(y, b, ok);
      InterleavingMembers(a, b, events);
    case Binary(AndAnd, x, y) =>
      if !ok && StmtRuns(x, events, false) {
        StmtRunsLive(x, events, false);
      } else {
        var a, b :| StmtRuns(x, a, true) && StmtRuns(y, b, ok) && events == a + b;
        EndedCanEnd(x, a, true);
        StmtRunsLive(x, a, true);
        StmtRunsLive(y, b, ok);
      }
    case Binary(OrOr, x, y) =>
      if ok && StmtRuns(x, events, true) {
        StmtRunsLive(x, events, true);
      } else {
        var a, b :| StmtRuns(x, a, false) && StmtRuns(y, b, ok) && events == a + b;
        EndedCanEnd(x, a, false);
        StmtRunsLive(x, a, false);
        StmtRunsLive(y, b, ok);
      }
  }

  lemma {:induction false} ListRunsLive(stmts: seq<Stmt>, events: seq<Event>, ok: bool)
    requires ListRuns(stmts, events, ok)
    ensures forall e :: e in events ==> e in LiveOfList(stmts)
    decreases stmts
  {
    if |stmts| == 1 {
      StmtRunsLive(stmts[0], events, ok);
    } else if |stmts| > 1 {
      if okFirst: bool :| StmtRuns(stmts[0], events, okFirst) {
        StmtRunsLive(stmts[0], events, okFirst);
      } else {
        var a, b, okFirst: bool :|
          StmtRuns(stmts[0], a, okFirst) && ListRuns(stmts[1..], b, ok)
          && (if stmts[0].background then Interleaving(a, b, events) else events == a + b);
        StmtRunsLive(stmts[0], a, okFirst);
        ListRunsLive(stmts[1..], b, ok);
        if stmts[0].background {
          InterleavingMembers(a, b, events);
        }
      }
    }
  }

  lemma {:induction false} LiveIsLeafOfStmt(s: Stmt)
    ensures forall e :: e in LiveOfStmt(s) ==> e in LeavesOfStmt(s)
    decreases s
  {
    LiveIsLeafOfCommand(s.cmd);
  }

  lemma {:induction false} LiveIsLeafOfCommand(c: Command)
    ensures forall e :: e in LiveOfCommand(c) ==> e in LeavesOfCommand(c)
    decreases c
  {
    match c
    case Binary(_, x, y) =>
      LiveIsLeafOfStmt(x);
      LiveIsLeafOfStmt(y);
    case Block(stmts) => LiveIsLeaf(stmts);
    case Subshell(stmts) => LiveIsLeaf(stmts);
    case _ =>
  }

  lemma {:induction false} LiveIsLeaf(stmts: seq<Stmt>)
    ensures forall e :: e in LiveOfList(stmts) ==> e in LeavesOfList(stmts)
    decreases stmts
  {
    if stmts != [] {
      LiveIsLeafOfStmt(stmts[0]);
      LiveIsLeaf(stmts[1..]);
    }
  }

  /** Whatever the exit statuses, a script runs only its leaves. */
  lemma ListRunsLeaves(stmts: seq<Stmt>, events: seq<Event>, ok: bool)
    requires ListRuns(stmts, events, ok)
    ensures forall e :: e in events ==> e in LeavesOfList(stmts)
  {
    ListRunsLive(stmts, events, ok);
    LiveIsLeaf(stmts);
  }

  /** Every live leaf is run under some choice of exit statuses. */
  lemma {:induction false} StmtReaches(s: Stmt, leaf: Event) returns (events: seq<Event>, ok: bool)
    requires leaf in LiveOfStmt(s)
    ensures StmtRuns(s, events, ok) && leaf in events
    decreases s
  {
    if !OnlyFdDups(s.redirs) {
      events, ok := [Unknown], true;
    } else {
      events, ok := CommandReaches(s.cmd, leaf);
      ok := if s.background then true else if s.negated then !ok else ok;
    }
  }

  lemma {:induction false} CommandReaches(c: Command, leaf: Event) returns (events: seq<Event>, ok: bool)
    requires leaf in LiveOfCommand(c)
    ensures CommandRuns(c, events, ok) && leaf in events
    decreases c
  {
    match c
    case Call(assigns, args) => events, ok := [CallEvent(assigns, args)], true;
    case Other => events, ok := [Unknown], true;
    case Block(stmts) => events, ok := ListReaches(stmts, leaf);
    case Subshell(stmts) => events, ok := ListReaches(stmts, leaf);
    case Binary(op, x, y) =>
      var a, b;
      if leaf in LiveOfStmt(x) {
        var okA;
        a, okA := StmtReaches(x, leaf);
        if (op.AndAnd? && !okA) || (op.OrOr? && okA) {
          events, ok := a, okA;
          return;
        }
        SomeEnd(y);
        ok := CanEndStmt(y, true);
        b := StmtEnds(y, ok);
      } else {
        SomeEnd(x);
        a := StmtEnds(x, if op.Pipe? then CanEndStmt(x, true) else op.AndAnd?);
        b, ok := StmtReaches(y, leaf);
      }
      events := a + b;
      OneAfterTheOther(a, b);
  }

  lemma {:induction false} ListReaches(stmts: seq<Stmt>, leaf: Event) returns (events: seq<Event>, ok: bool)
    requires leaf in LiveOfList(stmts)
    ensures ListRuns(stmts, events, ok) && leaf in events
    decreases stmts
  {
    if leaf in LiveOfStmt(stmts[0]) {
      events, ok := StmtReaches(stmts[0], leaf);
    } else {
      SomeEnd(stmts[0]);
      var a := StmtEnds(stmts[0], CanEndStmt(stmts[0], true));
      var b;
      b, ok := ListReaches(stmts[1..], leaf);
      events := a + b;
      OneAfterTheOther(a, b);
    }
  }

  ghost predicate CanRun(script: seq<Stmt>, leaf: Event) {
    exists events, ok: bool :: ListRuns(script, events, ok) && leaf in events
  }

  /** The live leaves of a script are exactly the commands that some run of it starts. */
  lemma LiveLeavesAreWhatRuns(script: seq<Stmt>, leaf: Event)
    ensures leaf in LiveOfList(script) <==> CanRun(script, leaf)
  {
    if leaf in LiveOfList(script) {
      var events, ok := ListReaches(script, leaf);
    }
    if CanRun(script, leaf) {
      var events, ok: bool :| ListRuns(script, events, ok) && leaf in events;
      ListRunsLive(script, events, ok);
    }
  }

  // ---------------------------------------------------------------- scripts without dead leaves

  /** `&` only on statements of a list, and no group of one that runs in the background: such a group never
      fails, so what follows it after `||` is dead. */
  predicate NoDeadStmt(s: Stmt)
    decreases s
  {
    NoDeadCommand(s.cmd)
  }

  predicate NoDeadCommand(c: Command)
    decreases c
  {
    match c
    case Binary(_, x, y) => !x.background && !y.background && NoDeadStmt(x) && NoDeadStmt(y)
    case Block(stmts) => NoDeadList(stmts) && (|stmts| == 1 ==> !stmts[0].background)
    case Subshell(stmts) => NoDeadList(stmts) && (|stmts| == 1 ==> !stmts[0].background)
    case _ => true
  }

  predicate NoDeadList(stmts: seq<Stmt>)
    decreases stmts
  {
    stmts != [] ==> NoDeadStmt(stmts[0]) && NoDeadList(stmts[1..])
  }

  lemma {:induction false} EndsBothWays(s: Stmt, ok: bool)
    requires NoDeadStmt(s) && !s.background
    ensures CanEndStmt(s, ok)
    decreases s
  {
    var inner := if s.negated then !ok else ok;
    match s.cmd
    case Binary(op, x, y) =>
      EndsBothWays(x, op.AndAnd?);
      EndsBothWays(y, inner);
    case Block(stmts) =>
      assert NoDeadList(stmts);
      if |stmts| == 1 { EndsBothWays(stmts[0], inner); }
    case Subshell(stmts) =>
      assert NoDeadList(stmts);
      if |stmts| == 1 { EndsBothWays(stmts[0], inner); }
    case _ =>
  }

  lemma {:induction false} NoDeadIsLiveStmt(s: Stmt)
    requires NoDeadStmt(s)
    ensures LiveOfStmt(s) == LeavesOfStmt(s)
    decreases s
  {
    match s.cmd
    case Binary(op, x, y) =>
      EndsBothWays(x, op.AndAnd?);
      NoDeadIsLiveStmt(x);
      NoDeadIsLiveStmt(y);
    case Block(stmts) => NoDeadIsLive(stmts);
    case Subshell(stmts) => NoDeadIsLive(stmts);
    case _ =>
  }

  lemma {:induction false} NoDeadIsLive(stmts: seq<Stmt>)
    requires NoDeadList(stmts)
    ensures LiveOfList(stmts) == LeavesOfList(stmts)
    decreases stmts
  {
    if stmts != [] {
      NoDeadIsLiveStmt(stmts[0]);
      NoDeadIsLive(stmts[1..]);
    }
  }

  /** In a script without dead leaves the leaves are exactly the commands that some run starts. */
  lemma LeavesAreWhatRuns(script: seq<Stmt>, leaf: Event)
    requires NoDeadList(script)
    ensures leaf in LeavesOfList(script) <==> CanRun(script, leaf)
  {
    NoDeadIsLive(script);
    LiveLeavesAreWhatRuns(script, leaf);
  }

  lemma OneStmt(s: Stmt)
    ensures LeavesOfList([s]) == LeavesOfStmt(s) && LiveOfList([s]) == LiveOfStmt(s)
  {
    assert [s][1..] == [] && LeavesOfList([]) == [] && LiveOfList([]) == [];
    assert LeavesOfStmt(s) + [] == LeavesOfStmt(s) && LiveOfStmt(s) + [] == LiveOfStmt(s);
  }

  function Plain(c: Command): Stmt {
    Stmt([], false, false, c)
  }

  /** `{ a & } || b` */
  function BackgroundOr(a: Command, b: Command): Stmt {
    Plain(Binary(OrOr, Plain(Block([Stmt([], false, true, a)])), Plain(b)))
  }

  /** A dead leaf: a group that is one background statement never fails, so what follows it is not run. */
  lemma DeadLeaf(a: Command, b: Command, leaf: Event)
    requires leaf in LeavesOfCommand(b) && leaf !in LeavesOfCommand(a)
    ensures leaf in LeavesOfList([BackgroundOr(a, b)]) && !CanRun([BackgroundOr(a, b)], leaf)
  {
    var s, inner := BackgroundOr(a, b), Stmt([], false, true, a);
    var group := Plain(Block([inner]));
    OneStmt(s);
    OneStmt(inner);
    assert LeavesOfStmt(s) == LeavesOfStmt(group) + LeavesOfStmt(Plain(b));
    assert !CanEndStmt(inner, false) && !CanEndStmt(group, false);
    assert LiveOfStmt(s) == LiveOfStmt(group) + [] && LiveOfStmt(group) == LiveOfStmt(inner);
    LiveIsLeafOfStmt(inner);
    LiveLeavesAreWhatRuns([s], leaf);
  }
}
