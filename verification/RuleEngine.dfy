/** The rule engine: session and permanent allow rules, matched against one operation at one instant,
    and the explanation of the same decision. */
module RuleEngine {
  import opened Text
  import opened Glob
  import opened CleanPath
  import opened ShellScript

  // ---------------------------------------------------------------- rules and operations

  datatype CmdRule = CmdRule(argvPrefix: seq<string>, tailAny: bool)

  /** Empty text means the field is absent. */
  datatype PathRule = PathRule(exact: string, prefix: string, glob: string)

  datatype Rule = Rule(id: string, opType: string, expiresAt: Option<int>, cmd: Option<CmdRule>, path: Option<PathRule>)

  /** An operation as the engine reads its payload: the argv and the path, where a payload that does
      not decode gives `None` and one without the field gives the empty value. */
  datatype Op = Op(opType: string, argv: Option<seq<string>>, path: Option<string>)

  predicate Expired(r: Rule, now: int) {
    r.expiresAt.Some? && now > r.expiresAt.value
  }

  function Live(rs: seq<Rule>, now: int): seq<Rule> {
    if rs == [] then []
    else (if Expired(rs[0], now) then [] else [rs[0]]) + Live(rs[1..], now)
  }

  // ---------------------------------------------------------------- command analysis

  /** The shell parser, which is not part of this model: a script gives its statements or an error. */
  type Parser = string -> Result<seq<Stmt>, string>

  datatype Analysis = Analysis(argv: seq<string>, segments: seq<Segment>, shell: bool, unsupported: string)

  predicate IsScriptFlag(arg: string) {
    arg == "-c" || arg == "-lc" || ('c' in arg && HasPrefix(arg, "-") && !HasPrefix(arg, "--"))
  }

  function ScriptFrom(argv: seq<string>, i: nat): Option<string>
    decreases |argv| - i
  {
    if i + 1 >= |argv| then None
    else if IsScriptFlag(argv[i]) then Some(argv[i + 1])
    else ScriptFrom(argv, i + 1)
  }

  function ShellScriptArg(argv: seq<string>): Option<string> {
    if |argv| < 3 then None
    else
      var name := argv[0][AfterLastSlash(argv[0])..];
      if name != "sh" && name != "bash" then None else ScriptFrom(argv, 1)
  }

  method FindShellScript(argv: seq<string>) returns (script: Option<string>)
    ensures script == ShellScriptArg(argv)
  {
    if |argv| < 3 {
      return None;
    }
    var name := argv[0][AfterLastSlash(argv[0])..];
    if name != "sh" && name != "bash" {
      return None;
    }
    for i := 1 to |argv| - 1
      invariant ScriptFrom(argv, 1) == ScriptFrom(argv, i)
    {
      if IsScriptFlag(argv[i]) {
        return Some(argv[i + 1]);
      }
    }
    return None;
  }

  function AnalyzeArgv(parse: Parser, argv: seq<string>): Analysis {
    match ShellScriptArg(argv)
    case None => Analysis(argv, [Segment(argv, "")], false, "")
    case Some(script) =>
      match parse(script)
      case Err(e) => Analysis(argv, [], true, "shell parse error: " + e)
      case Ok(stmts) => Analysis(argv, SegmentsOfList(stmts), true, "")
  }

  function AnalyzeOp(parse: Parser, op: Op): Analysis {
    if op.opType != "cmd.run" then Analysis([], [], false, "unsupported op type")
    else if op.argv.None? || op.argv.value == [] then Analysis([], [], false, "invalid cmd.run payload")
    else AnalyzeArgv(parse, op.argv.value)
  }

  // ---------------------------------------------------------------- one rule against one operation

  predicate WordMatches(pattern: string, word: string) {
    if '*' in pattern then GlobAccepts(pattern, word) else pattern == word
  }

  predicate ArgvHasPrefix(argv: seq<string>, prefix: seq<string>) {
    && prefix != []
    && |prefix| <= |argv|
    && forall i :: 0 <= i < |prefix| ==> WordMatches(prefix[i], argv[i])
  }

  method CheckArgvPrefix(argv: seq<string>, prefix: seq<string>) returns (ok: bool)
    ensures ok <==> ArgvHasPrefix(argv, prefix)
  {
    if |prefix| == 0 || |argv| < |prefix| {
      return false;
    }
    for i := 0 to |prefix|
      invariant forall j :: 0 <= j < i ==> WordMatches(prefix[j], argv[j])
    {
      if '*' in prefix[i] {
        GlobExact(prefix[i], argv[i]);
        var hit := GlobMatch(prefix[i], argv[i]);
        if !hit {
          return false;
        }
      } else if argv[i] != prefix[i] {
        return false;
      }
    }
    return true;
  }

  predicate PathMatches(path: string, r: PathRule) {
    var cleaned := Clean(path);
    if r.exact != "" then cleaned == r.exact
    else if r.prefix != "" then HasPrefix(cleaned, r.prefix)
    else if r.glob != "" then GlobAccepts(r.glob, cleaned)
    else false
  }

  predicate IsPathOp(opType: string) {
    || opType == "fs.read" || opType == "fs.patch_unified" || opType == "fs.upload" || opType == "fs.download"
    || opType == "fs.append_block" || opType == "fs.replace_literal" || opType == "conf.set" || opType == "conf.set_kv"
  }

  predicate RuleMatches(r: Rule, op: Op) {
    && r.opType == op.opType
    && if op.opType == "cmd.run" then
         r.cmd.Some? && op.argv.Some? && ArgvHasPrefix(op.argv.value, r.cmd.value.argvPrefix)
       else if IsPathOp(op.opType) then
         r.path.Some? && op.path.Some? && PathMatches(op.path.value, r.path.value)
       else false
  }

  predicate CoversArgv(r: Rule, argv: seq<string>) {
    r.opType == "cmd.run" && r.cmd.Some? && ArgvHasPrefix(argv, r.cmd.value.argvPrefix)
  }

  /** Word for word, without stars: how a whole shell invocation is granted. */
  predicate IsExactArgv(r: Rule, argv: seq<string>) {
    && r.opType == "cmd.run" && r.cmd.Some? && !r.cmd.value.tailAny
    && |r.cmd.value.argvPrefix| == |argv|
    && forall i :: 0 <= i < |argv| ==> '*' !in r.cmd.value.argvPrefix[i] && r.cmd.value.argvPrefix[i] == argv[i]
  }

  // ---------------------------------------------------------------- first rule that fits

  function FirstCovering(rs: seq<Rule>, argv: seq<string>): Option<Rule> {
    if rs == [] then None
    else if CoversArgv(rs[0], argv) then Some(rs[0])
    else FirstCovering(rs[1..], argv)
  }

  function FirstExact(rs: seq<Rule>, argv: seq<string>): Option<Rule> {
    if rs == [] then None
    else if IsExactArgv(rs[0], argv) then Some(rs[0])
    else FirstExact(rs[1..], argv)
  }

  function FirstMatching(rs: seq<Rule>, op: Op): Option<Rule> {
    if rs == [] then None
    else if RuleMatches(rs[0], op) then Some(rs[0])
    else FirstMatching(rs[1..], op)
  }

  // ---------------------------------------------------------------- the decision as a function of the live rules

  datatype SegmentDecision =
    SegmentDecision(argv: seq<string>, source: string, ruleID: string, allowed: bool, unsupported: string, reason: string)

  datatype Verdict = Verdict(allowed: bool, ruleID: string, source: string, segments: seq<SegmentDecision>)

  datatype Explanation = Explanation(allowed: bool, segments: seq<SegmentDecision>)

  const Refused := Verdict(false, "", "", [])

  function DecideSegment(sess: seq<Rule>, always: seq<Rule>, s: Segment): SegmentDecision {
    if s.unsupported != "" then SegmentDecision(s.argv, "", "", false, s.unsupported, "")
    else
      match FirstCovering(sess, s.argv)
      case Some(r) => SegmentDecision(s.argv, "session", r.id, true, "", "")
      case None =>
        match FirstCovering(always, s.argv)
        case Some(r) => SegmentDecision(s.argv, "always", r.id, true, "", "")
        case None => SegmentDecision(s.argv, "", "", false, "", "")
  }

  function DecideSegments(sess: seq<Rule>, always: seq<Rule>, ss: seq<Segment>): (ds: seq<SegmentDecision>)
    ensures |ds| == |ss|
  {
    if ss == [] then [] else [DecideSegment(sess, always, ss[0])] + DecideSegments(sess, always, ss[1..])
  }

  predicate AllAllowed(ds: seq<SegmentDecision>) {
    forall d :: d in ds ==> d.allowed
  }

  function MatchShell(sess: seq<Rule>, always: seq<Rule>, a: Analysis): Verdict {
    if a.unsupported != "" || a.segments == [] then
      Verdict(false, "", "", [SegmentDecision([], "", "", false, a.unsupported, "")])
    else
      var ds := DecideSegments(sess, always, a.segments);
      Verdict(AllAllowed(ds), "shell-segments", "segments", ds)
  }

  function MatchLive(parse: Parser, sess: seq<Rule>, always: seq<Rule>, op: Op): Verdict {
    var a := AnalyzeOp(parse, op);
    if op.opType == "cmd.run" && a.shell then
      match FirstExact(sess, a.argv)
      case Some(r) => Verdict(true, r.id, "session", [])
      case None =>
        match FirstExact(always, a.argv)
        case Some(r) => Verdict(true, r.id, "always", [])
        case None => MatchShell(sess, always, a)
    else
      match FirstMatching(sess, op)
      case Some(r) => Verdict(true, r.id, "session", [])
      case None =>
        match FirstMatching(always, op)
        case Some(r) => Verdict(true, r.id, "always", [])
        case None => Refused
  }

  function WithReason(d: SegmentDecision): SegmentDecision {
    if d.allowed then d
    else d.(reason := if d.unsupported != "" then d.unsupported else "no matching rule")
  }

  function WithReasons(ds: seq<SegmentDecision>): (r: seq<SegmentDecision>)
    ensures |r| == |ds| && forall i :: 0 <= i < |ds| ==> r[i] == WithReason(ds[i])
  {
    if ds == [] then [] else [WithReason(ds[0])] + WithReasons(ds[1..])
  }

  function ExplainLive(parse: Parser, sess: seq<Rule>, always: seq<Rule>, op: Op): Explanation {
    var a := AnalyzeOp(parse, op);
    if op.opType == "cmd.run" && a.shell then
      match FirstExact(sess, a.argv)
      case Some(r) => Explanation(true, [SegmentDecision(a.argv, "session", r.id, true, "", "")])
      case None =>
        match FirstExact(always, a.argv)
        case Some(r) => Explanation(true, [SegmentDecision(a.argv, "always", r.id, true, "", "")])
        case None =>
          var v := MatchShell(sess, always, a);
          Explanation(v.allowed, WithReasons(v.segments))
    else
      var ds := WithReasons(DecideSegments(sess, always, a.segments));
      Explanation(ds != [] && AllAllowed(ds), ds)
  }

  // ---------------------------------------------------------------- the engine

  function RulesOf(sessions: map<string, seq<Rule>>, session: string): seq<Rule> {
    if session in sessions then sessions[session] else []
  }

  /** The list without its first rule of that id. */
  function RemoveFirst(rs: seq<Rule>, id: string): seq<Rule> {
    if rs == [] then []
    else if rs[0].id == id then rs[1..]
    else [rs[0]] + RemoveFirst(rs[1..], id)
  }

  predicate HasId(rs: seq<Rule>, id: string) {
    exists r :: r in rs && r.id == id
  }

  function RemoveSession(sessions: map<string, seq<Rule>>, session: string, id: string): map<string, seq<Rule>> {
    var rs := RulesOf(sessions, session);
    if !HasId(rs, id) then sessions
    else
      var left := RemoveFirst(rs, id);
      if left == [] then sessions - {session} else sessions[session := left]
  }

  class Engine {
    const parse: Parser
    var always: seq<Rule>
    var sessionRules: map<string, seq<Rule>>

    constructor (parse: Parser)
      ensures this.parse == parse && always == [] && sessionRules == map[]
    {
      this.parse := parse;
      always, sessionRules := [], map[];
    }

    method AddAlways(r: Rule)
      modifies this
      ensures always == old(always) + [r] && sessionRules == old(sessionRules)
    {
      always := always + [r];
    }

    method AddSession(session: string, r: Rule)
      modifies this
      ensures always == old(always)
      ensures sessionRules == old(sessionRules)[session := RulesOf(old(sessionRules), session) + [r]]
    {
      sessionRules := sessionRules[session := RulesOf(sessionRules, session) + [r]];
    }

    method ReplaceAlways(rs: seq<Rule>)
      modifies this
      ensures always == rs && sessionRules == old(sessionRules)
    {
      always := rs;
    }

    method RemoveSessionRule(session: string, id: string) returns (removed: bool)
      modifies this
      ensures removed <==> HasId(RulesOf(old(sessionRules), session), id)
      ensures always == old(always)
      ensures sessionRules == RemoveSession(old(sessionRules), session, id)
    {
      var rs := RulesOf(sessionRules, session);
      for i := 0 to |rs|
        invariant sessionRules == old(sessionRules) && always == old(always)
        invariant forall j :: 0 <= j < i ==> rs[j].id != id
      {
        if rs[i].id == id {
          RemoveFirstAt(rs, id, i);
          assert HasId(rs, id);
          var left := rs[..i] + rs[i + 1..];
          sessionRules := sessionRules[session := left];
          if |left| == 0 {
            sessionRules := sessionRules - {session};
          }
          assert sessionRules == RemoveSession(old(sessionRules), session, id);
          return true;
        }
      }
      return false;
    }

    method Match(session: string, op: Op, now: int) returns (v: Verdict)
      ensures v == MatchLive(parse, Live(RulesOf(sessionRules, session), now), Live(always, now), op)
    {
      var sess, perm := Live(RulesOf(sessionRules, session), now), Live(always, now);
      if op.opType == "cmd.run" {
        var analysis := AnalyzeOp(parse, op);
        if analysis.shell {
          var exact, source := MatchExactRule(sess, perm, analysis.argv);
          if exact.Some? {
            return Verdict(true, exact.value.id, source, []);
          }
          v := MatchAnalyzed(sess, perm, analysis);
          return;
        }
      }
      for i := 0 to |sess|
        invariant FirstMatching(sess, op) == FirstMatching(sess[i..], op)
      {
        assert sess[i..][1..] == sess[i + 1..];
        if RuleMatches(sess[i], op) {
          return Verdict(true, sess[i].id, "session", []);
        }
      }
      for i := 0 to |perm|
        invariant FirstMatching(perm, op) == FirstMatching(perm[i..], op)
      {
        assert perm[i..][1..] == perm[i + 1..];
        if RuleMatches(perm[i], op) {
          return Verdict(true, perm[i].id, "always", []);
        }
      }
      return Refused;
    }

    method Explain(session: string, op: Op, now: int) returns (e: Explanation)
      ensures e == ExplainLive(parse, Live(RulesOf(sessionRules, session), now), Live(always, now), op)
    {
      var sess, perm := Live(RulesOf(sessionRules, session), now), Live(always, now);
      var analysis := AnalyzeOp(parse, op);
      if op.opType == "cmd.run" && analysis.shell {
        var exact, source := MatchExactRule(sess, perm, analysis.argv);
        if exact.Some? {
          return Explanation(true, [SegmentDecision(analysis.argv, source, exact.value.id, true, "", "")]);
        }
        var v := MatchAnalyzed(sess, perm, analysis);
        var ds := FillReasons(v.segments);
        return Explanation(v.allowed, ds);
      }
      var decided := DecideEach(sess, perm, analysis.segments);
      var ds := FillReasons(decided);
      var allowed := CheckAllowed(ds);
      return Explanation(|ds| > 0 && allowed, ds);
    }
  }

  lemma {:induction false} RemoveFirstAt(rs: seq<Rule>, id: string, i: nat)
    requires i < |rs| && rs[i].id == id && forall j :: 0 <= j < i ==> rs[j].id != id
    ensures RemoveFirst(rs, id) == rs[..i] + rs[i + 1..]
  {
    if i > 0 {
      RemoveFirstAt(rs[1..], id, i - 1);
    }
  }

  method FindCovering(rs: seq<Rule>, argv: seq<string>) returns (r: Option<Rule>)
    ensures r == FirstCovering(rs, argv)
  {
    for i := 0 to |rs|
      invariant FirstCovering(rs, argv) == FirstCovering(rs[i..], argv)
    {
      assert rs[i..][1..] == rs[i + 1..];
      if rs[i].opType != "cmd.run" || rs[i].cmd.None? {
        continue;
      }
      var hit := CheckArgvPrefix(argv, rs[i].cmd.value.argvPrefix);
      if hit {
        return Some(rs[i]);
      }
    }
    return None;
  }

  method FindExact(rs: seq<Rule>, argv: seq<string>) returns (r: Option<Rule>)
    ensures r == FirstExact(rs, argv)
  {
    for i := 0 to |rs|
      invariant FirstExact(rs, argv) == FirstExact(rs[i..], argv)
    {
      assert rs[i..][1..] == rs[i + 1..];
      var rule := rs[i];
      if rule.opType != "cmd.run" || rule.cmd.None? || rule.cmd.value.tailAny
         || |rule.cmd.value.argvPrefix| != |argv| {
        continue;
      }
      var exact := true;
      for k := 0 to |argv|
        invariant exact <==> forall j :: 0 <= j < k ==>
                    '*' !in rule.cmd.value.argvPrefix[j] && rule.cmd.value.argvPrefix[j] == argv[j]
      {
        if '*' in rule.cmd.value.argvPrefix[k] || rule.cmd.value.argvPrefix[k] != argv[k] {
          exact := false;
          break;
        }
      }
      if exact {
        return Some(rule);
      }
    }
    return None;
  }

  method MatchExactRule(sess: seq<Rule>, always: seq<Rule>, argv: seq<string>) returns (r: Option<Rule>, source: string)
    ensures r == if FirstExact(sess, argv).Some? then FirstExact(sess, argv) else FirstExact(always, argv)
    ensures r.Some? ==> source == if FirstExact(sess, argv).Some? then "session" else "always"
  {
    source := "session";
    r := FindExact(sess, argv);
    if r.None? {
      source := "always";
      r := FindExact(always, argv);
    }
  }

  method DecideEach(sess: seq<Rule>, always: seq<Rule>, ss: seq<Segment>) returns (ds: seq<SegmentDecision>)
    ensures ds == DecideSegments(sess, always, ss)
  {
    ds := [];
    for i := 0 to |ss|
      invariant DecideSegments(sess, always, ss) == ds + DecideSegments(sess, always, ss[i..])
    {
      assert ss[i..][1..] == ss[i + 1..];
      var d := SegmentDecision(ss[i].argv, "", "", false, ss[i].unsupported, "");
      if ss[i].unsupported == "" {
        var hit := FindCovering(sess, ss[i].argv);
        if hit.Some? {
          d := d.(allowed := true, source := "session", ruleID := hit.value.id);
        } else {
          hit := FindCovering(always, ss[i].argv);
          if hit.Some? {
            d := d.(allowed := true, source := "always", ruleID := hit.value.id);
          }
        }
      }
      assert d == DecideSegment(sess, always, ss[i]);
      ConcatAssoc(ds, [d], DecideSegments(sess, always, ss[i + 1..]));
      ds := ds + [d];
    }
    assert ds + DecideSegments(sess, always, []) == ds;
  }

  method CheckAllowed(ds: seq<SegmentDecision>) returns (allowed: bool)
    ensures allowed <==> AllAllowed(ds)
  {
    for i := 0 to |ds|
      invariant forall j :: 0 <= j < i ==> ds[j].allowed
    {
      if !ds[i].allowed {
        assert ds[i] in ds;
        return false;
      }
    }
    return true;
  }

  method MatchAnalyzed(sess: seq<Rule>, always: seq<Rule>, a: Analysis) returns (v: Verdict)
    ensures v == MatchShell(sess, always, a)
  {
    if a.unsupported != "" || |a.segments| == 0 {
      return Verdict(false, "", "", [SegmentDecision([], "", "", false, a.unsupported, "")]);
    }
    var ds := DecideEach(sess, always, a.segments);
    var allAllowed := CheckAllowed(ds);
    return Verdict(allAllowed, "shell-segments", "segments", ds);
  }

  method FillReasons(segments: seq<SegmentDecision>) returns (ds: seq<SegmentDecision>)
    ensures ds == WithReasons(segments)
  {
    ds := segments;
    for i := 0 to |segments|
      invariant |ds| == |segments|
      invariant forall j :: 0 <= j < i ==> ds[j] == WithReason(segments[j])
      invariant forall j :: i <= j < |segments| ==> ds[j] == segments[j]
    {
      if ds[i].allowed {
        continue;
      }
      ds := ds[i := ds[i].(reason := if ds[i].unsupported != "" then ds[i].unsupported else "no matching rule")];
    }
  }
}
