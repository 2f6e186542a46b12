/** What the engine's decisions mean: the rules they rest on, how they change with rules and time,
    and what an allowed shell script can run. */
module RuleEngineLaws {
  import opened Text
  import opened ShellScript
  import opened RuleEngine

  // ---------------------------------------------------------------- the verdict, without order

  function RuleSet(sess: seq<Rule>, always: seq<Rule>): set<Rule> {
    (set r | r in sess) + (set r | r in always)
  }

  predicate HasCover(rules: set<Rule>, argv: seq<string>) {
    exists r :: r in rules && CoversArgv(r, argv)
  }

  predicate HasExact(rules: set<Rule>, argv: seq<string>) {
    exists r :: r in rules && IsExactArgv(r, argv)
  }

  predicate HasMatch(rules: set<Rule>, op: Op) {
    exists r :: r in rules && RuleMatches(r, op)
  }

  /** Every segment is a known command covered by one of the rules. */
  predicate AllCovered(rules: set<Rule>, a: Analysis) {
    && a.unsupported == "" && a.segments != []
    && forall s :: s in a.segments ==> s.unsupported == "" && HasCover(rules, s.argv)
  }

  predicate Permits(parse: Parser, rules: set<Rule>, op: Op) {
    var a := AnalyzeOp(parse, op);
    if op.opType == "cmd.run" && a.shell then HasExact(rules, a.argv) || AllCovered(rules, a)
    else HasMatch(rules, op)
  }

  lemma {:induction false} FirstCoveringIff(rs: seq<Rule>, argv: seq<string>)
    ensures var f := FirstCovering(rs, argv);
            && (f.Some? <==> exists r :: r in rs && CoversArgv(r, argv))
            && (f.Some? ==> f.value in rs && CoversArgv(f.value, argv))
  {
    if rs != [] {
      FirstCoveringIff(rs[1..], argv);
      assert rs == [rs[0]] + rs[1..];
    }
  }

  lemma {:induction false} FirstExactIff(rs: seq<Rule>, argv: seq<string>)
    ensures var f := FirstExact(rs, argv);
            (f.Some? <==> exists r :: r in rs && IsExactArgv(r, argv)) && (f.Some? ==> f.value in rs)
  {
    if rs != [] {
      FirstExactIff(rs[1..], argv);
      assert rs == [rs[0]] + rs[1..];
    }
  }

  lemma {:induction false} FirstMatchingIff(rs: seq<Rule>, op: Op)
    ensures var f := FirstMatching(rs, op);
            (f.Some? <==> exists r :: r in rs && RuleMatches(r, op)) && (f.Some? ==> f.value in rs)
  {
    if rs != [] {
      FirstMatchingIff(rs[1..], op);
      assert rs == [rs[0]] + rs[1..];
    }
  }

  /** A segment is allowed exactly when it is supported and covered, and then names a covering rule. */
  lemma SegmentEvidence(sess: seq<Rule>, always: seq<Rule>, s: Segment)
    ensures var d := DecideSegment(sess, always, s);
            && (d.allowed <==> s.unsupported == "" && HasCover(RuleSet(sess, always), s.argv))
            && (d.allowed ==> exists r :: r in (if d.source == "session" then sess else always)
                                          && r.id == d.ruleID && CoversArgv(r, d.argv))
  {
    FirstCoveringIff(sess, s.argv);
    FirstCoveringIff(always, s.argv);
  }

  lemma {:induction false} SegmentsIff(sess: seq<Rule>, always: seq<Rule>, ss: seq<Segment>)
    ensures AllAllowed(DecideSegments(sess, always, ss)) <==>
            forall s :: s in ss ==> s.unsupported == "" && HasCover(RuleSet(sess, always), s.argv)
  {
    if ss != [] {
      SegmentEvidence(sess, always, ss[0]);
      SegmentsIff(sess, always, ss[1..]);
      var d, rest := DecideSegment(sess, always, ss[0]), DecideSegments(sess, always, ss[1..]);
      assert AllAllowed([d] + rest) <==> d.allowed && AllAllowed(rest);
      assert ss == [ss[0]] + ss[1..];
    }
  }

  /** The verdict depends only on which rules are live, not on their order or which list holds them. */
  lemma AllowedIff(parse: Parser, sess: seq<Rule>, always: seq<Rule>, op: Op)
    ensures MatchLive(parse, sess, always, op).allowed <==> Permits(parse, RuleSet(sess, always), op)
  {
    var a := AnalyzeOp(parse, op);
    FirstExactIff(sess, a.argv);
    FirstExactIff(always, a.argv);
    FirstMatchingIff(sess, op);
    FirstMatchingIff(always, op);
    SegmentsIff(sess, always, a.segments);
  }

  // ---------------------------------------------------------------- the explanation

  lemma ReasonsKeepVerdict(ds: seq<SegmentDecision>)
    ensures AllAllowed(WithReasons(ds)) <==> AllAllowed(ds)
  {
    var rs := WithReasons(ds);
    assert forall i :: 0 <= i < |ds| ==> rs[i].allowed == ds[i].allowed;
    if AllAllowed(ds) {
      forall r | r in rs
        ensures r.allowed
      {
        var i :| 0 <= i < |rs| && rs[i] == r;
        assert ds[i] in ds;
      }
    }
    if AllAllowed(rs) {
      forall d | d in ds
        ensures d.allowed
      {
        var i :| 0 <= i < |ds| && ds[i] == d;
        assert rs[i] in rs;
      }
    }
  }

  /** At one instant the explanation allows exactly the commands that the match allows, and nothing
      that is not a command. */
  lemma ExplainAgrees(parse: Parser, sess: seq<Rule>, always: seq<Rule>, op: Op)
    ensures ExplainLive(parse, sess, always, op).allowed <==>
            op.opType == "cmd.run" && MatchLive(parse, sess, always, op).allowed
  {
    AllowedIff(parse, sess, always, op);
    var a := AnalyzeOp(parse, op);
    if !(op.opType == "cmd.run" && a.shell) {
      SegmentsIff(sess, always, a.segments);
      ReasonsKeepVerdict(DecideSegments(sess, always, a.segments));
      if a.segments != [] {
        assert a.segments == [Segment(op.argv.value, "")];
        forall r: Rule
          ensures op.opType == "cmd.run" ==> (RuleMatches(r, op) <==> CoversArgv(r, op.argv.value))
        {
        }
      } else {
        assert op.opType == "cmd.run" && op.argv.Some? ==> op.argv.value == [];
      }
    }
  }

  /** The one segment of a plain command is explained by the very rule the match reports. */
  lemma ExplainNamesTheRule(parse: Parser, sess: seq<Rule>, always: seq<Rule>, op: Op)
    requires op.opType == "cmd.run" && MatchLive(parse, sess, always, op).allowed
    requires MatchLive(parse, sess, always, op).segments == []
    ensures var v, e := MatchLive(parse, sess, always, op), ExplainLive(parse, sess, always, op);
            |e.segments| == 1 && e.segments[0].ruleID == v.ruleID && e.segments[0].source == v.source
            && e.segments[0].argv == op.argv.value
  {
    var a := AnalyzeOp(parse, op);
    if !a.shell {
      FirstMatchingIff(sess, op);
      FirstMatchingIff(always, op);
      assert op.argv.value != [];
      assert a.segments[1..] == [];
      SameFirst(sess, op);
      SameFirst(always, op);
    }
  }

  lemma {:induction false} SameFirst(rs: seq<Rule>, op: Op)
    requires op.opType == "cmd.run" && op.argv.Some?
    ensures FirstMatching(rs, op) == FirstCovering(rs, op.argv.value)
  {
    if rs != [] {
      SameFirst(rs[1..], op);
    }
  }

  // ---------------------------------------------------------------- more rules, later times, other sessions

  lemma MoreRulesAllowMore(parse: Parser, few: set<Rule>, many: set<Rule>, op: Op)
    requires few <= many && Permits(parse, few, op)
    ensures Permits(parse, many, op)
  {
    var a := AnalyzeOp(parse, op);
    if op.opType == "cmd.run" && a.shell && !HasExact(few, a.argv) {
      forall s | s in a.segments
        ensures HasCover(many, s.argv)
      {
        assert HasCover(few, s.argv);
      }
    }
  }

  lemma {:induction false} LiveMembers(rs: seq<Rule>, now: int)
    ensures forall r :: r in Live(rs, now) <==> r in rs && !Expired(r, now)
  {
    if rs != [] {
      LiveMembers(rs[1..], now);
      assert rs == [rs[0]] + rs[1..];
    }
  }

  /** No operation is permitted by no rule. */
  lemma PermitsBySome(parse: Parser, rules: set<Rule>, op: Op)
    requires Permits(parse, rules, op)
    ensures exists r :: r in rules
  {
    var a := AnalyzeOp(parse, op);
    if op.opType == "cmd.run" && a.shell && !HasExact(rules, a.argv) {
      assert a.segments[0] in a.segments;
      var r :| r in rules && CoversArgv(r, a.segments[0].argv);
    }
  }

  datatype EngineState = EngineState(always: seq<Rule>, sessions: map<string, seq<Rule>>)

  function Decide(parse: Parser, s: EngineState, session: string, op: Op, now: int): Verdict {
    MatchLive(parse, Live(RulesOf(s.sessions, session), now), Live(s.always, now), op)
  }

  function LiveRules(s: EngineState, session: string, now: int): set<Rule> {
    set r | r in RulesOf(s.sessions, session) + s.always && !Expired(r, now)
  }

  lemma DecideIff(parse: Parser, s: EngineState, session: string, op: Op, now: int)
    ensures Decide(parse, s, session, op, now).allowed <==> Permits(parse, LiveRules(s, session, now), op)
  {
    var sess, perm := Live(RulesOf(s.sessions, session), now), Live(s.always, now);
    AllowedIff(parse, sess, perm, op);
    LiveMembers(RulesOf(s.sessions, session), now);
    LiveMembers(s.always, now);
    assert RuleSet(sess, perm) == LiveRules(s, session, now);
  }

  /** Going back in time and adding rules both keep what was allowed. */
  lemma AllowedStays(parse: Parser, s: EngineState, s': EngineState, session: string, op: Op, now: int, earlier: int)
    requires earlier <= now
    requires forall r :: r in RulesOf(s.sessions, session) + s.always ==> r in RulesOf(s'.sessions, session) + s'.always
    requires Decide(parse, s, session, op, now).allowed
    ensures Decide(parse, s', session, op, earlier).allowed
  {
    DecideIff(parse, s, session, op, now);
    DecideIff(parse, s', session, op, earlier);
    MoreRulesAllowMore(parse, LiveRules(s, session, now), LiveRules(s', session, earlier), op);
  }

  datatype EngineStep =
    | AddAlways(rule: Rule)
    | AddSession(session: string, rule: Rule)
    | ReplaceAlways(rules: seq<Rule>)
    | RemoveSessionRule(session: string, id: string)

  function Apply(s: EngineState, step: EngineStep): EngineState {
    match step
    case AddAlways(r) => s.(always := s.always + [r])
    case AddSession(session, r) => s.(sessions := s.sessions[session := RulesOf(s.sessions, session) + [r]])
    case ReplaceAlways(rs) => s.(always := rs)
    case RemoveSessionRule(session, id) => s.(sessions := RemoveSession(s.sessions, session, id))
  }

  function Run(s: EngineState, steps: seq<EngineStep>): EngineState
    decreases |steps|
  {
    if steps == [] then s else Run(Apply(s, steps[0]), steps[1..])
  }

  predicate Adds(step: EngineStep) {
    step.AddAlways? || step.AddSession?
  }

  predicate OnlyTouches(step: EngineStep, session: string) {
    (step.AddSession? || step.RemoveSessionRule?) && step.session == session
  }

  /** Over any run that only adds rules nothing allowed becomes refused. */
  lemma {:induction false} AddingNeverRefuses(parse: Parser, s: EngineState, steps: seq<EngineStep>, session: string,
                                              op: Op, now: int)
    requires forall step :: step in steps ==> Adds(step)
    requires Decide(parse, s, session, op, now).allowed
    ensures Decide(parse, Run(s, steps), session, op, now).allowed
    decreases |steps|
  {
    if steps != [] {
      assert steps[0] in steps;
      AllowedStays(parse, s, Apply(s, steps[0]), session, op, now, now);
      AddingNeverRefuses(parse, Apply(s, steps[0]), steps[1..], session, op, now);
    }
  }

  /** Over any run that only changes another session's rules, the whole verdict stays as it was. */
  lemma {:induction false} OtherSessionsDoNotMatter(parse: Parser, s: EngineState, steps: seq<EngineStep>,
                                                    session: string, other: string, op: Op, now: int)
    requires session != other && forall step :: step in steps ==> OnlyTouches(step, other)
    ensures Decide(parse, Run(s, steps), session, op, now) == Decide(parse, s, session, op, now)
    decreases |steps|
  {
    if steps != [] {
      assert steps[0] in steps;
      OtherSessionsDoNotMatter(parse, Apply(s, steps[0]), steps[1..], session, other, op, now);
    }
  }

  // ---------------------------------------------------------------- what an allowed script runs

  /** A script permitted through its segments runs, whatever the exit statuses, only known commands, each
      covered by one of the rules. */
  lemma CoveredScriptRunsCovered(parse: Parser, rules: set<Rule>, op: Op, script: string, stmts: seq<Stmt>,
                                 events: seq<Event>, ok: bool)
    requires op.opType == "cmd.run" && op.argv.Some? && ShellScriptArg(op.argv.value) == Some(script)
    requires parse(script) == Ok(stmts) && Permits(parse, rules, op) && !HasExact(rules, op.argv.value)
    requires ListRuns(stmts, events, ok)
    ensures forall e :: e in events ==> e.Ran? && HasCover(rules, e.argv)
  {
    SegmentsAreLeaves(stmts);
    ListRunsLeaves(stmts, events, ok);
    var segments, leaves := SegmentsOfList(stmts), LeavesOfList(stmts);
    forall e | e in events
      ensures e.Ran? && HasCover(rules, e.argv)
    {
      var i :| 0 <= i < |leaves| && leaves[i] == e;
      assert segments[i] in AnalyzeOp(parse, op).segments;
    }
  }

  /** What the engine allows through segments at some instant runs only commands that live rules cover. */
  lemma AllowedScriptRunsCovered(parse: Parser, s: EngineState, session: string, op: Op, now: int, script: string,
                                 stmts: seq<Stmt>, events: seq<Event>, ok: bool)
    requires op.opType == "cmd.run" && op.argv.Some? && ShellScriptArg(op.argv.value) == Some(script)
    requires parse(script) == Ok(stmts)
    requires !HasExact(LiveRules(s, session, now), op.argv.value)
    requires Decide(parse, s, session, op, now).allowed
    requires ListRuns(stmts, events, ok)
    ensures forall e :: e in events ==> e.Ran? && HasCover(LiveRules(s, session, now), e.argv)
  {
    DecideIff(parse, s, session, op, now);
    CoveredScriptRunsCovered(parse, LiveRules(s, session, now), op, script, stmts, events, ok);
  }

  predicate KnownAndCovered(rules: set<Rule>, events: seq<Event>) {
    forall e :: e in events ==> e.Ran? && HasCover(rules, e.argv)
  }

  lemma CoveredSegmentsIff(rules: set<Rule>, segments: seq<Segment>, leaves: seq<Event>)
    requires DescribeAll(segments, leaves)
    ensures (forall g :: g in segments ==> g.unsupported == "" && HasCover(rules, g.argv)) <==> KnownAndCovered(rules, leaves)
  {
    forall i | 0 <= i < |leaves|
      ensures segments[i].unsupported == "" && HasCover(rules, segments[i].argv) <==>
              leaves[i].Ran? && HasCover(rules, leaves[i].argv)
    {
      assert Describes(segments[i], leaves[i]);
    }
    if forall g :: g in segments ==> g.unsupported == "" && HasCover(rules, g.argv) {
      forall e | e in leaves
        ensures e.Ran? && HasCover(rules, e.argv)
      {
        var i :| 0 <= i < |leaves| && leaves[i] == e;
        assert segments[i] in segments;
      }
    }
    if KnownAndCovered(rules, leaves) {
      forall g | g in segments
        ensures g.unsupported == "" && HasCover(rules, g.argv)
      {
        var i :| 0 <= i < |segments| && segments[i] == g;
        assert leaves[i] in leaves;
      }
    }
  }

  /** A script is allowed exactly when a live rule spells out its whole argv, or it has leaves and each is a
      known command covered by a live rule, dead or not. */
  lemma ScriptAllowedIff(parse: Parser, s: EngineState, session: string, op: Op, now: int, script: string,
                         stmts: seq<Stmt>)
    requires op.opType == "cmd.run" && op.argv.Some? && ShellScriptArg(op.argv.value) == Some(script)
    requires parse(script) == Ok(stmts)
    ensures Decide(parse, s, session, op, now).allowed <==>
            || HasExact(LiveRules(s, session, now), op.argv.value)
            || (LeavesOfList(stmts) != [] && KnownAndCovered(LiveRules(s, session, now), LeavesOfList(stmts)))
  {
    DecideIff(parse, s, session, op, now);
    SegmentsAreLeaves(stmts);
    CoveredSegmentsIff(LiveRules(s, session, now), SegmentsOfList(stmts), LeavesOfList(stmts));
  }

  /** So when no leaf is dead, one is refused exactly for want of a rule for a command that it can start. */
  lemma ScriptRefusedIff(parse: Parser, s: EngineState, session: string, op: Op, now: int, script: string,
                         stmts: seq<Stmt>)
    requires op.opType == "cmd.run" && op.argv.Some? && ShellScriptArg(op.argv.value) == Some(script)
    requires parse(script) == Ok(stmts) && LeavesOfList(stmts) != [] && LiveOfList(stmts) == LeavesOfList(stmts)
    ensures !Decide(parse, s, session, op, now).allowed <==>
            && !HasExact(LiveRules(s, session, now), op.argv.value)
            && exists e :: CanRun(stmts, e) && !(e.Ran? && HasCover(LiveRules(s, session, now), e.argv))
  {
    ScriptAllowedIff(parse, s, session, op, now, script, stmts);
    forall e
      ensures CanRun(stmts, e) <==> e in LeavesOfList(stmts)
    {
      LiveLeavesAreWhatRuns(stmts, e);
    }
  }
}
