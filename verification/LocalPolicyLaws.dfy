/** What the permanent-rule filter really excludes, and what a granted rule really grants. */
module LocalPolicyLaws {
  import opened Text
  import opened Glob
  import opened CleanPath
  import opened RuleEngine
  import opened RuleEngineLaws
  import opened LocalPolicy

  // ---------------------------------------------------------------- what is dangerous

  predicate AlwaysFlagged(bin: string) {
    bin == "iptables" || bin == "nft" || bin == "ufw" || bin == "rm" || bin == "/bin/rm"
  }

  predicate RemovesPackage(argv: seq<string>) {
    argv != [] && (argv[0] == "apt" || argv[0] == "apt-get") && exists i :: 1 <= i < |argv| && Removes(argv[i])
  }

  predicate StopsSshUnit(argv: seq<string>) {
    argv != [] && argv[0] == "systemctl" && exists i :: 1 <= i < |argv| - 1 && StopsSsh(argv[i], argv[i + 1])
  }

  lemma {:induction false} AptFlagsIff(args: seq<string>)
    ensures IsDangerous(AptFlags(args)) <==> exists i :: 0 <= i < |args| && Removes(args[i])
  {
    if args != [] && !Removes(args[0]) {
      AptFlagsIff(args[1..]);
      var first := if args[0] == "install" then ["APT_INSTALL"] else [];
      assert AptFlags(args) == first + AptFlags(args[1..]);
      DangerousConcat(first, AptFlags(args[1..]));
      assert args == [args[0]] + args[1..];
      if i :| 0 <= i < |args| && Removes(args[i]) {
        assert args[1..][i - 1] == args[i];
      }
      if i :| 0 <= i < |args[1..]| && Removes(args[1..][i]) {
        assert args[i + 1] == args[1..][i];
      }
    } else if args != [] {
      assert AptFlags(args)[0] in AptFlags(args);
    }
  }

  lemma {:induction false} SystemctlFlagsIff(args: seq<string>)
    ensures IsDangerous(SystemctlFlags(args)) <==> exists i :: 0 <= i < |args| - 1 && StopsSsh(args[i], args[i + 1])
  {
    if |args| >= 2 {
      if StopsSsh(args[0], args[1]) {
        assert SystemctlFlags(args)[0] in SystemctlFlags(args);
      } else {
        SystemctlFlagsIff(args[1..]);
        if i :| 0 <= i < |args| - 1 && StopsSsh(args[i], args[i + 1]) {
          assert StopsSsh(args[1..][i - 1], args[1..][i]);
        }
        if i :| 0 <= i < |args[1..]| - 1 && StopsSsh(args[1..][i], args[1..][i + 1]) {
          assert StopsSsh(args[i + 1], args[i + 2]);
        }
      }
    }
  }

  lemma DangerousConcat(a: seq<string>, b: seq<string>)
    ensures IsDangerous(a + b) <==> IsDangerous(a) || IsDangerous(b)
  {
    assert forall f :: f in a + b <==> f in a || f in b;
  }

  /** A command is dangerous exactly when its executable always is, when apt removes or purges anything at
      any place, or when systemctl stops or disables a unit whose name contains ssh; a write exactly when
      its path is spelled under /etc/. */
  lemma DangerousIff(op: Op)
    ensures IsDangerous(FlagsOf(op)) <==>
            if op.opType == "cmd.run" then
              op.argv.Some? && op.argv.value != []
              && (AlwaysFlagged(op.argv.value[0]) || RemovesPackage(op.argv.value) || StopsSshUnit(op.argv.value))
            else WritesConfig(op.opType) && op.path.Some? && HasPrefix(op.path.value, "/etc/")
  {
    if op.opType == "cmd.run" && op.argv.Some? && op.argv.value != [] {
      CommandDangerousIff(op.argv.value);
    } else {
      var flags := FlagsOf(op);
      assert flags != [] ==> flags[0] in flags;
    }
  }

  lemma CommandDangerousIff(argv: seq<string>)
    requires argv != []
    ensures IsDangerous(CommandFlags(argv)) <==> AlwaysFlagged(argv[0]) || RemovesPackage(argv) || StopsSshUnit(argv)
  {
    var bin, args := argv[0], argv[1..];
    var named := if bin == "iptables" || bin == "nft" || bin == "ufw" then ["FIREWALL"]
                 else if bin == "rm" || bin == "/bin/rm" then ["DESTRUCTIVE_FS"] else [];
    var apt := if bin == "apt" || bin == "apt-get" then AptFlags(args) else [];
    var ctl := if bin == "systemctl" then SystemctlFlags(args) else [];
    DangerousConcat(named + apt, ctl);
    DangerousConcat(named, apt);
    assert IsDangerous(named) <==> AlwaysFlagged(bin) by {
      assert named != [] ==> named[0] in named;
    }
    AptFlagsIff(args);
    SystemctlFlagsIff(args);
    ArgsShift(argv);
  }

  lemma ArgsShift(argv: seq<string>)
    requires argv != []
    ensures (exists i :: 0 <= i < |argv[1..]| && Removes(argv[1..][i])) <==> exists i :: 1 <= i < |argv| && Removes(argv[i])
    ensures (exists i :: 0 <= i < |argv[1..]| - 1 && StopsSsh(argv[1..][i], argv[1..][i + 1]))
            <==> exists i :: 1 <= i < |argv| - 1 && StopsSsh(argv[i], argv[i + 1])
  {
    var args := argv[1..];
    if i :| 1 <= i < |argv| && Removes(argv[i]) {
      assert Removes(args[i - 1]);
    }
    if i :| 0 <= i < |args| && Removes(args[i]) {
      assert Removes(argv[i + 1]);
    }
    if i :| 1 <= i < |argv| - 1 && StopsSsh(argv[i], argv[i + 1]) {
      assert StopsSsh(args[i - 1], args[i]);
    }
    if i :| 0 <= i < |args| - 1 && StopsSsh(args[i], args[i + 1]) {
      assert StopsSsh(argv[i + 1], argv[i + 2]);
    }
  }

  // ---------------------------------------------------------------- path rules

  predicate UnderEtc(path: string) {
    path == "/etc" || HasPrefix(path, "/etc/")
  }

  lemma {:induction false} LiteralPrefixIsHead(glob: string)
    ensures HasPrefix(glob, LiteralPrefix(glob)) && '*' !in LiteralPrefix(glob)
  {
    if glob != "" && glob[0] != '*' && glob[0] != '?' && glob[0] != '[' {
      LiteralPrefixIsHead(glob[1..]);
      assert glob == [glob[0]] + glob[1..];
    }
  }

  /** Text with this head is under /etc only if the head says so. */
  lemma HeadUnderEtc(path: string, head: string)
    requires HasPrefix(path, head) && UnderEtc(path)
    ensures HasPrefix("/etc/", head) || HasPrefix(head, "/etc/")
  {
    var etc := "/etc/";
    if path == "/etc" {
      assert etc[..4] == path;
      assert head == etc[..|head|];
    } else if |head| <= |etc| {
      assert head == path[..|head|] == etc[..|head|];
    } else {
      assert etc == path[..|etc|] == head[..|etc|];
    }
  }

  /** A path rule that passes the filter matches no location at or under /etc, however the path is spelled. */
  lemma PathFilterSound(r: PathRule, path: string)
    requires !PathRuleMayMatchEtc(r) && PathMatches(path, r)
    ensures !UnderEtc(Clean(path))
  {
    if r.exact == "" && UnderEtc(Clean(path)) {
      if r.prefix != "" {
        HeadUnderEtc(Clean(path), r.prefix);
      } else {
        var literal := LiteralPrefix(r.glob);
        LiteralPrefixIsHead(r.glob);
        GlobKeepsHead(r.glob, literal, Clean(path));
        HeadUnderEtc(Clean(path), literal);
      }
    }
  }

  ghost predicate PassingRuleMatches(op: Op) {
    exists r :: !MayBeDangerous(r) && RuleMatches(r, op)
  }

  /** A rule that passes the filter matches a flagged write exactly when the path starts with /etc/ as
      written and leads elsewhere: the flag looks at the spelling, filter and rules at the location. */
  lemma FlaggedAndMatchedIff(op: Op)
    requires op.opType != "cmd.run"
    ensures IsDangerous(FlagsOf(op)) && PassingRuleMatches(op) <==>
            WritesConfig(op.opType) && op.path.Some? && HasPrefix(op.path.value, "/etc/") && !UnderEtc(Clean(op.path.value))
  {
    DangerousIff(op);
    if IsDangerous(FlagsOf(op)) && PassingRuleMatches(op) {
      var r :| !MayBeDangerous(r) && RuleMatches(r, op);
      PathFilterSound(r.path.value, op.path.value);
    }
    if WritesConfig(op.opType) && op.path.Some? && HasPrefix(op.path.value, "/etc/") && !UnderEtc(Clean(op.path.value)) {
      var r := Rule("id", op.opType, None, None, Some(PathRule(Clean(op.path.value), "", "")));
      assert !MayBeDangerous(r) && RuleMatches(r, op);
    }
  }

  lemma CleanDotDot(dir: string, name: string)
    requires dir != "" && dir != "." && dir != ".." && name != "" && name != "." && name != ".."
    requires '/' !in dir && '/' !in name
    ensures Clean("/" + dir + "/../" + name) == "/" + name
  {
    var dots := "..";
    var path := "" + ['/'] + (dir + ['/'] + (dots + ['/'] + name));
    assert path == "/" + dir + "/../" + name;
    SplitAtSep("", dir + ['/'] + (dots + ['/'] + name), '/');
    SplitAtSep(dir, dots + ['/'] + name, '/');
    SplitAtSep(dots, name, '/');
    SplitWhole(name, '/');
    var parts := [""] + ([dir] + ([dots] + [name]));
    assert Split(path, '/') == parts;
    assert parts[1..] == [dir] + ([dots] + [name]) && parts[1..][1..] == [dots] + [name];
    assert parts[1..][1..][1..] == [name] && [name][1..] == [];
    assert [] + [dir] == [dir] && [dir][..0] == [];
    assert CleanParts(parts, true, []) == CleanParts([dir] + ([dots] + [name]), true, []);
    assert CleanParts([dots] + [name], true, [dir]) == CleanParts([name], true, []);
    assert CleanParts([name], true, []) == [] + [name];
  }

  /** An instance: /etc/../srv. */
  lemma FlaggedButElsewhere() returns (op: Op)
    ensures op.opType == "fs.upload" && IsDangerous(FlagsOf(op)) && PassingRuleMatches(op)
  {
    var dir, name := "etc", "srv";
    CleanDotDot(dir, name);
    var path := "/" + dir + "/../" + name;
    op := Op("fs.upload", None, Some(path));
    assert path[..5] == "/etc/";
    assert ("/" + name)[1] == 's' && "/etc/"[1] == 'e' && "/etc"[1] == 'e';
    FlaggedAndMatchedIff(op);
  }

  // ---------------------------------------------------------------- command rules

  ghost predicate MatchesDanger(prefix: seq<string>) {
    exists argv: seq<string> :: argv != [] && ArgvHasPrefix(argv, prefix) && IsDangerous(CommandFlags(argv))
  }

  predicate Undecided(executable: string) {
    executable == "apt" || executable == "apt-get" || executable == "systemctl"
  }

  /** Appending words to a rule's own words gives a command the rule matches. */
  lemma ExtensionMatches(prefix: seq<string>, more: seq<string>)
    requires prefix != []
    ensures ArgvHasPrefix(prefix + more, prefix)
  {
    forall i | 0 <= i < |prefix|
      ensures WordMatches(prefix[i], (prefix + more)[i])
    {
      GlobReflexive(prefix[i]);
    }
  }

  lemma UndecidedMatchesDanger(prefix: seq<string>)
    requires prefix != [] && Undecided(prefix[0])
    ensures MatchesDanger(prefix)
  {
    var ssh := "ssh";
    assert OccursAt(ssh, 0, ssh);
    var more := if prefix[0] == "systemctl" then ["stop", ssh] else ["remove"];
    var argv := prefix + more;
    ExtensionMatches(prefix, more);
    assert argv[|prefix|] == more[0] && argv[|argv| - 1] == more[|more| - 1];
    CommandDangerousIff(argv);
    if prefix[0] == "systemctl" {
      assert StopsSsh(argv[|prefix|], argv[|prefix| + 1]);
    } else {
      assert Removes(argv[|prefix|]);
    }
  }

  lemma BaseOfPlain(name: string)
    requires '/' !in name
    ensures AfterLastSlash(name) == 0 && ExecutableBase(name) == name
  {
    if name != "" {
      assert name[|name| - 1] in name;
      assert forall c :: c in name[..|name| - 1] ==> c in name;
      BaseOfPlain(name[..|name| - 1]);
    }
  }

  lemma BaseAfterSlash(dir: string, name: string)
    requires '/' !in name
    ensures ExecutableBase(dir + "/" + name) == name
  {
    var s := dir + "/" + name;
    if name == "" {
      assert AfterLastSlash(s) == |s|;
    } else {
      assert s[|s| - 1] == name[|name| - 1] && name[|name| - 1] in name;
      assert s[..|s| - 1] == dir + "/" + name[..|name| - 1];
      assert forall c :: c in name[..|name| - 1] ==> c in name;
      BaseAfterSlash(dir, name[..|name| - 1]);
      assert AfterLastSlash(dir + "/" + name[..|name| - 1]) == |dir| + 1 by {
        assert |ExecutableBase(dir + "/" + name[..|name| - 1])| == |name| - 1;
      }
    }
  }

  lemma FlaggedByName(bin: string, args: seq<string>)
    requires AlwaysFlagged(bin)
    ensures IsDangerous(CommandFlags([ExecutableBase(bin)] + args))
  {
    var base := if bin == "/bin/rm" then "rm" else bin;
    if bin == "/bin/rm" {
      var dir, rm := "/bin", "rm";
      assert bin == dir + "/" + rm;
      BaseAfterSlash(dir, rm);
    } else {
      BaseOfPlain(bin);
    }
    var flags := CommandFlags([base] + args);
    assert flags[0] in flags;
  }

  /** A command rule that passes the filter matches a dangerous command exactly when it is for apt, apt-get
      or systemctl by that very name: the filter looks at the leading words of the rule, the risk flags at
      every word of the command. */
  lemma CommandFilterExact(prefix: seq<string>)
    requires !CommandRuleMayBeDangerous(prefix)
    ensures MatchesDanger(prefix) <==> Undecided(prefix[0])
  {
    if Undecided(prefix[0]) {
      UndecidedMatchesDanger(prefix);
    } else if MatchesDanger(prefix) {
      var argv: seq<string> :| argv != [] && ArgvHasPrefix(argv, prefix) && IsDangerous(CommandFlags(argv));
      assert WordMatches(prefix[0], argv[0]);
      assert AlwaysFlagged(argv[0]);
      FlaggedByName(argv[0], prefix[1..]);
    }
  }

  // ---------------------------------------------------------------- a grant matches again

  /** What a caller can tell before granting: a plain command always comes back, a shell command if it has
      no star or covers its own segments, a path if it is clean. */
  predicate GrantHolds(parse: Parser, op: Op) {
    var a := AnalyzeOp(parse, op);
    if op.opType != "cmd.run" then op.path.Some? && Clean(op.path.value) == op.path.value
    else
      || !a.shell
      || (forall w :: w in a.argv ==> '*' !in w)
      || (a.unsupported == "" && a.segments != []
          && forall s :: s in a.segments ==> s.unsupported == "" && ArgvHasPrefix(s.argv, a.argv))
  }

  lemma GrantAlone(parse: Parser, id: string, op: Op)
    requires RuleFromOpExact(id, op).Some?
    ensures Permits(parse, {RuleFromOpExact(id, op).value}, op) <==> GrantHolds(parse, op)
  {
    var r := RuleFromOpExact(id, op).value;
    var a := AnalyzeOp(parse, op);
    assert r in {r};
    if op.opType == "cmd.run" {
      assert a.argv == op.argv.value;
      assert forall argv :: HasCover({r}, argv) <==> CoversArgv(r, argv);
      if a.shell {
        assert HasExact({r}, a.argv) <==> IsExactArgv(r, a.argv);
        assert IsExactArgv(r, a.argv) <==> forall w :: w in a.argv ==> '*' !in w;
      } else {
        assert a.argv + [] == a.argv;
        ExtensionMatches(a.argv, []);
        assert RuleMatches(r, op);
      }
    } else {
      assert HasMatch({r}, op) <==> RuleMatches(r, op);
    }
  }

  /** The rule of a grant by itself lets the same operation through exactly under that condition. */
  lemma GrantExact(parse: Parser, session: string, id: string, op: Op, now: int)
    requires RuleFromOpExact(id, op).Some?
    ensures var s := Apply(EngineState([], map[]), AddSession(session, RuleFromOpExact(id, op).value));
            Decide(parse, s, session, op, now).allowed <==> GrantHolds(parse, op)
  {
    var r := RuleFromOpExact(id, op).value;
    var s := Apply(EngineState([], map[]), AddSession(session, r));
    assert LiveRules(s, session, now) == {r};
    DecideIff(parse, s, session, op, now);
    GrantAlone(parse, id, op);
  }

  lemma {:induction false} RemoveFirstKeeps(rs: seq<Rule>, id: string, r: Rule)
    requires r in rs && r.id != id
    ensures r in RemoveFirst(rs, id)
  {
    assert rs == [rs[0]] + rs[1..];
    if rs[0].id != id && r != rs[0] {
      RemoveFirstKeeps(rs[1..], id, r);
    }
  }

  lemma {:induction false} SessionRuleStays(s: EngineState, steps: seq<EngineStep>, session: string, r: Rule)
    requires r in RulesOf(s.sessions, session) && RemoveSessionRule(session, r.id) !in steps
    ensures r in RulesOf(Run(s, steps).sessions, session)
    decreases |steps|
  {
    if steps != [] {
      assert steps == [steps[0]] + steps[1..];
      match steps[0] {
        case RemoveSessionRule(other, id) =>
          if other == session {
            RemoveFirstKeeps(RulesOf(s.sessions, session), id, r);
          }
        case _ =>
      }
      SessionRuleStays(Apply(s, steps[0]), steps[1..], session, r);
    }
  }

  /** After ALLOW_SESSION without overrides, the same operation in that session matches at every later
      moment until that rule is removed, whatever else happens to the rules. */
  lemma GrantedStays(parse: Parser, s: EngineState, session: string, op: Op, newID: nat -> string,
                     steps: seq<EngineStep>, now: int)
    requires RuleFromOpExact(newID(0), op).Some? && GrantHolds(parse, op)
    requires RemoveSessionRule(session, newID(0)) !in steps
    ensures var plan := PlanOf(op, [], "ALLOW_SESSION", [], false, newID);
            && plan.Ok? && |plan.value.rules| == 1
            && Decide(parse, Run(Apply(s, AddSession(session, plan.value.rules[0])), steps), session, op, now).allowed
  {
    var r := RuleFromOpExact(newID(0), op).value;
    var action := "ALLOW_SESSION";
    assert TrimLeft(action) == action && TrimRight(action) == action;
    var granted := Apply(s, AddSession(session, r));
    var later := Run(granted, steps);
    SessionRuleStays(granted, steps, session, r);
    GrantAlone(parse, newID(0), op);
    assert r in LiveRules(later, session, now);
    MoreRulesAllowMore(parse, {r}, LiveRules(later, session, now), op);
    DecideIff(parse, later, session, op, now);
  }
}
