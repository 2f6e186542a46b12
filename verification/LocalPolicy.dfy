/** The interactive policy: risk flags, the filter on rules that may become permanent, and the plan a
    person's decision turns into. */
module LocalPolicy {
  import opened Text
  import opened Glob
  import opened RuleEngine

  // ---------------------------------------------------------------- risk flags

  predicate Contains(s: string, part: string) {
    exists k | 0 <= k <= |s| :: OccursAt(s, k, part)
  }

  predicate Removes(arg: string) {
    arg == "remove" || arg == "purge"
  }

  function AptFlags(args: seq<string>): seq<string> {
    if args == [] then []
    else if Removes(args[0]) then ["APT_REMOVE"]
    else (if args[0] == "install" then ["APT_INSTALL"] else []) + AptFlags(args[1..])
  }

  predicate StopsSsh(verb: string, unit: string) {
    (verb == "stop" || verb == "disable") && Contains(unit, "ssh")
  }

  function SystemctlFlags(args: seq<string>): seq<string> {
    if |args| < 2 then []
    else if StopsSsh(args[0], args[1]) then ["SERVICE_SSH_RISK"]
    else SystemctlFlags(args[1..])
  }

  function CommandFlags(argv: seq<string>): seq<string>
    requires argv != []
  {
    var bin := argv[0];
    (if bin == "iptables" || bin == "nft" || bin == "ufw" then ["FIREWALL"]
     else if bin == "rm" || bin == "/bin/rm" then ["DESTRUCTIVE_FS"] else [])
    + (if bin == "apt" || bin == "apt-get" then AptFlags(argv[1..]) else [])
    + (if bin == "systemctl" then SystemctlFlags(argv[1..]) else [])
  }

  predicate WritesConfig(opType: string) {
    opType == "fs.patch_unified" || opType == "fs.upload" || opType == "conf.set" || opType == "conf.set_kv"
  }

  function FlagsOf(op: Op): seq<string> {
    if op.opType == "cmd.run" then
      if op.argv.None? || op.argv.value == [] then [] else CommandFlags(op.argv.value)
    else if WritesConfig(op.opType) && op.path.Some? && HasPrefix(op.path.value, "/etc/") then ["WRITE_ETC"]
    else []
  }

  method RiskFlags(op: Op) returns (flags: seq<string>)
    ensures flags == FlagsOf(op)
  {
    flags := [];
    if op.opType == "cmd.run" {
      if op.argv.Some? && |op.argv.value| > 0 {
        var argv := op.argv.value;
        var bin := argv[0];
        if bin == "iptables" || bin == "nft" || bin == "ufw" {
          flags := flags + ["FIREWALL"];
        } else if bin == "rm" || bin == "/bin/rm" {
          flags := flags + ["DESTRUCTIVE_FS"];
        }
        if bin == "apt" || bin == "apt-get" {
          var args := argv[1..];
          var i := 0;
          while i < |args|
            invariant 0 <= i <= |args|
            invariant AptFlags(args) == flags + AptFlags(args[i..])
          {
            assert args[i..][1..] == args[i + 1..];
            if Removes(args[i]) {
              flags := flags + ["APT_REMOVE"];
              break;
            }
            if args[i] == "install" {
              ConcatAssoc(flags, ["APT_INSTALL"], AptFlags(args[i + 1..]));
              flags := flags + ["APT_INSTALL"];
            }
            i := i + 1;
          }
          assert flags + [] == flags;
          assert flags == AptFlags(args);
        }
        if bin == "systemctl" {
          assert argv[1..][0..] == argv[1..];
          for i := 1 to |argv|
            invariant flags == [] && SystemctlFlags(argv[1..]) == SystemctlFlags(argv[i..])
          {
            assert i + 1 < |argv| ==> argv[i..][1] == argv[i + 1];
            assert argv[i..][1..] == argv[i + 1..];
            if (argv[i] == "stop" || argv[i] == "disable") && i + 1 < |argv| {
              if Contains(argv[i + 1], "ssh") {
                flags := flags + ["SERVICE_SSH_RISK"];
                break;
              }
            }
          }
        }
      }
    } else if WritesConfig(op.opType) {
      if op.path.Some? && HasPrefix(op.path.value, "/etc/") {
        flags := flags + ["WRITE_ETC"];
      }
    }
  }

  predicate IsDangerous(flags: seq<string>) {
    exists f :: f in flags && f in {"WRITE_ETC", "APT_REMOVE", "FIREWALL", "DESTRUCTIVE_FS", "SERVICE_SSH_RISK"}
  }

  // ---------------------------------------------------------------- the filter on permanent rules

  function ExecutableBase(executable: string): string {
    executable[AfterLastSlash(executable)..]
  }

  predicate IsWrapper(executable: string) {
    executable in {"sudo", "doas", "su", "sh", "bash", "dash", "zsh", "ksh", "fish", "env", "command", "nohup",
                   "nice", "timeout", "chroot", "xargs"}
  }

  predicate CommandRuleMayBeDangerous(argv: seq<string>) {
    if argv == [] || '*' in argv[0] then true
    else
      var executable := ExecutableBase(argv[0]);
      if IsWrapper(executable) then true
      else if IsDangerous(CommandFlags([executable] + argv[1..])) then true
      else if executable == "apt" || executable == "apt-get" then |argv| < 2 || '*' in argv[1]
      else if executable == "systemctl" then
        if |argv| < 2 || '*' in argv[1] then true
        else (argv[1] == "stop" || argv[1] == "disable") && (|argv| < 3 || '*' in argv[2] || Contains(argv[2], "ssh"))
      else false
  }

  /** The text before the first wildcard character. */
  function LiteralPrefix(glob: string): string {
    if glob == "" || glob[0] == '*' || glob[0] == '?' || glob[0] == '[' then ""
    else [glob[0]] + LiteralPrefix(glob[1..])
  }

  predicate PathRuleMayMatchEtc(r: PathRule) {
    if r.exact != "" then r.exact == "/etc" || HasPrefix(r.exact, "/etc/")
    else if r.prefix != "" then
      HasPrefix("/etc/", r.prefix) || r.prefix == "/etc" || HasPrefix(r.prefix, "/etc/")
    else if r.glob != "" then
      var literal := LiteralPrefix(r.glob);
      literal == "" || HasPrefix("/etc/", literal) || literal == "/etc" || HasPrefix(literal, "/etc/")
    else false
  }

  predicate MayBeDangerous(r: Rule) {
    if r.opType == "cmd.run" && r.cmd.Some? then CommandRuleMayBeDangerous(r.cmd.value.argvPrefix)
    else if WritesConfig(r.opType) || r.opType == "fs.append_block" || r.opType == "fs.replace_literal" then
      r.path.Some? && PathRuleMayMatchEtc(r.path.value)
    else false
  }

  // ---------------------------------------------------------------- decisions

  function RuleFromOpExact(id: string, op: Op): Option<Rule> {
    if op.opType == "cmd.run" then
      if op.argv.None? || op.argv.value == [] then None
      else Some(Rule(id, "cmd.run", None, Some(CmdRule(op.argv.value, false)), None))
    else if op.opType in {"fs.read", "fs.download", "fs.patch_unified", "fs.upload", "conf.set"} then
      if op.path.None? || op.path.value == "" then None
      else Some(Rule(id, op.opType, None, None, Some(PathRule(op.path.value, "", ""))))
    else None
  }

  datatype LocalPlan = LocalPlan(action: string, status: string, rules: seq<Rule>)

  function WithIds(overrides: seq<Rule>, newID: nat -> string): (rs: seq<Rule>)
    ensures |rs| == |overrides|
  {
    seq(|overrides|, i requires 0 <= i < |overrides| =>
      if overrides[i].id == "" then overrides[i].(id := newID(i)) else overrides[i])
  }

  function PlannedRules(op: Op, overrides: seq<Rule>, newID: nat -> string): seq<Rule> {
    if overrides != [] then WithIds(overrides, newID)
    else
      match RuleFromOpExact(newID(0), op)
      case Some(r) => [r]
      case None => []
  }

  function PlanOf(op: Op, flags: seq<string>, rawAction: string, overrides: seq<Rule>, allowDangerous: bool,
                  newID: nat -> string): Result<LocalPlan, string>
  {
    var action := TrimSpace(rawAction);
    if action == "DENY" then Ok(LocalPlan(action, "DENIED", []))
    else if action == "ALLOW_ONCE" then Ok(LocalPlan(action, "APPROVED", []))
    else if action != "ALLOW_SESSION" && action != "ALLOW_ALWAYS" then Err("BAD_REQUEST")
    else
      var rs := PlannedRules(op, overrides, newID);
      if action == "ALLOW_ALWAYS" && !allowDangerous && (IsDangerous(flags) || exists r :: r in rs && MayBeDangerous(r))
      then Err("ALLOW_ALWAYS_NOT_PERMITTED")
      else Ok(LocalPlan(action, "APPROVED", rs))
  }

  /** `newID` stands for the rule ids drawn at random. */
  method PlanLocalDecision(op: Op, flags: seq<string>, rawAction: string, overrides: seq<Rule>, allowDangerous: bool,
                           newID: nat -> string) returns (plan: Result<LocalPlan, string>)
    ensures plan == PlanOf(op, flags, rawAction, overrides, allowDangerous, newID)
  {
    var action := TrimSpace(rawAction);
    if action == "DENY" {
      return Ok(LocalPlan(action, "DENIED", []));
    }
    if action == "ALLOW_ONCE" {
      return Ok(LocalPlan(action, "APPROVED", []));
    }
    if action != "ALLOW_SESSION" && action != "ALLOW_ALWAYS" {
      return Err("BAD_REQUEST");
    }
    if action == "ALLOW_ALWAYS" && !allowDangerous && IsDangerous(flags) {
      return Err("ALLOW_ALWAYS_NOT_PERMITTED");
    }
    var rs: seq<Rule> := [];
    if |overrides| > 0 {
      for i := 0 to |overrides|
        invariant rs == WithIds(overrides, newID)[..i]
      {
        var rule := overrides[i];
        if rule.id == "" {
          rule := rule.(id := newID(i));
        }
        rs := rs + [rule];
      }
    } else {
      var rule := RuleFromOpExact(newID(0), op);
      if rule.Some? {
        rs := rs + [rule.value];
      }
    }
    assert rs == PlannedRules(op, overrides, newID);
    if action == "ALLOW_ALWAYS" && !allowDangerous {
      for i := 0 to |rs|
        invariant forall j :: 0 <= j < i ==> !MayBeDangerous(rs[j])
      {
        if MayBeDangerous(rs[i]) {
          return Err("ALLOW_ALWAYS_NOT_PERMITTED");
        }
      }
    }
    return Ok(LocalPlan(action, "APPROVED", rs));
  }
}
