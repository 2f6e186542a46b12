/** The permanent-rule filter over whole runs of the server: with dangerous ALLOW_ALWAYS switched off, no
    interleaving, crash or restart lets a filtered rule become live. */
module LocalPolicyRuns {
  import opened Text
  import opened CleanPath
  import opened RuleEngine
  import opened Store
  import opened RequestLifecycle
  import opened RequestLifecycleLaws
  import LocalPolicy
  import LocalPolicyLaws

  predicate Passes(r: Rule) {
    !LocalPolicy.MayBeDangerous(r)
  }

  predicate PassesAll(p: Plan) {
    p.action.AllowAlways? ==> forall r :: r in p.rules ==> Passes(r)
  }

  /** Permanent rules come from the planner or from a manual addition, both with the flag off. */
  predicate UnderPolicy(step: Step) {
    match step
    case Decide(_, p) => PassesAll(p)
    case StoreRule(_, r, _) => Passes(r)
    case _ => true
  }

  /** What the planner returns is a plan the protocol may commit, and with the flag off one under the policy. */
  lemma PlannerIsUnderPolicy(op: Op, flags: seq<string>, raw: string, overrides: seq<Rule>, allowDangerous: bool,
                             newID: nat -> string, id: string, about: Submission, session: string, source: string)
    returns (p: Plan)
    requires LocalPolicy.PlanOf(op, flags, raw, overrides, allowDangerous, newID).Ok?
    ensures var plan := LocalPolicy.PlanOf(op, flags, raw, overrides, allowDangerous, newID).value;
            p.id == id && p.about == about && p.session == session && p.source == source
            && p.action == ActionOf(plan.action) && p.rules == plan.rules
            && (plan.status == if StatusAfter(p.action).Denied? then "DENIED" else "APPROVED")
    ensures ManualPlan(p) && (!allowDangerous ==> PassesAll(p))
    ensures !allowDangerous && p.action.AllowAlways? ==> !LocalPolicy.IsDangerous(flags)
  {
    var plan := LocalPolicy.PlanOf(op, flags, raw, overrides, allowDangerous, newID).value;
    var ruleID := if plan.rules == [] then "" else plan.rules[0].id;
    p := Plan(id, about, session, ActionOf(plan.action), source, ruleID, plan.rules, {});
  }

  // ---------------------------------------------------------------- the history under the policy

  predicate PolicyOk(s: State) {
    && (forall i :: 0 <= i < |s.commits| ==> PassesAll(s.commits[i]))
    && (forall a :: a in s.procs && HoldsLock(s.procs[a]) ==> PassesAll(s.procs[a].plan))
    && (forall r :: r in s.manual && r.scope == None ==> Passes(r.rule))
  }

  lemma PersistedPasses(r: Rule)
    requires Passes(r)
    ensures Passes(Persisted(r))
  {
  }

  lemma PolicyKeptByExecutor(s: State, a: nat, id: string, stage: Stage, applied: bool, result: Ending)
    requires PolicyOk(s) && StageEnabled(s, stage)
    ensures PolicyOk(ExecuteStep(s, a, id, stage, applied, result))
  {
  }

  lemma PolicyKeptByCommit(s: State, a: nat, outcome: Outcome)
    requires PolicyOk(s) && Enabled(s, Commit(a, outcome))
    ensures PolicyOk(Apply(s, Commit(a, outcome)))
  {
    assert HoldsLock(s.procs[a]);
  }

  lemma PolicyKeptByRecord(s: State, a: nat)
    requires PolicyOk(s) && Enabled(s, Record(a))
    ensures PolicyOk(Apply(s, Record(a)))
  {
    assert HoldsLock(s.procs[a]);
  }

  predicate Enters(step: Step) {
    step.Create? || step.Remember? || step.AutoDecide? || step.Decide?
  }

  lemma PolicyKeptByEntry(s: State, step: Step)
    requires PolicyOk(s) && Enabled(s, step) && UnderPolicy(step) && Enters(step)
    ensures PolicyOk(Apply(s, step))
  {
  }

  lemma PolicyKeptByStoreRule(s: State, a: nat, rule: Rule, outcome: Outcome)
    requires PolicyOk(s) && Enabled(s, StoreRule(a, rule, outcome)) && Passes(rule)
    ensures PolicyOk(Apply(s, StoreRule(a, rule, outcome)))
  {
    PersistedPasses(rule);
  }

  lemma PolicyKeptByRestart(s: State, step: Step)
    requires PolicyOk(s) && Enabled(s, step) && IsRestart(step)
    ensures PolicyOk(Apply(s, step))
  {
  }

  lemma PolicyKeptBySessionRule(s: State, step: Step)
    requires PolicyOk(s) && Enabled(s, step) && (step.AddSessionRule? || step.RemoveSessionRule?)
    ensures PolicyOk(Apply(s, step))
  {
  }

  lemma PolicyKeptByChangeRule(s: State, a: nat, change: RuleChange, outcome: Outcome)
    requires PolicyOk(s) && Enabled(s, ChangeRule(a, change, outcome))
    ensures PolicyOk(Apply(s, ChangeRule(a, change, outcome)))
  {
  }

  lemma PolicyKeptByInstallRule(s: State, a: nat)
    requires PolicyOk(s) && Enabled(s, InstallRule(a))
    ensures PolicyOk(Apply(s, InstallRule(a)))
  {
  }

  lemma PolicyKeptByReload(s: State, step: Step)
    requires PolicyOk(s) && Enabled(s, step) && (step.LoadRules? || step.ReplaceRules?)
    ensures PolicyOk(Apply(s, step))
  {
  }

  lemma PolicyKeptByKill(s: State, step: Step)
    requires PolicyOk(s) && Enabled(s, step) && IsKill(step)
    ensures PolicyOk(Apply(s, step))
  {
  }

  lemma PolicyKeptByDispatch(s: State, step: Step)
    requires PolicyOk(s) && Enabled(s, step) && (step.Install? || step.Dispatch?)
    ensures PolicyOk(Apply(s, step))
  {
  }

  lemma {:induction false} PolicyKept(s: State, steps: seq<Step>)
    requires PolicyOk(s) && CanRunSteps(s, steps) && forall step :: step in steps ==> UnderPolicy(step)
    ensures PolicyOk(RunSteps(s, steps))
    decreases |steps|
  {
    if steps != [] {
      var step := steps[0];
      assert steps == [step] + steps[1..];
      assert UnderPolicy(step);
      if step.Execute? {
        PolicyKeptByExecutor(s, step.a, s.procs[step.a].id, s.procs[step.a].stage, step.applied, step.result);
      } else if step.Commit? {
        PolicyKeptByCommit(s, step.a, step.outcome);
      } else if step.Record? {
        PolicyKeptByRecord(s, step.a);
      } else if step.StoreRule? {
        PolicyKeptByStoreRule(s, step.a, step.rule, step.outcome);
      } else if Enters(step) {
        PolicyKeptByEntry(s, step);
      } else if IsRestart(step) {
        PolicyKeptByRestart(s, step);
      } else if step.AddSessionRule? || step.RemoveSessionRule? {
        PolicyKeptBySessionRule(s, step);
      } else if step.ChangeRule? {
        PolicyKeptByChangeRule(s, step.a, step.change, step.outcome);
      } else if step.InstallRule? {
        PolicyKeptByInstallRule(s, step.a);
      } else if step.LoadRules? || step.ReplaceRules? {
        PolicyKeptByReload(s, step);
      } else if IsKill(step) {
        PolicyKeptByKill(s, step);
      } else {
        PolicyKeptByDispatch(s, step);
      }
      PolicyKept(Apply(s, step), steps[1..]);
    }
  }

  lemma AuthoredPasses(s: State, r: LiveRule)
    requires PolicyOk(s) && Authored(s.commits, s.manual, r) && r.scope == None
    ensures Passes(r.rule)
  {
    if r !in s.manual {
      var c :| c in s.commits && Grants(c, r);
      var i :| 0 <= i < |s.commits| && s.commits[i] == c;
      var q :| q in c.rules && (r.rule == q || r.rule == Persisted(q));
      PersistedPasses(q);
    }
  }

  /** From any state whose history is under the policy, every rule that is permanent in the engine or in
      the store passes the filter in every later state. */
  lemma PermanentRulesPass(s: State, steps: seq<Step>)
    requires Inv(s) && PolicyOk(s) && CanRunSteps(s, steps) && forall step :: step in steps ==> UnderPolicy(step)
    ensures var t := RunSteps(s, steps);
            && (forall r :: r in t.live && r.scope == None ==> Passes(r.rule))
            && (forall id :: id in t.db.rules ==> Passes(t.db.rules[id].rule))
  {
    var t := RunSteps(s, steps);
    RunKept(s, steps);
    PolicyKept(s, steps);
    forall r | r in t.live && r.scope == None
      ensures Passes(r.rule)
    {
      AuthoredPasses(t, r);
    }
    forall id | id in t.db.rules
      ensures Passes(t.db.rules[id].rule)
    {
      AuthoredPasses(t, LiveRule(None, t.db.rules[id].rule));
    }
  }

  predicate Filtered(opType: string) {
    LocalPolicy.WritesConfig(opType) || opType == "fs.append_block" || opType == "fs.replace_literal"
  }

  /** So no permanent rule ever lets a write at or under /etc through, and a dangerous command only one
      whose executable is apt, apt-get or systemctl. */
  lemma NoPermanentDanger(s: State, steps: seq<Step>, r: LiveRule, op: Op)
    requires Inv(s) && PolicyOk(s) && CanRunSteps(s, steps) && forall step :: step in steps ==> UnderPolicy(step)
    requires r in RunSteps(s, steps).live && r.scope == None && RuleMatches(r.rule, op)
    ensures Filtered(op.opType) ==> !LocalPolicyLaws.UnderEtc(Clean(op.path.value))
    ensures op.opType == "cmd.run" && LocalPolicy.IsDangerous(LocalPolicy.FlagsOf(op)) ==>
              LocalPolicyLaws.Undecided(op.argv.value[0])
  {
    PermanentRulesPass(s, steps);
    PassingRuleIsSafe(r.rule, op);
  }

  lemma PassingRuleIsSafe(r: Rule, op: Op)
    requires Passes(r) && RuleMatches(r, op)
    ensures Filtered(op.opType) ==> !LocalPolicyLaws.UnderEtc(Clean(op.path.value))
    ensures op.opType == "cmd.run" && LocalPolicy.IsDangerous(LocalPolicy.FlagsOf(op)) ==>
              LocalPolicyLaws.Undecided(op.argv.value[0])
  {
    if Filtered(op.opType) {
      LocalPolicyLaws.PathFilterSound(r.path.value, op.path.value);
    } else if op.opType == "cmd.run" && LocalPolicy.IsDangerous(LocalPolicy.FlagsOf(op)) {
      var prefix := r.cmd.value.argvPrefix;
      LocalPolicyLaws.CommandFilterExact(prefix);
      assert LocalPolicyLaws.MatchesDanger(prefix);
      assert WordMatches(prefix[0], op.argv.value[0]);
    }
  }

  lemma FreshIsUnderPolicy(hasStore: bool, maxConcurrency: nat)
    ensures Inv(Initial(hasStore, maxConcurrency)) && PolicyOk(Initial(hasStore, maxConcurrency))
  {
    InitialOk(hasStore, maxConcurrency);
  }

  /** From a fresh installation on, with no condition on the state. */
  lemma NeverPermanentDanger(hasStore: bool, maxConcurrency: nat, steps: seq<Step>, r: LiveRule, op: Op)
    requires CanRunSteps(Initial(hasStore, maxConcurrency), steps) && forall step :: step in steps ==> UnderPolicy(step)
    requires r in RunSteps(Initial(hasStore, maxConcurrency), steps).live && r.scope == None && RuleMatches(r.rule, op)
    ensures Filtered(op.opType) ==> !LocalPolicyLaws.UnderEtc(Clean(op.path.value))
    ensures op.opType == "cmd.run" && LocalPolicy.IsDangerous(LocalPolicy.FlagsOf(op)) ==>
              LocalPolicyLaws.Undecided(op.argv.value[0])
  {
    FreshIsUnderPolicy(hasStore, maxConcurrency);
    NoPermanentDanger(Initial(hasStore, maxConcurrency), steps, r, op);
  }
}
