/** What the request protocol guarantees in every reachable state, and what it does not. */
module RequestLifecycleTheorems {
  import opened Text
  import opened RuleEngine
  import opened Store
  import opened RequestLifecycle
  import opened RequestLifecycleLaws
  import RuleEngineLaws
  import ShellScript

  /** The states some run leads to: any interleaving, any store failures, any number of restarts. */
  ghost predicate Reachable(s: State) {
    exists hasStore: bool, maxConcurrency: nat :: Leads(Initial(hasStore, maxConcurrency), s)
  }

  lemma ReachableOk(s: State)
    requires Reachable(s)
    ensures Inv(s)
  {
    var hasStore: bool, maxConcurrency: nat :| Leads(Initial(hasStore, maxConcurrency), s);
    var start := Initial(hasStore, maxConcurrency);
    var steps :| CanRunSteps(start, steps) && RunSteps(start, steps) == s;
    InitialOk(hasStore, maxConcurrency);
    RunKept(start, steps);
  }

  // ---------------------------------------------------------------- dispatch

  /** A request is dispatched at most once over its whole life, on the strength of its one committed
      decision, which allows it: never once a DENY is committed. */
  lemma DispatchedOnce(s: State)
    requires Reachable(s)
    ensures forall i, j :: 0 <= i < j < |s.dispatches| ==> s.dispatches[i] != s.dispatches[j]
    ensures forall id :: id in s.dispatches ==> exists i ::
              && 0 <= i < |s.commits| && s.commits[i].id == id && s.commits[i].action != Deny
              && forall j :: 0 <= j < |s.commits| && s.commits[j].id == id ==> j == i
  {
    ReachableOk(s);
    forall id | id in s.dispatches
      ensures exists i ::
                && 0 <= i < |s.commits| && s.commits[i].id == id && s.commits[i].action != Deny
                && forall j :: 0 <= j < |s.commits| && s.commits[j].id == id ==> j == i
    {
      var k :| 0 <= k < |s.dispatches| && s.dispatches[k] == id;
      assert Approves(s.commits, s.dispatches[k]);
      var i :| 0 <= i < |s.commits| && s.commits[i].id == id && s.commits[i].action != Deny;
      assert forall j :: 0 <= j < |s.commits| && s.commits[j].id == id ==> j == i;
    }
  }

  /** The history is honest: a decision enters it only in the step that takes the request out of PENDING,
      in the store if there is one and in memory otherwise. */
  lemma CommitLeavesPending(s: State, step: Step)
    requires Inv(s) && Enabled(s, step) && Apply(s, step).commits != s.commits
    ensures var t := Apply(s, step);
            exists p ::
              && t.commits == s.commits + [p]
              && if s.hasStore then
                   && p.id in s.db.requests && s.db.requests[p.id].status == Pending && p.id in t.db.requests
                   && t.db.requests[p.id].status == StatusAfter(p.action)
                   && p.id !in s.db.decisions && t.db.decisions == s.db.decisions[p.id := RowOf(p)]
                 else
                   && p.id in s.mem && s.mem[p.id].status == Pending && p.id in t.mem
                   && t.mem[p.id].status == StatusAfter(p.action)
                   && t.mem[p.id].decision == Some(Made(p.action, p.source))
  {
    OnlyDecisionsCommit(s, step);
    assert HoldsLock(s.procs[step.a]);
    if step.Commit? {
      CommitTakesRow(s, step.a, step.outcome);
    } else {
      RecordTakesMemory(s, step.a);
    }
  }

  lemma CommitTakesRow(s: State, a: nat, outcome: Outcome)
    requires Enabled(s, Commit(a, outcome)) && Apply(s, Commit(a, outcome)).commits != s.commits
    ensures var p, t := s.procs[a].plan, Apply(s, Commit(a, outcome));
            && t.commits == s.commits + [p] && p.id in s.db.requests && s.db.requests[p.id].status == Pending
            && p.id in t.db.requests && t.db.requests[p.id].status == StatusAfter(p.action)
            && p.id !in s.db.decisions && t.db.decisions == s.db.decisions[p.id := RowOf(p)]
  {
    CommitEffect(s.db, RowOf(s.procs[a].plan), PersistentRules(s.procs[a].plan));
  }

  lemma RecordTakesMemory(s: State, a: nat)
    requires LockOk(s) && Enabled(s, Record(a)) && Apply(s, Record(a)).commits != s.commits
    ensures var p, t := s.procs[a].plan, Apply(s, Record(a));
            && !s.hasStore && t.commits == s.commits + [p] && p.id in s.mem && s.mem[p.id].status == Pending
            && p.id in t.mem && t.mem[p.id].status == StatusAfter(p.action)
            && t.mem[p.id].decision == Some(Made(p.action, p.source))
  {
    assert HoldsLock(s.procs[a]);
  }

  lemma ExecutorNeverCommits(s: State, a: nat, id: string, stage: Stage, applied: bool, result: Ending)
    requires StageEnabled(s, stage)
    ensures ExecuteStep(s, a, id, stage, applied, result).commits == s.commits
  {
  }

  lemma EntryNeverCommits(s: State, step: Step)
    requires Enabled(s, step) && EntersOrRestarts(step)
    ensures Apply(s, step).commits == s.commits
  {
  }

  lemma OthersNeverCommit(s: State, step: Step)
    requires Enabled(s, step) && !MayCommit(step) && !step.Execute? && !EntersOrRestarts(step)
    ensures Apply(s, step).commits == s.commits
  {
  }

  lemma OnlyDecisionsCommit(s: State, step: Step)
    requires Enabled(s, step)
    ensures step.Commit? || step.Record? || Apply(s, step).commits == s.commits
  {
    if step.Execute? {
      ExecutorNeverCommits(s, step.a, s.procs[step.a].id, s.procs[step.a].stage, step.applied, step.result);
    } else if EntersOrRestarts(step) {
      EntryNeverCommits(s, step);
    } else if !MayCommit(step) {
      OthersNeverCommit(s, step);
    }
  }

  /** A committed approval that no goroutine carries: the server died before dispatching it, or the
      commit was reported as failed. */
  predicate Abandoned(s: State, id: string) {
    IsCommitted(s.commits, id) && id !in s.dispatches && forall a :: a in s.procs ==> Owned(s.procs[a]) != Some(id)
  }

  predicate MayCommit(step: Step) {
    step.Commit? || step.Record? || step.Dispatch?
  }

  predicate EntersOrRestarts(step: Step) {
    || IsRestart(step) || step.Create? || step.Remember? || step.AutoDecide? || step.Decide? || step.Install?
  }

  lemma AbandonedByEntry(s: State, step: Step, id: string)
    requires Abandoned(s, id) && Enabled(s, step) && EntersOrRestarts(step)
    ensures Abandoned(Apply(s, step), id)
  {
    if step.Install? {
      assert Owned(s.procs[step.a]) != Some(id);
    }
  }

  lemma AbandonedByOthers(s: State, step: Step, id: string)
    requires Abandoned(s, id) && Enabled(s, step) && !MayCommit(step) && !step.Execute? && !EntersOrRestarts(step)
    ensures Abandoned(Apply(s, step), id)
  {
  }

  lemma AbandonedByExecutor(s: State, a: nat, stage: Stage, applied: bool, result: Ending, id: string)
    requires Abandoned(s, id) && a in s.procs && s.procs[a].Executor? && StageEnabled(s, stage)
    ensures Abandoned(ExecuteStep(s, a, s.procs[a].id, stage, applied, result), id)
  {
  }

  lemma AbandonedByCommit(s: State, a: nat, outcome: Outcome, id: string)
    requires CommitsOk(s) && Abandoned(s, id) && Enabled(s, Commit(a, outcome))
    ensures Abandoned(Apply(s, Commit(a, outcome)), id)
  {
    var p := s.procs[a].plan;
    CommittedMore(s.commits, p);
    if CommitPending(s.db, RowOf(p), PersistentRules(p)).Ok? {
      NotYetCommitted(s, p);
    }
  }

  lemma AbandonedByRecord(s: State, a: nat, id: string)
    requires CommitsOk(s) && LockOk(s) && Abandoned(s, id) && Enabled(s, Record(a))
    ensures Abandoned(Apply(s, Record(a)), id)
  {
    CommittedMore(s.commits, s.procs[a].plan);
    assert HoldsLock(s.procs[a]);
    assert Owned(s.procs[a]) != Some(id);
  }

  lemma AbandonedByDispatch(s: State, a: nat, id: string)
    requires Abandoned(s, id) && Enabled(s, Dispatch(a))
    ensures Abandoned(Apply(s, Dispatch(a)), id)
  {
    assert Owned(s.procs[a]) != Some(id);
  }

  /** An abandoned approval is never dispatched later, whatever happens: executions are not resumed. */
  lemma {:induction false} NeverResumed(s: State, steps: seq<Step>, id: string)
    requires Inv(s) && Abandoned(s, id) && CanRunSteps(s, steps)
    ensures Abandoned(RunSteps(s, steps), id)
    decreases |steps|
  {
    if steps != [] {
      var step := steps[0];
      if step.Execute? {
        AbandonedByExecutor(s, step.a, s.procs[step.a].stage, step.applied, step.result, id);
      } else if step.Commit? {
        AbandonedByCommit(s, step.a, step.outcome, id);
      } else if step.Record? {
        AbandonedByRecord(s, step.a, id);
      } else if step.Dispatch? {
        AbandonedByDispatch(s, step.a, id);
      } else if EntersOrRestarts(step) {
        AbandonedByEntry(s, step, id);
      } else {
        AbandonedByOthers(s, step, id);
      }
      StepKept(s, step);
      NeverResumed(Apply(s, step), steps[1..], id);
    }
  }

  /** In particular everything committed but not dispatched when the server stops stays so. */
  lemma CrashAbandons(s: State, steps: seq<Step>, id: string)
    requires Reachable(s) && CanRunSteps(Apply(s, Crash), steps)
    ensures IsCommitted(s.commits, id) && id !in s.dispatches ==> id !in RunSteps(Apply(s, Crash), steps).dispatches
  {
    ReachableOk(s);
    StepKept(s, Crash);
    if IsCommitted(s.commits, id) && id !in s.dispatches {
      NeverResumed(Apply(s, Crash), steps, id);
    }
  }

  // ---------------------------------------------------------------- PENDING

  predicate RowDecided(s: State, id: string) {
    id in s.db.requests && s.db.requests[id].status != Pending
  }

  predicate MemoryDecided(s: State, id: string) {
    id in s.mem && s.mem[id].status != Pending
  }

  lemma ExecutorKeepsDecided(s: State, a: nat, req: string, stage: Stage, applied: bool, result: Ending, id: string)
    requires StageEnabled(s, stage)
    ensures var t := ExecuteStep(s, a, req, stage, applied, result);
            (RowDecided(s, id) ==> RowDecided(t, id)) && (MemoryDecided(s, id) ==> MemoryDecided(t, id))
  {
  }

  lemma CommitKeepsDecided(s: State, step: Step, id: string)
    requires Enabled(s, step) && MayCommit(step)
    ensures var t := Apply(s, step);
            (RowDecided(s, id) ==> RowDecided(t, id)) && (MemoryDecided(s, id) ==> MemoryDecided(t, id))
  {
  }

  lemma OthersKeepDecided(s: State, step: Step, id: string)
    requires s.mem.Keys <= s.used && s.db.requests.Keys <= s.used
    requires forall a :: a in s.procs && s.procs[a].Creating? ==> s.procs[a].id !in s.mem
    requires Enabled(s, step) && !MayCommit(step) && !step.Execute?
    ensures var t := Apply(s, step);
            && (RowDecided(s, id) ==> RowDecided(t, id))
            && (MemoryDecided(s, id) && step != Crash ==> MemoryDecided(t, id))
  {
    if EntersOrRestarts(step) {
      EntryKeepsDecided(s, step, id);
    } else {
      RuleStepsKeepDecided(s, step, id);
    }
  }

  lemma EntryKeepsDecided(s: State, step: Step, id: string)
    requires s.mem.Keys <= s.used && s.db.requests.Keys <= s.used
    requires forall a :: a in s.procs && s.procs[a].Creating? ==> s.procs[a].id !in s.mem
    requires Enabled(s, step) && EntersOrRestarts(step)
    ensures var t := Apply(s, step);
            && (RowDecided(s, id) ==> RowDecided(t, id))
            && (MemoryDecided(s, id) && step != Crash ==> MemoryDecided(t, id))
  {
  }

  lemma RuleStepsKeepDecided(s: State, step: Step, id: string)
    requires Enabled(s, step) && !MayCommit(step) && !step.Execute? && !EntersOrRestarts(step)
    ensures var t := Apply(s, step);
            (RowDecided(s, id) ==> RowDecided(t, id)) && (MemoryDecided(s, id) ==> MemoryDecided(t, id))
  {
  }

  lemma StaysDecided(s: State, step: Step, id: string)
    requires IdsOk(s) && Enabled(s, step)
    ensures var t := Apply(s, step);
            && (RowDecided(s, id) ==> RowDecided(t, id))
            && (MemoryDecided(s, id) && step != Crash ==> MemoryDecided(t, id))
  {
    if step.Execute? {
      ExecutorKeepsDecided(s, step.a, s.procs[step.a].id, s.procs[step.a].stage, step.applied, step.result, id);
    } else if MayCommit(step) {
      CommitKeepsDecided(s, step, id);
    } else {
      forall a | a in s.procs && s.procs[a].Creating?
        ensures s.procs[a].id !in s.mem
      {
        assert Unknown(s, s.procs[a].id);
      }
      OthersKeepDecided(s, step, id);
    }
  }

  /** No run takes a stored request back to PENDING, and only one through a crash does so in memory. */
  lemma {:induction false} NeverPendingAgain(s: State, steps: seq<Step>, id: string)
    requires Inv(s) && CanRunSteps(s, steps)
    ensures var t := RunSteps(s, steps);
            && (RowDecided(s, id) ==> RowDecided(t, id))
            && (MemoryDecided(s, id) && Crash !in steps ==> MemoryDecided(t, id))
    decreases |steps|
  {
    if steps != [] {
      assert steps == [steps[0]] + steps[1..];
      StaysDecided(s, steps[0], id);
      StepKept(s, steps[0]);
      NeverPendingAgain(Apply(s, steps[0]), steps[1..], id);
    }
  }

  // ---------------------------------------------------------------- decisions and rules

  /** With a store, a decision in memory is that of the request's one decision row; the decision rows are
      exactly the committed decisions, and their requests have left PENDING. */
  lemma DecisionsAgree(s: State)
    requires Reachable(s) && s.hasStore
    ensures forall id :: id in s.mem && s.mem[id].decision.Some? ==>
              id in s.db.decisions && s.mem[id].decision.value == Made(s.db.decisions[id].action, s.db.decisions[id].source)
    ensures forall id :: id in s.db.decisions <==> IsCommitted(s.commits, id)
    ensures forall id :: id in s.db.decisions ==> id in s.db.requests && s.db.requests[id].status != Pending
  {
    ReachableOk(s);
    forall id | id in s.mem && s.mem[id].decision.Some?
      ensures id in s.db.decisions && s.mem[id].decision.value == Made(s.db.decisions[id].action, s.db.decisions[id].source)
    {
      var i :| 0 <= i < |s.commits| && s.commits[i].id == id
               && s.mem[id].decision.value == Made(s.commits[i].action, s.commits[i].source);
    }
  }

  /** A live rule was added by hand or belongs to an ALLOW_SESSION or ALLOW_ALWAYS that is committed; the
      permanent rules of a committed ALLOW_ALWAYS are in the store, as persisted, until they are deleted. */
  lemma RulesFollowCommits(s: State)
    requires Reachable(s)
    ensures forall r :: r in s.live ==> r in s.manual || exists c :: c in s.commits && Grants(c, r)
    ensures s.hasStore ==>
              forall c, r :: c in s.commits && c.action.AllowAlways? && r in c.rules ==>
                r.id in s.deleted || (r.id in s.db.rules && s.db.rules[r.id].rule == Persisted(r))
  {
    ReachableRules(s);
    LiveIsAuthored(s);
    if s.hasStore {
      CommittedIsStored(s);
    }
  }

  lemma ReachableRules(s: State)
    requires Reachable(s)
    ensures RulesOk(s) && StoredOk(s)
  {
    ReachableOk(s);
  }

  lemma LiveIsAuthored(s: State)
    requires RulesOk(s)
    ensures forall r :: r in s.live ==> r in s.manual || exists c :: c in s.commits && Grants(c, r)
  {
    forall r | r in s.live
      ensures r in s.manual || exists c :: c in s.commits && Grants(c, r)
    {
      assert Authored(s.commits, s.manual, r);
    }
  }

  lemma CommittedIsStored(s: State)
    requires StoredOk(s) && s.hasStore
    ensures forall c, r :: c in s.commits && c.action.AllowAlways? && r in c.rules ==>
              r.id in s.deleted || (r.id in s.db.rules && s.db.rules[r.id].rule == Persisted(r))
  {
  }

  /** Added by hand, or created by a decision of a person among these commits. */
  ghost predicate FromPeople(commits: seq<Plan>, manual: set<LiveRule>, r: LiveRule) {
    r in manual || exists k :: 0 <= k < |commits| && Grants(commits[k], r) && ManualPlan(commits[k])
  }

  /** No operation is permitted by no rule. */
  lemma PermittedBySome(about: Submission, via: set<LiveRule>)
    requires Permitted(about, via)
    ensures via != {}
  {
    RuleEngineLaws.PermitsBySome(_ => about.parsed, RulesIn(via), about.op);
    var q :| q in RulesIn(via);
  }

  lemma ReachableAuthority(s: State)
    requires Reachable(s)
    ensures ChainOk(s) && forall i :: 0 <= i < |s.commits| ==> PlanShape(s.commits[i])
  {
    ReachableOk(s);
  }

  /** Every automatic approval rests on rules that apply to its session and permit what was submitted, each
      of them added by hand or created by an earlier decision of a person. */
  lemma AuthorityIsHuman(s: State, i: nat)
    requires Reachable(s) && i < |s.commits| && s.commits[i].action.AllowRule?
    ensures Permitted(s.commits[i].about, s.commits[i].via) && s.commits[i].via != {}
    ensures forall r :: r in s.commits[i].via ==>
              Applies(r, s.commits[i].about.session) && FromPeople(s.commits[..i], s.manual, r)
  {
    ReachableAuthority(s);
    assert PlanShape(s.commits[i]);
    PermittedBySome(s.commits[i].about, s.commits[i].via);
    assert ViaAuthored(s.commits[..i], s.manual, s.commits[i]);
    forall r | r in s.commits[i].via && r !in s.manual
      ensures FromPeople(s.commits[..i], s.manual, r)
    {
      assert Authored(s.commits[..i], s.manual, r);
      var c :| c in s.commits[..i] && Grants(c, r);
      var k :| 0 <= k < i && s.commits[..i][k] == c;
      assert PlanShape(s.commits[k]);
    }
  }

  /** Memory, store and decisions agree on what was submitted under an id. */
  predicate ContentsOk(s: State) {
    && (forall id :: id in s.mem && id in s.db.requests ==> s.mem[id].about == s.db.requests[id].about)
    && (forall a :: a in s.procs && s.procs[a].Creating? && s.procs[a].id in s.db.requests ==>
          s.db.requests[s.procs[a].id].about == s.procs[a].about)
    && (forall a :: a in s.procs && HoldsLock(s.procs[a]) ==>
          s.procs[a].plan.id in s.mem && s.mem[s.procs[a].plan.id].about == s.procs[a].plan.about)
    && (forall i :: 0 <= i < |s.commits| && s.commits[i].id in s.mem ==>
          s.mem[s.commits[i].id].about == s.commits[i].about)
    && (s.hasStore ==> forall i :: 0 <= i < |s.commits| ==>
          s.commits[i].id in s.db.requests && s.db.requests[s.commits[i].id].about == s.commits[i].about)
  }

  /** Statuses and goroutines may change, what was submitted not; nobody starts creating or deciding. */
  predicate SameContents(s: State, t: State) {
    && t.mem.Keys == s.mem.Keys && t.db.requests.Keys == s.db.requests.Keys
    && (forall id :: id in t.mem ==> t.mem[id].about == s.mem[id].about)
    && (forall id :: id in t.db.requests ==> t.db.requests[id].about == s.db.requests[id].about)
    && t.commits == s.commits && t.hasStore == s.hasStore
    && (forall a :: a in t.procs && (t.procs[a].Creating? || HoldsLock(t.procs[a])) ==>
          a in s.procs && s.procs[a] == t.procs[a])
  }

  lemma ContentsFrame(s: State, t: State)
    requires ContentsOk(s) && SameContents(s, t)
    ensures ContentsOk(t)
  {
  }

  lemma MemoryStageKeepsContents(s: State, a: nat, id: string, stage: Stage, applied: bool, result: Ending)
    requires StageEnabled(s, stage) && WritesMemory(stage)
    ensures SameContents(s, ExecuteStep(s, a, id, stage, applied, result))
  {
  }

  lemma StoreStageKeepsContents(s: State, a: nat, id: string, stage: Stage, applied: bool, result: Ending)
    requires StageEnabled(s, stage) && WritesStore(stage)
    ensures SameContents(s, ExecuteStep(s, a, id, stage, applied, result))
  {
  }

  lemma ExecutorKeepsContents(s: State, a: nat, id: string, stage: Stage, applied: bool, result: Ending)
    requires StageEnabled(s, stage)
    ensures SameContents(s, ExecuteStep(s, a, id, stage, applied, result))
  {
    if WritesMemory(stage) {
      MemoryStageKeepsContents(s, a, id, stage, applied, result);
    } else if WritesStore(stage) {
      StoreStageKeepsContents(s, a, id, stage, applied, result);
    }
  }

  lemma KillWriteKeepsContents(s: State, a: nat)
    requires Enabled(s, KillWrite(a))
    ensures SameContents(s, Apply(s, KillWrite(a)))
  {
  }

  lemma KillStoreKeepsContents(s: State, a: nat, applied: bool)
    requires Enabled(s, KillStore(a, applied))
    ensures SameContents(s, Apply(s, KillStore(a, applied)))
  {
  }

  lemma KillKeepsContents(s: State, step: Step)
    requires Enabled(s, step) && IsKill(step)
    ensures SameContents(s, Apply(s, step))
  {
    if step.KillWrite? {
      KillWriteKeepsContents(s, step.a);
    } else if step.KillStore? {
      KillStoreKeepsContents(s, step.a, step.applied);
    }
  }

  predicate StoresRules(step: Step) {
    step.StoreRule? || step.ChangeRule? || step.LoadRules?
  }

  lemma StoreRuleKeepsContents(s: State, a: nat, rule: Rule, outcome: Outcome)
    requires Enabled(s, StoreRule(a, rule, outcome))
    ensures SameContents(s, Apply(s, StoreRule(a, rule, outcome)))
  {
  }

  lemma ChangeRuleKeepsContents(s: State, a: nat, change: RuleChange, outcome: Outcome)
    requires Enabled(s, ChangeRule(a, change, outcome))
    ensures SameContents(s, Apply(s, ChangeRule(a, change, outcome)))
  {
  }

  lemma StoredRulesKeepContents(s: State, step: Step)
    requires Enabled(s, step) && StoresRules(step)
    ensures SameContents(s, Apply(s, step))
  {
    match step
    case StoreRule(a, rule, outcome) => StoreRuleKeepsContents(s, a, rule, outcome);
    case ChangeRule(a, change, outcome) => ChangeRuleKeepsContents(s, a, change, outcome);
    case LoadRules(_, _) =>
  }

  lemma SessionRulesKeepContents(s: State, step: Step)
    requires Enabled(s, step) && (step.AddSessionRule? || step.RemoveSessionRule?)
    ensures SameContents(s, Apply(s, step))
  {
  }

  lemma LiveRulesKeepContents(s: State, step: Step)
    requires Enabled(s, step) && (step.InstallRule? || step.ReplaceRules?)
    ensures SameContents(s, Apply(s, step))
  {
  }

  lemma ContentsKeptByCommit(s: State, a: nat, outcome: Outcome)
    requires ContentsOk(s) && Enabled(s, Commit(a, outcome))
    ensures ContentsOk(Apply(s, Commit(a, outcome)))
  {
    var p := s.procs[a].plan;
    assert HoldsLock(s.procs[a]);
    if CommitPending(s.db, RowOf(p), PersistentRules(p)).Ok? {
      CommitEffect(s.db, RowOf(p), PersistentRules(p));
    }
  }

  lemma ContentsKeptByRecord(s: State, a: nat)
    requires ContentsOk(s) && Enabled(s, Record(a))
    ensures ContentsOk(Apply(s, Record(a)))
  {
    assert HoldsLock(s.procs[a]);
  }

  lemma DispatchKeepsContents(s: State, a: nat)
    requires Enabled(s, Dispatch(a))
    ensures SameContents(s, Apply(s, Dispatch(a)))
  {
  }

  lemma ContentsKeptByRestart(s: State, step: Step)
    requires ContentsOk(s) && PhaseOk(s) && StoreOnlyIfAny(s) && Enabled(s, step) && IsRestart(step)
    ensures ContentsOk(Apply(s, step))
  {
  }

  lemma ContentsKeptByCreate(s: State, a: nat, id: string, about: Submission, outcome: Outcome)
    requires ContentsOk(s) && IdsOk(s) && Enabled(s, Create(a, id, about, outcome))
    ensures ContentsOk(Apply(s, Create(a, id, about, outcome)))
  {
    forall b | b in s.procs && s.procs[b].Creating?
      ensures s.procs[b].id != id
    {
      assert Unknown(s, s.procs[b].id);
    }
    assert forall i :: 0 <= i < |s.commits| ==> s.commits[i].id != id;
  }

  lemma ContentsKeptByRemember(s: State, a: nat)
    requires ContentsOk(s) && IdsOk(s) && Enabled(s, Remember(a))
    ensures ContentsOk(Apply(s, Remember(a)))
  {
    assert Unknown(s, s.procs[a].id);
  }

  lemma ContentsKeptByDecide(s: State, a: nat, plan: Plan)
    requires ContentsOk(s) && CanDecide(s, plan)
    ensures ContentsOk(Goto(s, a, Deciding(plan)).(lock := Some(a)))
  {
  }

  lemma InstallKeepsContents(s: State, a: nat)
    requires Enabled(s, Install(a))
    ensures SameContents(s, Apply(s, Install(a)))
  {
  }

  lemma ContentsKeptByStep(s: State, step: Step)
    requires ContentsOk(s) && IdsOk(s) && PhaseOk(s) && Enabled(s, step)
    ensures ContentsOk(Apply(s, step))
  {
    if step.Execute? {
      ExecutorKeepsContents(s, step.a, s.procs[step.a].id, s.procs[step.a].stage, step.applied, step.result);
      ContentsFrame(s, Apply(s, step));
    } else if step.Commit? {
      ContentsKeptByCommit(s, step.a, step.outcome);
    } else if step.Record? {
      ContentsKeptByRecord(s, step.a);
    } else if step.Dispatch? {
      DispatchKeepsContents(s, step.a);
      ContentsFrame(s, Apply(s, step));
    } else if IsRestart(step) {
      ContentsKeptByRestart(s, step);
    } else if step.Create? {
      ContentsKeptByCreate(s, step.a, step.id, step.about, step.outcome);
    } else if step.Remember? {
      ContentsKeptByRemember(s, step.a);
    } else if step.Install? {
      InstallKeepsContents(s, step.a);
      ContentsFrame(s, Apply(s, step));
    } else if EntersOrRestarts(step) {
      ContentsKeptByDecide(s, step.a, step.plan);
    } else if IsKill(step) {
      KillKeepsContents(s, step);
      ContentsFrame(s, Apply(s, step));
    } else if StoresRules(step) {
      StoredRulesKeepContents(s, step);
      ContentsFrame(s, Apply(s, step));
    } else if step.AddSessionRule? || step.RemoveSessionRule? {
      SessionRulesKeepContents(s, step);
      ContentsFrame(s, Apply(s, step));
    } else {
      LiveRulesKeepContents(s, step);
      ContentsFrame(s, Apply(s, step));
    }
  }

  lemma {:induction false} ContentsKept(s: State, steps: seq<Step>)
    requires Inv(s) && ContentsOk(s) && CanRunSteps(s, steps)
    ensures ContentsOk(RunSteps(s, steps))
    decreases |steps|
  {
    if steps != [] {
      ContentsKeptByStep(s, steps[0]);
      StepKept(s, steps[0]);
      ContentsKept(Apply(s, steps[0]), steps[1..]);
    }
  }

  /** A decision, and so the dispatch behind it, is of what was submitted: the stored operation and session. */
  lemma DecidedAsSubmitted(s: State)
    requires Reachable(s)
    ensures s.hasStore ==>
              forall i :: 0 <= i < |s.commits| ==>
                s.commits[i].id in s.db.requests && s.commits[i].about == s.db.requests[s.commits[i].id].about
    ensures forall i :: 0 <= i < |s.commits| && s.commits[i].id in s.mem ==>
              s.commits[i].about == s.mem[s.commits[i].id].about
  {
    ReachableContents(s);
  }

  lemma ReachableContents(s: State)
    requires Reachable(s)
    ensures ContentsOk(s)
  {
    var hasStore: bool, maxConcurrency: nat :| Leads(Initial(hasStore, maxConcurrency), s);
    var start := Initial(hasStore, maxConcurrency);
    var steps :| CanRunSteps(start, steps) && RunSteps(start, steps) == s;
    InitialOk(hasStore, maxConcurrency);
    ContentsKept(start, steps);
  }

  /** The rules behind an automatic approval apply to the stored session of its request and permit its stored
      operation. */
  lemma ApprovedInItsSession(s: State, i: nat)
    requires Reachable(s) && s.hasStore && i < |s.commits| && s.commits[i].action.AllowRule?
    ensures s.commits[i].id in s.db.requests && s.commits[i].via != {}
    ensures var about := s.db.requests[s.commits[i].id].about;
            Permitted(about, s.commits[i].via) && forall r :: r in s.commits[i].via ==> Applies(r, about.session)
  {
    AuthorityIsHuman(s, i);
    DecidedAsSubmitted(s);
  }

  /** Covered by a rule that people made, for this session. */
  ghost predicate CoveredByPeople(commits: seq<Plan>, manual: set<LiveRule>, session: string, argv: seq<string>) {
    exists r :: FromPeople(commits, manual, r) && Applies(r, session) && CoversArgv(r.rule, argv)
  }

  /** Whatever an automatically approved shell script runs, under any exit statuses, is a known command
      covered by a rule people made for the stored session of the request, unless such a rule spells out
      the whole invocation. */
  lemma AutomaticScriptRunsCovered(s: State, i: nat, script: string, stmts: seq<ShellScript.Stmt>,
                                   events: seq<ShellScript.Event>, ok: bool)
    requires Reachable(s) && s.hasStore && i < |s.commits| && s.commits[i].action.AllowRule?
    ensures s.commits[i].id in s.db.requests
    ensures var about := s.db.requests[s.commits[i].id].about;
            about.op.opType == "cmd.run" && about.op.argv.Some? && ShellScriptArg(about.op.argv.value) == Some(script)
            && about.parsed == Ok(stmts) && ShellScript.ListRuns(stmts, events, ok) ==>
              || (exists r :: FromPeople(s.commits[..i], s.manual, r) && Applies(r, about.session)
                              && IsExactArgv(r.rule, about.op.argv.value))
              || forall e :: e in events ==>
                   e.Ran? && CoveredByPeople(s.commits[..i], s.manual, about.session, e.argv)
  {
    AuthorityIsHuman(s, i);
    DecidedAsSubmitted(s);
    var about, via := s.commits[i].about, s.commits[i].via;
    if about.op.opType == "cmd.run" && about.op.argv.Some? && ShellScriptArg(about.op.argv.value) == Some(script)
       && about.parsed == Ok(stmts) && ShellScript.ListRuns(stmts, events, ok) {
      if RuleEngineLaws.HasExact(RulesIn(via), about.op.argv.value) {
        var q :| q in RulesIn(via) && IsExactArgv(q, about.op.argv.value);
        var r :| r in via && r.rule == q;
      } else {
        PermittedScriptRunsCovered(about, via, script, stmts, events, ok);
        forall e | e in events
          ensures e.Ran? && CoveredByPeople(s.commits[..i], s.manual, about.session, e.argv)
        {
          var q :| q in RulesIn(via) && CoversArgv(q, e.argv);
          var r :| r in via && r.rule == q;
        }
      }
    }
  }

  lemma PermittedScriptRunsCovered(about: Submission, via: set<LiveRule>, script: string, stmts: seq<ShellScript.Stmt>,
                                   events: seq<ShellScript.Event>, ok: bool)
    requires Permitted(about, via) && about.op.opType == "cmd.run" && about.op.argv.Some?
    requires ShellScriptArg(about.op.argv.value) == Some(script) && about.parsed == Ok(stmts)
    requires !RuleEngineLaws.HasExact(RulesIn(via), about.op.argv.value) && ShellScript.ListRuns(stmts, events, ok)
    ensures forall e :: e in events ==> e.Ran? && RuleEngineLaws.HasCover(RulesIn(via), e.argv)
  {
    RuleEngineLaws.CoveredScriptRunsCovered(_ => about.parsed, RulesIn(via), about.op, script, stmts, events, ok);
  }

  // ---------------------------------------------------------------- bounded concurrency

  function RunningIds(s: State): set<string> {
    set id | id in s.mem && s.mem[id].status == Running
  }

  /** The one goroutine that runs a request marked RUNNING. */
  lemma RunnerIsUnique(s: State, id: string) returns (a: nat)
    requires RunningOk(s) && OwnersOk(s) && id in RunningIds(s)
    ensures a in Guarded(s.procs) && RunsRequest(s.procs[a], id)
    ensures forall b :: b in s.procs && RunsRequest(s.procs[b], id) ==> b == a
  {
    a :| a in s.procs && RunsRequest(s.procs[a], id);
    OneOwner(s, id, a);
  }

  lemma OneOwner(s: State, id: string, a: nat)
    requires OwnersOk(s) && a in s.procs && RunsRequest(s.procs[a], id)
    ensures forall b :: b in s.procs && RunsRequest(s.procs[b], id) ==> b == a
  {
    forall b | b in s.procs && RunsRequest(s.procs[b], id)
      ensures b == a
    {
      assert Owned(s.procs[a]) == Some(id) && Owned(s.procs[b]) == Some(id);
    }
  }

  lemma {:induction false} OneRunnerEach(s: State, ids: set<string>, procs: set<nat>)
    requires RunningOk(s) && OwnersOk(s) && ids <= RunningIds(s) && procs <= Guarded(s.procs)
    requires forall id, a :: id in ids && a in s.procs && RunsRequest(s.procs[a], id) ==> a in procs
    ensures |ids| <= |procs|
    decreases ids
  {
    if ids != {} {
      var id :| id in ids;
      var a := RunnerIsUnique(s, id);
      assert a in procs;
      OneRunnerEach(s, ids - {id}, procs - {a});
    }
  }

  /** At most MaxConcurrency requests are RUNNING, each inside one goroutine that holds a slot, and the
      slots taken are the goroutines inside the guarded section. */
  lemma BoundedConcurrency(s: State)
    requires Reachable(s)
    ensures s.slots == |Guarded(s.procs)|
    ensures |RunningIds(s)| <= s.slots <= s.maxConcurrency
    ensures forall id :: id in RunningIds(s) ==>
              exists a :: a in Guarded(s.procs) && RunsRequest(s.procs[a], id)
                          && forall b :: b in s.procs && RunsRequest(s.procs[b], id) ==> b == a
  {
    ReachableOk(s);
    RunnersAreGuarded(s.procs);
    OneRunnerEach(s, RunningIds(s), Guarded(s.procs));
    forall id | id in RunningIds(s)
      ensures exists a :: a in Guarded(s.procs) && RunsRequest(s.procs[a], id)
                          && forall b :: b in s.procs && RunsRequest(s.procs[b], id) ==> b == a
    {
      var a := RunnerIsUnique(s, id);
    }
  }

  lemma RunnersAreGuarded(procs: map<nat, Proc>)
    ensures forall id, a :: a in procs && RunsRequest(procs[a], id) ==> a in Guarded(procs)
  {
  }

  // ---------------------------------------------------------------- restart

  /** While the server is starting, memory shows as PENDING exactly the stored requests that are. */
  predicate ShowsStored(s: State) {
    forall id :: id in s.mem ==>
      id in s.db.requests && (s.mem[id].status == Pending <==> s.db.requests[id].status == Pending)
  }

  lemma {:induction false} RestartShowsStored(s: State, steps: seq<Step>)
    requires ShowsStored(s) && CanRunSteps(s, steps) && forall step :: step in steps ==> IsRestart(step)
    ensures ShowsStored(RunSteps(s, steps))
    ensures RunSteps(s, steps).db.requests.Keys == s.db.requests.Keys
    ensures forall id :: id in s.db.requests ==>
              (RunSteps(s, steps).db.requests[id].status == Pending <==> s.db.requests[id].status == Pending)
    decreases |steps|
  {
    if steps != [] {
      assert steps == [steps[0]] + steps[1..];
      assert IsRestart(steps[0]);
      RestartStep(s, steps[0]);
      RestartShowsStored(Apply(s, steps[0]), steps[1..]);
    }
  }

  lemma RestartStep(s: State, step: Step)
    requires ShowsStored(s) && Enabled(s, step) && IsRestart(step)
    ensures var t := Apply(s, step);
            && ShowsStored(t) && t.db.requests.Keys == s.db.requests.Keys
            && forall id :: id in s.db.requests ==>
                 (t.db.requests[id].status == Pending <==> s.db.requests[id].status == Pending)
  {
  }
}
