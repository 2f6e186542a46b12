/** The life of a request as a protocol: creators, manual and automatic decisions, kills, rule changes
    and one executor goroutine per dispatched request, acting on the in-memory map, the store and the
    semaphore. One step is one critical section of the request lock or one store statement; the process
    may crash and restart between any two steps. */
module RequestLifecycle {
  import opened Text
  import opened RuleEngine
  import opened Store
  import RuleEngineLaws

  // ---------------------------------------------------------------- state

  datatype Made = Made(action: Action, source: string)

  /** The in-memory request record. */
  datatype Rec = Rec(about: Submission, status: Status, decision: Option<Made>)

  /** A rule in the engine: of one session, or permanent. */
  datatype LiveRule = LiveRule(scope: Option<string>, rule: Rule)

  /** A decision that passed its checks: the request as it was read, what will be committed, the rules it
      creates and the session they are for, and for an automatic approval the live rules it rests on. */
  datatype Plan = Plan(id: string, about: Submission, session: string, action: Action, source: string, ruleID: string,
                       rules: seq<Rule>, via: set<LiveRule>)

  /** How an execution ends; anything else a runner reports is taken as FAILED. */
  type Ending = r: Status | r.Succeeded? || r.Failed? || r.TimedOut? || r.Killed? witness Failed

  datatype Stage =
    | CheckFirst | Enqueue | StoreQueued | Acquire | CheckAgain | MarkRunning | StoreRunning | Work
    | StoreResult(result: Ending) | Finish(result: Ending) | Release

  /** Where a goroutine stands: the step it takes next. */
  datatype Proc =
    | Creating(id: string, about: Submission)
    | Submitted(id: string)
    | Deciding(plan: Plan)
    | Decided(plan: Plan)
    | Installing(plan: Plan, left: seq<Rule>)
    | Killing(id: string, seen: Status)
    | KillStoring(id: string, canceled: bool)
    | Executor(id: string, stage: Stage)
    | AddingRule(rule: Rule)
    | LoadingRules
    | ReplacingRules(loaded: set<Rule>)

  datatype Phase = Down | Booting | Up

  datatype State = State(
    hasStore: bool, maxConcurrency: nat, phase: Phase,
    mem: map<string, Rec>, db: Tables, live: set<LiveRule>, lock: Option<nat>, slots: nat, procs: map<nat, Proc>,
    // History: ids drawn so far, decisions in the order they took effect, dispatches, rules added by
    // hand, ids of rules deleted from the store.
    used: set<string>, commits: seq<Plan>, dispatches: seq<string>, manual: set<LiveRule>, deleted: set<string>)

  // ---------------------------------------------------------------- steps

  /** A store statement takes effect and says so, does neither, or takes effect and reports an error. */
  datatype Outcome = Done | Lost | Unsure

  datatype RuleChange = EnableRule(ruleID: string) | DisableRule(ruleID: string) | DeleteRule(ruleID: string)

  datatype Step =
    | Crash
    | Boot(loaded: bool)
    | Rehydrate(id: string, wrote: bool, read: bool)
    | Open
    | Create(a: nat, id: string, about: Submission, outcome: Outcome)
    | Remember(a: nat)
    | AutoDecide(a: nat, plan: Plan)
    | AutoSkip(a: nat)
    | Decide(a: nat, plan: Plan)
    | Commit(a: nat, outcome: Outcome)
    | Record(a: nat)
    | Install(a: nat)
    | Dispatch(a: nat)
    | KillRead(a: nat, id: string)
    | KillWrite(a: nat)
    | KillStore(a: nat, applied: bool)
    | Execute(a: nat, applied: bool, result: Ending)
    | AddSessionRule(session: string, rule: Rule)
    | RemoveSessionRule(removed: LiveRule, last: bool)
    | StoreRule(a: nat, rule: Rule, outcome: Outcome)
    | InstallRule(a: nat)
    | ChangeRule(a: nat, change: RuleChange, outcome: Outcome)
    | LoadRules(a: nat, loaded: bool)
    | ReplaceRules(a: nat)

  predicate Startable(status: Status) {
    status.Pending? || status.Approved? || status.Queued?
  }

  predicate Applies(rule: LiveRule, session: string) {
    rule.scope == None || rule.scope == Some(session)
  }

  /** What the planner returns for a manual decision. */
  predicate ManualPlan(p: Plan) {
    && (p.action.Deny? || p.action.AllowOnce? || p.action.AllowSession? || p.action.AllowAlways?)
    && (p.action.Deny? || p.action.AllowOnce? ==> p.rules == [])
    && p.ruleID == (if p.rules == [] then "" else p.rules[0].id)
    && p.via == {}
  }

  function RulesIn(via: set<LiveRule>): set<Rule> {
    set r | r in via :: r.rule
  }

  /** The engine's verdict on what was submitted, given these rules. */
  predicate Permitted(about: Submission, via: set<LiveRule>) {
    RuleEngineLaws.Permits(_ => about.parsed, RulesIn(via), about.op)
  }

  /** An automatic approval rests on rules that apply to the session and permit the operation. */
  predicate RulePlan(p: Plan) {
    && p.action.AllowRule? && p.source == "rule" && p.rules == [] && p.session == p.about.session
    && (forall r :: r in p.via ==> Applies(r, p.session))
    && Permitted(p.about, p.via)
  }

  /** The request is pending, and the plan was made from what it holds. */
  predicate CanDecide(s: State, p: Plan) {
    s.lock == None && p.id in s.mem && s.mem[p.id].status == Pending && s.mem[p.id].about == p.about
  }

  predicate At(s: State, a: nat) {
    s.phase.Up? && a in s.procs
  }

  predicate Fresh(s: State, a: nat) {
    s.phase.Up? && a !in s.procs
  }

  predicate StageEnabled(s: State, stage: Stage) {
    match stage
    case CheckFirst => s.lock == None
    case Enqueue => s.lock == None
    case Acquire => s.slots < s.maxConcurrency
    case CheckAgain => s.lock == None
    case MarkRunning => s.lock == None
    case Finish(_) => s.lock == None
    case Release => s.slots > 0
    case _ => true
  }

  predicate Enabled(s: State, step: Step) {
    match step
    case Crash => true
    case Boot(_) => s.phase.Down?
    case Rehydrate(id, _, _) =>
      && s.phase.Booting? && id in s.db.requests && id !in s.mem
      && (Startable(s.db.requests[id].status) || s.db.requests[id].status == Running)
    case Open => s.phase.Booting?
    case Create(a, id, _, _) => Fresh(s, a) && id !in s.used
    case Remember(a) => At(s, a) && s.procs[a].Creating? && s.lock == None
    case AutoDecide(a, p) =>
      && At(s, a) && s.procs[a].Submitted? && p.id == s.procs[a].id && CanDecide(s, p)
      && p.via <= s.live && RulePlan(p)
    case AutoSkip(a) => At(s, a) && s.procs[a].Submitted? && s.lock == None
    case Decide(a, p) => Fresh(s, a) && CanDecide(s, p) && ManualPlan(p)
    case Commit(a, _) => At(s, a) && s.procs[a].Deciding? && s.hasStore
    case Record(a) =>
      && At(s, a) && (s.procs[a].Decided? || (s.procs[a].Deciding? && !s.hasStore))
      && s.procs[a].plan.id in s.mem
    case Install(a) => At(s, a) && s.procs[a].Installing? && s.procs[a].left != []
    case Dispatch(a) => At(s, a) && s.procs[a].Installing? && s.procs[a].left == []
    case KillRead(a, id) => Fresh(s, a) && s.lock == None && id in s.mem && Startable(s.mem[id].status)
    case KillWrite(a) => At(s, a) && s.procs[a].Killing? && s.lock == None && s.procs[a].id in s.mem
    case KillStore(a, _) => At(s, a) && s.procs[a].KillStoring?
    case Execute(a, _, _) => At(s, a) && s.procs[a].Executor? && StageEnabled(s, s.procs[a].stage)
    case AddSessionRule(_, _) => s.phase.Up? && s.hasStore
    case RemoveSessionRule(r, _) => s.phase.Up? && r in s.live && r.scope.Some?
    case StoreRule(a, _, _) => Fresh(s, a) && s.hasStore
    case InstallRule(a) => At(s, a) && s.procs[a].AddingRule?
    case ChangeRule(a, _, _) => Fresh(s, a) && s.hasStore
    case LoadRules(a, _) => At(s, a) && s.procs[a].LoadingRules?
    case ReplaceRules(a) => At(s, a) && s.procs[a].ReplacingRules?
  }

  function SetStatus(s: State, id: string, status: Status): State {
    if id in s.mem then s.(mem := s.mem[id := s.mem[id].(status := status)]) else s
  }

  function SetRow(s: State, id: string, status: Status, applied: bool): State {
    if applied then s.(db := UpdateStatus(s.db, id, status)) else s
  }

  function Goto(s: State, a: nat, p: Proc): State {
    s.(procs := s.procs[a := p])
  }

  function End(s: State, a: nat): State {
    s.(procs := s.procs - {a})
  }

  function KillStatus(canceled: bool): Status {
    if canceled then Canceled else Killed
  }

  function RowOf(p: Plan): Decision {
    Decision(p.id, p.action, p.source, p.ruleID)
  }

  function PersistentRules(p: Plan): seq<Rule> {
    if p.action.AllowAlways? then p.rules else []
  }

  /** The store transaction of a decision, run with the request lock held. */
  function CommitStep(s: State, a: nat, p: Plan, outcome: Outcome): State {
    match CommitPending(s.db, RowOf(p), PersistentRules(p))
    case Ok(db) =>
      if outcome.Lost? then End(s, a).(lock := None)
      else
        var t := s.(db := db, commits := s.commits + [p]);
        if outcome.Done? then Goto(t, a, Decided(p)) else End(t, a).(lock := None)
    case Err(_) => End(s, a).(lock := None)
  }

  /** Writing the decision to memory and releasing the lock; without a store this is the commit. */
  function RecordStep(s: State, a: nat, p: Plan): State
    requires p.id in s.mem
  {
    var rec := s.mem[p.id].(status := StatusAfter(p.action), decision := Some(Made(p.action, p.source)));
    var t := s.(mem := s.mem[p.id := rec], lock := None,
                commits := if s.hasStore then s.commits else s.commits + [p]);
    if p.action.Deny? then End(t, a) else Goto(t, a, Installing(p, p.rules))
  }

  function ExecuteStep(s: State, a: nat, id: string, stage: Stage, applied: bool, result: Ending): State
    requires StageEnabled(s, stage)
  {
    var killed := id in s.mem && s.mem[id].status == Killed;
    match stage
    case CheckFirst => if killed then End(s, a) else Goto(s, a, Executor(id, Enqueue))
    case Enqueue =>
      if id in s.mem && s.mem[id].status in {Approved, Queued}
      then Goto(SetStatus(s, id, Queued), a, Executor(id, StoreQueued))
      else Goto(s, a, Executor(id, Acquire))
    case StoreQueued => Goto(SetRow(s, id, Queued, applied), a, Executor(id, Acquire))
    case Acquire => Goto(s, a, Executor(id, CheckAgain)).(slots := s.slots + 1)
    case CheckAgain => Goto(s, a, Executor(id, if killed then Release else MarkRunning))
    case MarkRunning => Goto(SetStatus(s, id, Running), a, Executor(id, StoreRunning))
    case StoreRunning => Goto(SetRow(s, id, Running, applied), a, Executor(id, Work))
    case Work => Goto(s, a, Executor(id, StoreResult(result)))
    case StoreResult(r) => Goto(SetRow(s, id, r, applied), a, Executor(id, Finish(r)))
    case Finish(r) => Goto(SetStatus(s, id, r), a, Executor(id, Release))
    case Release => End(s, a).(slots := s.slots - 1)
  }

  /** Enabling an enabled rule, disabling a disabled one or naming no rule is refused. */
  predicate CanChange(t: Tables, change: RuleChange) {
    && change.ruleID in t.rules
    && (change.EnableRule? ==> !t.rules[change.ruleID].enabled)
    && (change.DisableRule? ==> t.rules[change.ruleID].enabled)
  }

  function ChangeRules(t: Tables, change: RuleChange): Tables
    requires CanChange(t, change)
  {
    var id := change.ruleID;
    t.(rules := if change.DeleteRule? then t.rules - {id} else t.rules[id := t.rules[id].(enabled := change.EnableRule?)])
  }

  function AsPermanent(rules: set<Rule>): set<LiveRule> {
    set r | r in rules :: LiveRule(None, r)
  }

  function SessionRules(live: set<LiveRule>): set<LiveRule> {
    set r | r in live && r.scope.Some?
  }

  function RehydrateStep(s: State, id: string, wrote: bool, read: bool): State
    requires id in s.db.requests
  {
    var row := s.db.requests[id];
    var status := if row.status == Running then Failed else row.status;
    var decision := if read && id in s.db.decisions
                    then Some(Made(s.db.decisions[id].action, s.db.decisions[id].source)) else None;
    SetRow(s, id, status, wrote).(mem := s.mem[id := Rec(row.about, status, decision)])
  }

  function Apply(s: State, step: Step): State
    requires Enabled(s, step)
  {
    match step
    case Crash => s.(phase := Down, mem := map[], live := {}, lock := None, slots := 0, procs := map[])
    case Boot(loaded) => s.(phase := Booting, live := if loaded then AsPermanent(EnabledRules(s.db)) else {})
    case Rehydrate(id, wrote, read) => RehydrateStep(s, id, wrote, read)
    case Open => s.(phase := Up)
    case Create(a, id, about, outcome) =>
      var t := s.(used := s.used + {id});
      if !s.hasStore then Goto(t, a, Creating(id, about))
      else if outcome.Lost? then t
      else
        var u := t.(db := t.db.(requests := t.db.requests[id := RequestRow(about, Pending)]));
        if outcome.Done? then Goto(u, a, Creating(id, about)) else u
    case Remember(a) =>
      var p := s.procs[a];
      Goto(s.(mem := s.mem[p.id := Rec(p.about, Pending, None)]), a, Submitted(p.id))
    case AutoDecide(a, plan) => Goto(s, a, Deciding(plan)).(lock := Some(a))
    case AutoSkip(a) => End(s, a)
    case Decide(a, plan) => Goto(s, a, Deciding(plan)).(lock := Some(a))
    case Commit(a, outcome) => CommitStep(s, a, s.procs[a].plan, outcome)
    case Record(a) => RecordStep(s, a, s.procs[a].plan)
    case Install(a) =>
      var p := s.procs[a];
      var scope := if p.plan.action.AllowSession? then Some(p.plan.session) else None;
      Goto(s, a, Installing(p.plan, p.left[1..])).(live := s.live + {LiveRule(scope, p.left[0])})
    case Dispatch(a) =>
      var id := s.procs[a].plan.id;
      Goto(s, a, Executor(id, CheckFirst)).(dispatches := s.dispatches + [id])
    case KillRead(a, id) => Goto(s, a, Killing(id, s.mem[id].status))
    case KillWrite(a) =>
      var canceled := s.procs[a].seen == Pending;
      Goto(SetStatus(s, s.procs[a].id, KillStatus(canceled)), a, KillStoring(s.procs[a].id, canceled))
    case KillStore(a, applied) => End(SetRow(s, s.procs[a].id, KillStatus(s.procs[a].canceled), applied), a)
    case Execute(a, applied, result) => ExecuteStep(s, a, s.procs[a].id, s.procs[a].stage, applied, result)
    case AddSessionRule(session, rule) =>
      s.(live := s.live + {LiveRule(Some(session), rule)}, manual := s.manual + {LiveRule(Some(session), rule)})
    case RemoveSessionRule(rule, last) => if last then s.(live := s.live - {rule}) else s
    case StoreRule(a, rule, outcome) =>
      match InsertRule(s.db.rules, rule) {
        case Ok(rules) =>
          if outcome.Lost? then s
          else
            var t := s.(db := s.db.(rules := rules),
                        manual := s.manual + {LiveRule(None, rule), LiveRule(None, Persisted(rule))});
            if outcome.Done? then Goto(t, a, AddingRule(rule)) else t
        case Err(_) => s
      }
    case InstallRule(a) => End(s, a).(live := s.live + {LiveRule(None, s.procs[a].rule)})
    case ChangeRule(a, change, outcome) =>
      if !CanChange(s.db, change) || outcome.Lost? then s
      else
        var t := s.(db := ChangeRules(s.db, change),
                    deleted := s.deleted + if change.DeleteRule? then {change.ruleID} else {});
        if outcome.Done? then Goto(t, a, LoadingRules) else t
    case LoadRules(a, loaded) => if loaded then Goto(s, a, ReplacingRules(EnabledRules(s.db))) else End(s, a)
    case ReplaceRules(a) => End(s, a).(live := SessionRules(s.live) + AsPermanent(s.procs[a].loaded))
  }

  // ---------------------------------------------------------------- runs

  ghost predicate CanRunSteps(s: State, steps: seq<Step>)
    decreases |steps|
  {
    steps == [] || (Enabled(s, steps[0]) && CanRunSteps(Apply(s, steps[0]), steps[1..]))
  }

  function RunSteps(s: State, steps: seq<Step>): State
    requires CanRunSteps(s, steps)
    decreases |steps|
  {
    if steps == [] then s else RunSteps(Apply(s, steps[0]), steps[1..])
  }

  ghost predicate Leads(s: State, t: State) {
    exists steps :: CanRunSteps(s, steps) && RunSteps(s, steps) == t
  }

  lemma {:induction false} RunThenStep(s: State, steps: seq<Step>, step: Step)
    requires CanRunSteps(s, steps) && Enabled(RunSteps(s, steps), step)
    ensures CanRunSteps(s, steps + [step]) && RunSteps(s, steps + [step]) == Apply(RunSteps(s, steps), step)
    decreases |steps|
  {
    if steps == [] {
      assert [step][1..] == [];
      assert steps + [step] == [step];
    } else {
      assert (steps + [step])[1..] == steps[1..] + [step];
      RunThenStep(Apply(s, steps[0]), steps[1..], step);
    }
  }

  lemma Further(s: State, t: State, step: Step) returns (u: State)
    requires Leads(s, t) && Enabled(t, step)
    ensures u == Apply(t, step) && Leads(s, u)
  {
    u := Apply(t, step);
    var steps :| CanRunSteps(s, steps) && RunSteps(s, steps) == t;
    RunThenStep(s, steps, step);
  }

  lemma Stay(s: State)
    ensures Leads(s, s)
  {
    assert CanRunSteps(s, []) && RunSteps(s, []) == s;
  }

  /** Before the first start: an empty store, nothing running. */
  function Initial(hasStore: bool, maxConcurrency: nat): State {
    State(hasStore, maxConcurrency, Down, map[], Tables(map[], map[], map[]), {}, None, 0, map[], {}, [], [], {}, {})
  }
}
