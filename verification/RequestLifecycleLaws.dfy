/** What every step of the request protocol keeps, in every interleaving and across crashes. */
module RequestLifecycleLaws {
  import opened Text
  import opened RuleEngine
  import opened Store
  import opened RequestLifecycle

  // ---------------------------------------------------------------- the invariant

  predicate IsCommitted(commits: seq<Plan>, id: string) {
    exists i :: 0 <= i < |commits| && commits[i].id == id
  }

  predicate Unknown(s: State, id: string) {
    id in s.used && id !in s.mem && !IsCommitted(s.commits, id)
  }

  predicate StoreOnlyIfAny(s: State) {
    !s.hasStore ==> s.db == Tables(map[], map[], map[])
  }

  /** Every id in use was drawn, and an id still being created is nobody else's. */
  predicate IdsOk(s: State) {
    && s.mem.Keys <= s.used
    && s.db.requests.Keys <= s.used
    && (forall i :: 0 <= i < |s.commits| ==> s.commits[i].id in s.used)
    && (forall a :: a in s.procs && s.procs[a].Creating? ==> Unknown(s, s.procs[a].id))
    && (forall a, b :: a in s.procs && b in s.procs && a != b && s.procs[a].Creating? && s.procs[b].Creating?
          ==> s.procs[a].id != s.procs[b].id)
    && StoreOnlyIfAny(s)
  }

  predicate HoldsLock(p: Proc) {
    p.Deciding? || p.Decided?
  }

  /** The lock is held exactly by the goroutine in a decision, whose request stays pending in memory. */
  predicate LockOk(s: State) {
    && (s.lock.Some? ==> s.lock.value in s.procs)
    && (forall a :: a in s.procs ==> (HoldsLock(s.procs[a]) <==> s.lock == Some(a)))
    && (forall a :: a in s.procs && HoldsLock(s.procs[a]) ==>
          s.procs[a].plan.id in s.mem && s.mem[s.procs[a].plan.id].status == Pending)
    && (forall a :: a in s.procs && s.procs[a].Decided? ==> s.hasStore)
  }

  /** One commit a request; a committed request is pending nowhere it could be consumed again. */
  predicate CommitsOk(s: State) {
    && (forall i, j :: 0 <= i < j < |s.commits| ==> s.commits[i].id != s.commits[j].id)
    && (s.hasStore ==> forall i :: 0 <= i < |s.commits| ==>
          && s.commits[i].id in s.db.requests && s.db.requests[s.commits[i].id].status != Pending
          && s.commits[i].id in s.db.decisions && s.db.decisions[s.commits[i].id] == RowOf(s.commits[i]))
    && (forall id :: id in s.db.decisions ==> IsCommitted(s.commits, id))
    && (!s.hasStore ==> forall i :: 0 <= i < |s.commits| && s.commits[i].id in s.mem ==>
          s.mem[s.commits[i].id].status != Pending)
  }

  /** The request a goroutine may still execute, or is executing. */
  function Owned(p: Proc): Option<string> {
    match p
    case Decided(plan) => if plan.action.Deny? then None else Some(plan.id)
    case Installing(plan, _) => Some(plan.id)
    case Executor(id, _) => Some(id)
    case _ => None
  }

  predicate Approves(commits: seq<Plan>, id: string) {
    exists i :: 0 <= i < |commits| && commits[i].id == id && commits[i].action != Deny
  }

  /** The right to execute a request is with one goroutine, from an allowing commit to its end. */
  predicate OwnersOk(s: State) {
    && (forall a, b :: a in s.procs && b in s.procs && a != b && Owned(s.procs[a]).Some? ==>
          Owned(s.procs[a]) != Owned(s.procs[b]))
    && (forall a :: a in s.procs && (s.procs[a].Decided? || s.procs[a].Installing?) ==> s.procs[a].plan in s.commits)
    && (forall a :: a in s.procs && s.procs[a].Installing? ==> s.procs[a].plan.action != Deny)
    && (forall a :: a in s.procs && Owned(s.procs[a]).Some? ==>
          (s.procs[a].Executor? <==> Owned(s.procs[a]).value in s.dispatches))
    && (forall i, j :: 0 <= i < j < |s.dispatches| ==> s.dispatches[i] != s.dispatches[j])
    && (forall i :: 0 <= i < |s.dispatches| ==> Approves(s.commits, s.dispatches[i]))
  }

  predicate CommittedAs(commits: seq<Plan>, id: string, made: Made) {
    exists i :: 0 <= i < |commits| && commits[i].id == id && made == Made(commits[i].action, commits[i].source)
  }

  /** A decision in memory is the committed one. */
  predicate MemoryOk(s: State) {
    forall id :: id in s.mem && s.mem[id].decision.Some? ==> CommittedAs(s.commits, id, s.mem[id].decision.value)
  }

  predicate Grants(c: Plan, r: LiveRule) {
    || (c.action.AllowSession? && r.scope == Some(c.session) && r.rule in c.rules)
    || (c.action.AllowAlways? && r.scope == None && exists q :: q in c.rules && (r.rule == q || r.rule == Persisted(q)))
  }

  /** Added by hand, or created by a decision that is already committed. */
  predicate Authored(commits: seq<Plan>, manual: set<LiveRule>, r: LiveRule) {
    r in manual || exists c :: c in commits && Grants(c, r)
  }

  predicate ViaAuthored(commits: seq<Plan>, manual: set<LiveRule>, p: Plan) {
    forall r :: r in p.via ==> Authored(commits, manual, r)
  }

  /** No rule is live, loaded or stored unless it was added by hand or its decision is committed. */
  predicate RulesOk(s: State) {
    && (forall r :: r in s.live ==> Authored(s.commits, s.manual, r))
    && (forall id :: id in s.db.rules ==> Authored(s.commits, s.manual, LiveRule(None, s.db.rules[id].rule)))
    && (forall a, r :: a in s.procs && s.procs[a].ReplacingRules? && r in s.procs[a].loaded ==>
          Authored(s.commits, s.manual, LiveRule(None, r)))
    && (forall a :: a in s.procs && s.procs[a].AddingRule? ==> LiveRule(None, s.procs[a].rule) in s.manual)
    && (forall a :: a in s.procs && s.procs[a].Installing? ==>
          s.procs[a].plan in s.commits && forall r :: r in s.procs[a].left ==> r in s.procs[a].plan.rules)
    && (forall a :: a in s.procs && s.procs[a].Deciding? ==> ViaAuthored(s.commits, s.manual, s.procs[a].plan))
  }

  predicate PlanShape(p: Plan) {
    ManualPlan(p) || RulePlan(p)
  }

  /** Plans are what the planner makes, and the permanent rules of a committed ALLOW_ALWAYS are in the
      store, unless deleted there since. */
  predicate StoredOk(s: State) {
    && (forall i :: 0 <= i < |s.commits| ==> PlanShape(s.commits[i]))
    && (forall a :: a in s.procs && HoldsLock(s.procs[a]) ==> PlanShape(s.procs[a].plan))
    && (s.hasStore ==>
          forall i, r :: 0 <= i < |s.commits| && s.commits[i].action.AllowAlways? && r in s.commits[i].rules ==>
            r.id in s.deleted || (r.id in s.db.rules && s.db.rules[r.id].rule == Persisted(r)))
  }

  /** Authority goes back to a person: what an automatic approval rests on was there before it. */
  predicate ChainOk(s: State) {
    forall i :: 0 <= i < |s.commits| ==> ViaAuthored(s.commits[..i], s.manual, s.commits[i])
  }

  predicate InSlot(p: Proc) {
    && p.Executor?
    && (p.stage.CheckAgain? || p.stage.MarkRunning? || p.stage.StoreRunning? || p.stage.Work? || p.stage.StoreResult?
        || p.stage.Finish? || p.stage.Release?)
  }

  function Guarded(procs: map<nat, Proc>): set<nat> {
    set a | a in procs && InSlot(procs[a])
  }

  predicate SlotsOk(s: State) {
    s.slots == |Guarded(s.procs)| && s.slots <= s.maxConcurrency
  }

  predicate RunsRequest(p: Proc, id: string) {
    p.Executor? && p.id == id && (p.stage.StoreRunning? || p.stage.Work? || p.stage.StoreResult? || p.stage.Finish?)
  }

  /** A request marked RUNNING is inside some executor's guarded section. */
  predicate RunningOk(s: State) {
    forall id :: id in s.mem && s.mem[id].status == Running ==> exists a :: a in s.procs && RunsRequest(s.procs[a], id)
  }

  predicate PhaseOk(s: State) {
    && (!s.phase.Up? ==> s.procs == map[] && s.lock == None && s.slots == 0)
    && (s.phase.Down? ==> s.mem == map[] && s.live == {})
  }

  predicate Inv(s: State) {
    && IdsOk(s) && LockOk(s) && CommitsOk(s) && OwnersOk(s) && MemoryOk(s) && RulesOk(s) && StoredOk(s) && ChainOk(s)
    && SlotsOk(s) && RunningOk(s) && PhaseOk(s)
  }

  lemma InitialOk(hasStore: bool, maxConcurrency: nat)
    ensures Inv(Initial(hasStore, maxConcurrency))
  {
  }

  // ---------------------------------------------------------------- frames

  lemma CommittedMore(commits: seq<Plan>, p: Plan)
    ensures forall id :: IsCommitted(commits + [p], id) <==> IsCommitted(commits, id) || id == p.id
    ensures forall id :: Approves(commits, id) ==> Approves(commits + [p], id)
    ensures forall id, made :: CommittedAs(commits, id, made) ==> CommittedAs(commits + [p], id, made)
  {
    var more := commits + [p];
    forall id, made | CommittedAs(commits, id, made)
      ensures CommittedAs(more, id, made)
    {
      var i :| 0 <= i < |commits| && commits[i].id == id && made == Made(commits[i].action, commits[i].source);
      assert more[i] == commits[i];
    }
    forall id
      ensures IsCommitted(more, id) <==> IsCommitted(commits, id) || id == p.id
      ensures Approves(commits, id) ==> Approves(more, id)
    {
      if IsCommitted(commits, id) {
        var i :| 0 <= i < |commits| && commits[i].id == id;
        assert more[i].id == id;
      }
      if Approves(commits, id) {
        var i :| 0 <= i < |commits| && commits[i].id == id && commits[i].action != Deny;
        assert more[i].id == id && more[i].action != Deny;
      }
      assert more[|commits|].id == p.id;
    }
  }

  lemma AuthoredMore(commits: seq<Plan>, more: seq<Plan>, manual: set<LiveRule>, manual': set<LiveRule>)
    requires commits <= more && manual <= manual'
    ensures forall r :: Authored(commits, manual, r) ==> Authored(more, manual', r)
    ensures forall p :: ViaAuthored(commits, manual, p) ==> ViaAuthored(more, manual', p)
  {
    assert forall c :: c in commits ==> c in more;
  }

  lemma GuardedGoto(procs: map<nat, Proc>, a: nat, p: Proc)
    ensures Guarded(procs[a := p]) == if InSlot(p) then Guarded(procs) + {a} else Guarded(procs) - {a}
  {
  }

  lemma GuardedEnd(procs: map<nat, Proc>, a: nat)
    ensures Guarded(procs - {a}) == Guarded(procs) - {a}
  {
  }

  lemma RunningFrame(s: State, t: State)
    requires RunningOk(s)
    requires forall id :: id in t.mem && t.mem[id].status == Running ==>
               && id in s.mem && s.mem[id].status == Running
               && forall a :: a in s.procs && RunsRequest(s.procs[a], id) ==> a in t.procs && RunsRequest(t.procs[a], id)
    ensures RunningOk(t)
  {
    forall id | id in t.mem && t.mem[id].status == Running
      ensures exists a :: a in t.procs && RunsRequest(t.procs[a], id)
    {
      var a :| a in s.procs && RunsRequest(s.procs[a], id);
      assert RunsRequest(t.procs[a], id);
    }
  }

  predicate SameOthers(s: State, t: State, a: nat) {
    && (forall b :: b in t.procs && b != a ==> b in s.procs && t.procs[b] == s.procs[b])
    && (forall b :: b in s.procs && b != a ==> b in t.procs)
  }

  predicate KeepsRole(s: State, t: State, a: nat) {
    a in t.procs && !(a in s.procs && t.procs[a] == s.procs[a]) ==>
      && !t.procs[a].Creating? && !t.procs[a].Decided?
      && (HoldsLock(t.procs[a]) ==> PlanShape(t.procs[a].plan))
      && (if a in s.procs then
            && Owned(t.procs[a]) == Owned(s.procs[a]) && (t.procs[a].Executor? ==> s.procs[a].Executor?)
            && (t.procs[a].Installing? ==> s.procs[a].Installing? && t.procs[a].plan == s.procs[a].plan)
          else Owned(t.procs[a]) == None)
  }

  /** Nothing is created, committed or dispatched: goroutine `a` moves on in its role, statuses may
      leave PENDING but not enter it, rules may change. */
  predicate Calm(s: State, t: State, a: nat) {
    && t == s.(db := t.db, mem := t.mem, procs := t.procs, slots := t.slots, lock := t.lock, live := t.live,
               manual := t.manual, deleted := t.deleted)
    && s.phase.Up? && t.db.decisions == s.db.decisions && s.manual <= t.manual && s.deleted <= t.deleted
    && (forall id :: id in s.db.rules ==>
          id in t.deleted || (id in t.db.rules && t.db.rules[id].rule == s.db.rules[id].rule))
    && t.db.requests.Keys == s.db.requests.Keys && t.mem.Keys == s.mem.Keys && (!s.hasStore ==> t.db == s.db)
    && (forall id :: id in t.db.requests && t.db.requests[id].status == Pending ==> s.db.requests[id].status == Pending)
    && (forall id :: id in t.mem ==>
          t.mem[id].decision == s.mem[id].decision && (t.mem[id].status == Pending ==> s.mem[id].status == Pending))
    && SameOthers(s, t, a) && KeepsRole(s, t, a)
  }

  lemma CalmIds(s: State, t: State, a: nat)
    requires IdsOk(s) && MemoryOk(s) && PhaseOk(s) && Calm(s, t, a)
    ensures IdsOk(t) && MemoryOk(t) && PhaseOk(t)
  {
    forall b | b in t.procs && t.procs[b].Creating?
      ensures Unknown(t, t.procs[b].id)
    {
      assert Unknown(s, s.procs[b].id);
    }
  }

  lemma CalmCommits(s: State, t: State, a: nat)
    requires CommitsOk(s) && Calm(s, t, a)
    ensures CommitsOk(t)
  {
  }

  lemma CalmOwners(s: State, t: State, a: nat)
    requires OwnersOk(s) && Calm(s, t, a)
    ensures OwnersOk(t)
  {
  }

  lemma CalmStored(s: State, t: State, a: nat)
    requires StoredOk(s) && ChainOk(s) && Calm(s, t, a)
    ensures StoredOk(t) && ChainOk(t)
  {
    forall i | 0 <= i < |t.commits|
      ensures ViaAuthored(t.commits[..i], t.manual, t.commits[i])
    {
      AuthoredMore(t.commits[..i], t.commits[..i], s.manual, t.manual);
    }
  }

  lemma CalmKept(s: State, t: State, a: nat)
    requires Inv(s) && Calm(s, t, a) && LockOk(t) && RulesOk(t) && SlotsOk(t) && RunningOk(t)
    ensures Inv(t)
  {
    CalmIds(s, t, a);
    CalmCommits(s, t, a);
    CalmOwners(s, t, a);
    CalmStored(s, t, a);
  }

  predicate Plain(p: Proc) {
    p.Submitted? || p.Killing? || p.KillStoring? || p.Executor?
  }

  /** A calm move of a killer, executor or undecided creator: neither rules nor the lock are touched. */
  predicate Quiet(s: State, t: State, a: nat) {
    && Calm(s, t, a) && t == s.(db := t.db, mem := t.mem, procs := t.procs, slots := t.slots)
    && t.db.rules == s.db.rules && (s.lock.Some? ==> t.mem == s.mem)
    && (a in s.procs ==> Plain(s.procs[a])) && (a in t.procs ==> Plain(t.procs[a]))
  }

  lemma QuietLock(s: State, t: State, a: nat)
    requires LockOk(s) && Quiet(s, t, a)
    ensures LockOk(t)
  {
  }

  lemma QuietRules(s: State, t: State, a: nat)
    requires RulesOk(s) && Quiet(s, t, a)
    ensures RulesOk(t)
  {
  }

  lemma QuietKept(s: State, t: State, a: nat)
    requires Inv(s) && Quiet(s, t, a) && SlotsOk(t) && RunningOk(t)
    ensures Inv(t)
  {
    QuietLock(s, t, a);
    QuietRules(s, t, a);
    CalmKept(s, t, a);
  }

  // ---------------------------------------------------------------- kills and executors

  predicate AtStage(s: State, a: nat, id: string, stage: Stage) {
    At(s, a) && s.procs[a] == Executor(id, stage) && StageEnabled(s, stage)
  }

  predicate WritesMemory(stage: Stage) {
    stage.Enqueue? || stage.MarkRunning? || stage.Finish?
  }

  predicate WritesStore(stage: Stage) {
    stage.StoreQueued? || stage.StoreRunning? || stage.StoreResult?
  }

  lemma GotoQuiet(s: State, a: nat, id: string, stage: Stage, slots: nat)
    requires At(s, a) && s.procs[a].Executor? && s.procs[a].id == id
    ensures Quiet(s, Goto(s, a, Executor(id, stage)).(slots := slots), a)
  {
  }

  lemma EndQuiet(s: State, a: nat, slots: nat)
    requires At(s, a) && Plain(s.procs[a])
    ensures Quiet(s, End(s, a).(slots := slots), a)
  {
  }

  lemma SetRowQuiet(s: State, a: nat, id: string, status: Status, applied: bool, p: Proc)
    requires At(s, a) && Plain(s.procs[a]) && StoreOnlyIfAny(s) && status != Pending
    requires Plain(p) && Owned(p) == Owned(s.procs[a]) && (p.Executor? ==> s.procs[a].Executor?)
    ensures Quiet(s, Goto(SetRow(s, id, status, applied), a, p), a)
  {
  }

  lemma SetStatusQuiet(s: State, a: nat, id: string, status: Status, stage: Stage)
    requires At(s, a) && s.procs[a].Executor? && s.procs[a].id == id && s.lock == None && status != Pending
    ensures Quiet(s, Goto(SetStatus(s, id, status), a, Executor(id, stage)), a)
  {
  }

  lemma ExecuteMemoryQuiet(s: State, a: nat, id: string, stage: Stage, applied: bool, result: Ending)
    requires AtStage(s, a, id, stage) && WritesMemory(stage)
    ensures Quiet(s, ExecuteStep(s, a, id, stage, applied, result), a)
  {
    match stage
    case Enqueue => EnqueueQuiet(s, a, id, applied, result);
    case MarkRunning => SetStatusQuiet(s, a, id, Running, StoreRunning);
    case Finish(r) => SetStatusQuiet(s, a, id, r, Release);
  }

  lemma EnqueueQuiet(s: State, a: nat, id: string, applied: bool, result: Ending)
    requires AtStage(s, a, id, Enqueue)
    ensures Quiet(s, ExecuteStep(s, a, id, Enqueue, applied, result), a)
  {
    if id in s.mem && s.mem[id].status in {Approved, Queued} {
      SetStatusQuiet(s, a, id, Queued, StoreQueued);
    } else {
      GotoQuiet(s, a, id, Acquire, s.slots);
    }
  }

  lemma ExecuteStoreQuiet(s: State, a: nat, id: string, stage: Stage, applied: bool, result: Ending)
    requires AtStage(s, a, id, stage) && WritesStore(stage) && StoreOnlyIfAny(s)
    ensures Quiet(s, ExecuteStep(s, a, id, stage, applied, result), a)
  {
    match stage
    case StoreQueued => SetRowQuiet(s, a, id, Queued, applied, Executor(id, Acquire));
    case StoreRunning => SetRowQuiet(s, a, id, Running, applied, Executor(id, Work));
    case StoreResult(r) => SetRowQuiet(s, a, id, r, applied, Executor(id, Finish(r)));
  }

  lemma ExecutePassQuiet(s: State, a: nat, id: string, stage: Stage, applied: bool, result: Ending)
    requires AtStage(s, a, id, stage) && !WritesMemory(stage) && !WritesStore(stage)
    ensures Quiet(s, ExecuteStep(s, a, id, stage, applied, result), a)
  {
    var t := ExecuteStep(s, a, id, stage, applied, result);
    if a in t.procs {
      GotoQuiet(s, a, id, t.procs[a].stage, t.slots);
    } else {
      EndQuiet(s, a, t.slots);
    }
  }

  lemma ExecuteQuiet(s: State, a: nat, id: string, stage: Stage, applied: bool, result: Ending)
    requires AtStage(s, a, id, stage) && StoreOnlyIfAny(s)
    ensures Quiet(s, ExecuteStep(s, a, id, stage, applied, result), a)
  {
    if WritesMemory(stage) {
      ExecuteMemoryQuiet(s, a, id, stage, applied, result);
    } else if WritesStore(stage) {
      ExecuteStoreQuiet(s, a, id, stage, applied, result);
    } else {
      ExecutePassQuiet(s, a, id, stage, applied, result);
    }
  }

  lemma GuardedByStage(s: State, a: nat, id: string, stage: Stage, applied: bool, result: Ending)
    requires AtStage(s, a, id, stage)
    ensures var g, h := Guarded(s.procs), Guarded(ExecuteStep(s, a, id, stage, applied, result).procs);
            if stage.Acquire? then a !in g && h == g + {a}
            else if stage.Release? then a in g && h == g - {a}
            else h == g
  {
    var t := ExecuteStep(s, a, id, stage, applied, result);
    GuardedEnd(s.procs, a);
    if a in t.procs {
      GuardedGoto(s.procs, a, t.procs[a]);
    }
    assert a in Guarded(s.procs) <==> InSlot(s.procs[a]);
  }

  lemma ExecuteSlots(s: State, a: nat, id: string, stage: Stage, applied: bool, result: Ending)
    requires AtStage(s, a, id, stage) && SlotsOk(s)
    ensures SlotsOk(ExecuteStep(s, a, id, stage, applied, result))
  {
    GuardedByStage(s, a, id, stage, applied, result);
  }

  lemma MarkedIsRunning(s: State, a: nat, id: string)
    requires RunningOk(s) && a in s.procs && s.procs[a] == Executor(id, MarkRunning)
    ensures RunningOk(Goto(SetStatus(s, id, Running), a, Executor(id, StoreRunning)))
  {
    var t := Goto(SetStatus(s, id, Running), a, Executor(id, StoreRunning));
    assert RunsRequest(t.procs[a], id);
    forall other | other in t.mem && t.mem[other].status == Running
      ensures exists b :: b in t.procs && RunsRequest(t.procs[b], other)
    {
      if other != id {
        var b :| b in s.procs && RunsRequest(s.procs[b], other);
        assert RunsRequest(t.procs[b], other);
      }
    }
  }

  lemma ExecuteRunning(s: State, a: nat, id: string, stage: Stage, applied: bool, result: Ending)
    requires AtStage(s, a, id, stage) && RunningOk(s)
    ensures RunningOk(ExecuteStep(s, a, id, stage, applied, result))
  {
    var t := ExecuteStep(s, a, id, stage, applied, result);
    if stage.MarkRunning? {
      MarkedIsRunning(s, a, id);
    } else {
      RunningFrame(s, t);
    }
  }

  lemma ExecuteKept(s: State, a: nat, applied: bool, result: Ending)
    requires Inv(s) && Enabled(s, Execute(a, applied, result))
    ensures Inv(Apply(s, Execute(a, applied, result)))
  {
    var Executor(id, stage) := s.procs[a];
    ExecuteQuiet(s, a, id, stage, applied, result);
    ExecuteSlots(s, a, id, stage, applied, result);
    ExecuteRunning(s, a, id, stage, applied, result);
    QuietKept(s, ExecuteStep(s, a, id, stage, applied, result), a);
  }

  predicate IsKill(step: Step) {
    step.AutoSkip? || step.KillRead? || step.KillWrite? || step.KillStore?
  }

  lemma KillReadQuiet(s: State, a: nat, id: string)
    requires Enabled(s, KillRead(a, id))
    ensures Quiet(s, Apply(s, KillRead(a, id)), a)
  {
  }

  lemma KillWriteQuiet(s: State, a: nat)
    requires Enabled(s, KillWrite(a))
    ensures Quiet(s, Apply(s, KillWrite(a)), a)
  {
  }

  lemma KillStoreQuiet(s: State, a: nat, applied: bool)
    requires Enabled(s, KillStore(a, applied)) && StoreOnlyIfAny(s)
    ensures Quiet(s, Apply(s, KillStore(a, applied)), a)
  {
  }

  lemma KillQuiet(s: State, step: Step)
    requires Enabled(s, step) && IsKill(step) && StoreOnlyIfAny(s)
    ensures Quiet(s, Apply(s, step), step.a)
  {
    match step
    case AutoSkip(a) => EndQuiet(s, a, s.slots);
    case KillRead(a, id) => KillReadQuiet(s, a, id);
    case KillWrite(a) => KillWriteQuiet(s, a);
    case KillStore(a, applied) => KillStoreQuiet(s, a, applied);
  }

  lemma KillSlots(s: State, step: Step)
    requires SlotsOk(s) && Enabled(s, step) && IsKill(step)
    ensures SlotsOk(Apply(s, step))
  {
    var t := Apply(s, step);
    GuardedEnd(s.procs, step.a);
    if step.a in t.procs {
      GuardedGoto(s.procs, step.a, t.procs[step.a]);
    }
    assert Guarded(t.procs) == Guarded(s.procs);
  }

  lemma KillRunning(s: State, step: Step)
    requires RunningOk(s) && Enabled(s, step) && IsKill(step)
    ensures RunningOk(Apply(s, step))
  {
    RunningFrame(s, Apply(s, step));
  }

  lemma KillKept(s: State, step: Step)
    requires Inv(s) && Enabled(s, step) && IsKill(step)
    ensures Inv(Apply(s, step))
  {
    KillQuiet(s, step);
    KillSlots(s, step);
    KillRunning(s, step);
    QuietKept(s, Apply(s, step), step.a);
  }

  // ---------------------------------------------------------------- steps outside the guarded section

  predicate Outside(s: State, t: State, a: nat) {
    && SameOthers(s, t, a) && t.slots == s.slots && t.maxConcurrency == s.maxConcurrency
    && (a in s.procs ==> !InSlot(s.procs[a])) && (a in t.procs ==> !InSlot(t.procs[a]))
    && (forall id :: id in t.mem && t.mem[id].status == Running ==> id in s.mem && s.mem[id].status == Running)
  }

  lemma OutsideKept(s: State, t: State, a: nat)
    requires SlotsOk(s) && RunningOk(s) && Outside(s, t, a)
    ensures SlotsOk(t) && RunningOk(t)
  {
    assert Guarded(t.procs) == Guarded(s.procs);
    forall b, id | b in s.procs && RunsRequest(s.procs[b], id)
      ensures b in t.procs && RunsRequest(t.procs[b], id)
    {
      assert InSlot(s.procs[b]);
    }
    RunningFrame(s, t);
  }

  lemma CalmOutsideKept(s: State, t: State, a: nat)
    requires Inv(s) && Calm(s, t, a) && Outside(s, t, a) && LockOk(t) && RulesOk(t)
    ensures Inv(t)
  {
    OutsideKept(s, t, a);
    CalmKept(s, t, a);
  }

  /** The lock and what it protects are left alone. */
  predicate OffLock(s: State, t: State, a: nat) {
    && t.lock == s.lock && t.mem == s.mem && t.hasStore == s.hasStore
    && (a in s.procs ==> !HoldsLock(s.procs[a])) && (a in t.procs ==> !HoldsLock(t.procs[a]))
  }

  lemma OffLockKept(s: State, t: State, a: nat)
    requires LockOk(s) && SameOthers(s, t, a) && OffLock(s, t, a)
    ensures LockOk(t)
  {
  }

  // ---------------------------------------------------------------- taking and dropping the lock

  lemma TakeLockKept(s: State, a: nat, plan: Plan)
    requires Inv(s) && s.phase.Up? && CanDecide(s, plan) && PlanShape(plan) && ViaAuthored(s.commits, s.manual, plan)
    requires a in s.procs ==> s.procs[a].Submitted?
    ensures Inv(Goto(s, a, Deciding(plan)).(lock := Some(a)))
  {
    TakeLockRules(s, a, plan);
    TakeLock(s, a, plan);
    TakeLockCalm(s, a, plan);
    CalmOutsideKept(s, Goto(s, a, Deciding(plan)).(lock := Some(a)), a);
  }

  lemma TakeLockCalm(s: State, a: nat, plan: Plan)
    requires s.phase.Up? && PlanShape(plan) && (a in s.procs ==> s.procs[a].Submitted?)
    ensures var t := Goto(s, a, Deciding(plan)).(lock := Some(a)); Calm(s, t, a) && Outside(s, t, a)
  {
  }

  lemma TakeLock(s: State, a: nat, plan: Plan)
    requires LockOk(s) && CanDecide(s, plan)
    ensures LockOk(Goto(s, a, Deciding(plan)).(lock := Some(a)))
  {
  }

  lemma TakeLockRules(s: State, a: nat, plan: Plan)
    requires RulesOk(s) && ViaAuthored(s.commits, s.manual, plan)
    ensures RulesOk(Goto(s, a, Deciding(plan)).(lock := Some(a)))
  {
  }

  lemma DecideKept(s: State, a: nat, plan: Plan)
    requires Inv(s) && Enabled(s, Decide(a, plan))
    ensures Inv(Apply(s, Decide(a, plan)))
  {
    TakeLockKept(s, a, plan);
  }

  lemma AutoDecideKept(s: State, a: nat, plan: Plan)
    requires Inv(s) && Enabled(s, AutoDecide(a, plan))
    ensures Inv(Apply(s, AutoDecide(a, plan)))
  {
    TakeLockKept(s, a, plan);
  }

  lemma DropLock(s: State, a: nat)
    requires LockOk(s) && a in s.procs && s.procs[a].Deciding?
    ensures LockOk(End(s, a).(lock := None))
  {
  }

  lemma DropRules(s: State, a: nat)
    requires RulesOk(s) && a in s.procs
    ensures RulesOk(End(s, a).(lock := None))
  {
  }

  lemma DropKept(s: State, a: nat)
    requires Inv(s) && a in s.procs && s.procs[a].Deciding?
    ensures Inv(End(s, a).(lock := None))
  {
    DropLock(s, a);
    DropRules(s, a);
    DropCalm(s, a);
    CalmOutsideKept(s, End(s, a).(lock := None), a);
  }

  lemma DropCalm(s: State, a: nat)
    requires PhaseOk(s) && a in s.procs && s.procs[a].Deciding?
    ensures var t := End(s, a).(lock := None); Calm(s, t, a) && Outside(s, t, a)
  {
  }

  // ---------------------------------------------------------------- creation

  lemma CreateIds(s: State, a: nat, id: string, about: Submission, outcome: Outcome)
    requires IdsOk(s) && Enabled(s, Create(a, id, about, outcome))
    ensures IdsOk(Apply(s, Create(a, id, about, outcome)))
  {
  }

  lemma CreateCommits(s: State, a: nat, id: string, about: Submission, outcome: Outcome)
    requires IdsOk(s) && CommitsOk(s) && Enabled(s, Create(a, id, about, outcome))
    ensures CommitsOk(Apply(s, Create(a, id, about, outcome)))
  {
  }

  lemma CreateLock(s: State, a: nat, id: string, about: Submission, outcome: Outcome)
    requires LockOk(s) && MemoryOk(s) && ChainOk(s) && PhaseOk(s) && Enabled(s, Create(a, id, about, outcome))
    ensures var t := Apply(s, Create(a, id, about, outcome)); LockOk(t) && MemoryOk(t) && ChainOk(t) && PhaseOk(t)
  {
  }

  lemma CreateOwners(s: State, a: nat, id: string, about: Submission, outcome: Outcome)
    requires OwnersOk(s) && Enabled(s, Create(a, id, about, outcome))
    ensures OwnersOk(Apply(s, Create(a, id, about, outcome)))
  {
  }

  lemma CreateRules(s: State, a: nat, id: string, about: Submission, outcome: Outcome)
    requires RulesOk(s) && Enabled(s, Create(a, id, about, outcome))
    ensures RulesOk(Apply(s, Create(a, id, about, outcome)))
  {
  }

  lemma CreateStored(s: State, a: nat, id: string, about: Submission, outcome: Outcome)
    requires StoredOk(s) && Enabled(s, Create(a, id, about, outcome))
    ensures StoredOk(Apply(s, Create(a, id, about, outcome)))
  {
  }

  lemma CreateOutside(s: State, a: nat, id: string, about: Submission, outcome: Outcome)
    requires Enabled(s, Create(a, id, about, outcome))
    ensures Outside(s, Apply(s, Create(a, id, about, outcome)), a)
  {
  }

  lemma CreateKept(s: State, a: nat, id: string, about: Submission, outcome: Outcome)
    requires Inv(s) && Enabled(s, Create(a, id, about, outcome))
    ensures Inv(Apply(s, Create(a, id, about, outcome)))
  {
    CreateIds(s, a, id, about, outcome);
    CreateCommits(s, a, id, about, outcome);
    CreateLock(s, a, id, about, outcome);
    CreateOwners(s, a, id, about, outcome);
    CreateRules(s, a, id, about, outcome);
    CreateStored(s, a, id, about, outcome);
    CreateOutside(s, a, id, about, outcome);
    OutsideKept(s, Apply(s, Create(a, id, about, outcome)), a);
  }

  lemma RememberIds(s: State, a: nat)
    requires IdsOk(s) && Enabled(s, Remember(a))
    ensures IdsOk(Apply(s, Remember(a)))
  {
    assert Unknown(s, s.procs[a].id);
  }

  lemma RememberCommits(s: State, a: nat)
    requires IdsOk(s) && MemoryOk(s) && CommitsOk(s) && Enabled(s, Remember(a))
    ensures var t := Apply(s, Remember(a)); MemoryOk(t) && CommitsOk(t)
  {
    assert Unknown(s, s.procs[a].id);
  }

  lemma RememberRest(s: State, a: nat)
    requires LockOk(s) && ChainOk(s) && PhaseOk(s) && Enabled(s, Remember(a))
    ensures var t := Apply(s, Remember(a)); LockOk(t) && ChainOk(t) && PhaseOk(t)
  {
  }

  lemma RememberOwners(s: State, a: nat)
    requires OwnersOk(s) && Enabled(s, Remember(a))
    ensures OwnersOk(Apply(s, Remember(a)))
  {
  }

  lemma RememberStored(s: State, a: nat)
    requires StoredOk(s) && Enabled(s, Remember(a))
    ensures StoredOk(Apply(s, Remember(a)))
  {
  }

  lemma RememberRules(s: State, a: nat)
    requires RulesOk(s) && Enabled(s, Remember(a))
    ensures var t := Apply(s, Remember(a)); RulesOk(t) && Outside(s, t, a)
  {
  }

  lemma RememberKept(s: State, a: nat)
    requires Inv(s) && Enabled(s, Remember(a))
    ensures Inv(Apply(s, Remember(a)))
  {
    RememberIds(s, a);
    RememberCommits(s, a);
    RememberRest(s, a);
    RememberOwners(s, a);
    RememberStored(s, a);
    RememberRules(s, a);
    OutsideKept(s, Apply(s, Remember(a)), a);
  }

  // ---------------------------------------------------------------- commit

  /** The store part of a commit, the goroutine still deciding. */
  function Consumed(s: State, p: Plan, db: Tables): State {
    s.(db := db, commits := s.commits + [p])
  }

  lemma NotYetCommitted(s: State, p: Plan)
    requires CommitsOk(s) && s.hasStore && CommitPending(s.db, RowOf(p), PersistentRules(p)).Ok?
    ensures !IsCommitted(s.commits, p.id)
  {
  }

  lemma ConsumedCommits(s: State, p: Plan, db: Tables)
    requires IdsOk(s) && CommitsOk(s) && s.hasStore && CommitPending(s.db, RowOf(p), PersistentRules(p)) == Ok(db)
    ensures CommitsOk(Consumed(s, p, db))
  {
    NotYetCommitted(s, p);
    CommitEffect(s.db, RowOf(p), PersistentRules(p));
    CommittedMore(s.commits, p);
    assert IsCommitted(s.commits + [p], p.id);
  }

  lemma ConsumedIds(s: State, p: Plan, db: Tables)
    requires IdsOk(s) && s.hasStore && p.id in s.mem && CommitPending(s.db, RowOf(p), PersistentRules(p)) == Ok(db)
    ensures IdsOk(Consumed(s, p, db))
  {
    CommitEffect(s.db, RowOf(p), PersistentRules(p));
    CommittedMore(s.commits, p);
  }

  lemma ConsumedOwners(s: State, p: Plan, db: Tables)
    requires LockOk(s) && OwnersOk(s) && MemoryOk(s)
    ensures var t := Consumed(s, p, db); LockOk(t) && OwnersOk(t) && MemoryOk(t)
  {
    CommittedMore(s.commits, p);
  }

  lemma ConsumedRules(s: State, p: Plan, db: Tables)
    requires RulesOk(s) && CommitPending(s.db, RowOf(p), PersistentRules(p)) == Ok(db)
    ensures RulesOk(Consumed(s, p, db))
  {
    var t := Consumed(s, p, db);
    CommitEffect(s.db, RowOf(p), PersistentRules(p));
    AuthoredMore(s.commits, t.commits, s.manual, s.manual);
    forall id | id in db.rules
      ensures Authored(t.commits, t.manual, LiveRule(None, db.rules[id].rule))
    {
      if id !in s.db.rules {
        var r :| r in PersistentRules(p) && r.id == id;
        assert Grants(p, LiveRule(None, Persisted(r)));
        assert p in t.commits;
      }
    }
  }

  lemma ConsumedStored(s: State, p: Plan, db: Tables)
    requires StoredOk(s) && PlanShape(p) && CommitPending(s.db, RowOf(p), PersistentRules(p)) == Ok(db)
    ensures StoredOk(Consumed(s, p, db))
  {
    CommitEffect(s.db, RowOf(p), PersistentRules(p));
  }

  lemma ConsumedChain(s: State, p: Plan, db: Tables)
    requires ChainOk(s) && ViaAuthored(s.commits, s.manual, p)
    ensures ChainOk(Consumed(s, p, db))
  {
    var t := Consumed(s, p, db);
    forall i | 0 <= i < |t.commits|
      ensures ViaAuthored(t.commits[..i], t.manual, t.commits[i])
    {
      assert t.commits[..i] == s.commits[..i];
      if i == |s.commits| {
        assert s.commits[..i] == s.commits;
      }
    }
  }

  /** Goroutine `a` is about to run the store transaction of this decision. */
  predicate Committing(s: State, a: nat, p: Plan) {
    s.phase.Up? && s.hasStore && a in s.procs && s.procs[a] == Deciding(p)
  }

  lemma ConsumedKept(s: State, a: nat, p: Plan, db: Tables)
    requires Inv(s) && Committing(s, a, p) && CommitPending(s.db, RowOf(p), PersistentRules(p)) == Ok(db)
    ensures Inv(Consumed(s, p, db))
  {
    assert HoldsLock(s.procs[a]);
    ConsumedCommits(s, p, db);
    ConsumedIds(s, p, db);
    ConsumedOwners(s, p, db);
    ConsumedRules(s, p, db);
    ConsumedStored(s, p, db);
    ConsumedChain(s, p, db);
  }

  lemma PromoteLock(s: State, a: nat)
    requires LockOk(s) && StoredOk(s) && s.hasStore && a in s.procs && s.procs[a].Deciding?
    ensures var t := Goto(s, a, Decided(s.procs[a].plan)); LockOk(t) && StoredOk(t)
  {
  }

  lemma PromoteOwners(s: State, a: nat)
    requires OwnersOk(s) && a in s.procs && s.procs[a].Deciding? && s.procs[a].plan in s.commits
    requires forall b :: b in s.procs ==> Owned(s.procs[b]) != Some(s.procs[a].plan.id)
    requires s.procs[a].plan.id !in s.dispatches
    ensures OwnersOk(Goto(s, a, Decided(s.procs[a].plan)))
  {
  }

  lemma PromoteRules(s: State, a: nat)
    requires RulesOk(s) && a in s.procs && s.procs[a].Deciding?
    ensures RulesOk(Goto(s, a, Decided(s.procs[a].plan)))
  {
  }

  lemma PromoteIds(s: State, a: nat)
    requires IdsOk(s) && a in s.procs && s.procs[a].Deciding?
    ensures IdsOk(Goto(s, a, Decided(s.procs[a].plan)))
  {
  }

  /** The goroutine learns that its commit took effect. */
  lemma PromoteKept(s: State, a: nat)
    requires Inv(s) && s.hasStore && a in s.procs && s.procs[a].Deciding? && s.procs[a].plan in s.commits
    requires forall b :: b in s.procs ==> Owned(s.procs[b]) != Some(s.procs[a].plan.id)
    requires s.procs[a].plan.id !in s.dispatches
    ensures Inv(Goto(s, a, Decided(s.procs[a].plan)))
  {
    PromoteLock(s, a);
    PromoteOwners(s, a);
    PromoteRules(s, a);
    PromoteIds(s, a);
    PromoteRest(s, a);
    OutsideKept(s, Goto(s, a, Decided(s.procs[a].plan)), a);
  }

  lemma PromoteRest(s: State, a: nat)
    requires CommitsOk(s) && MemoryOk(s) && ChainOk(s) && PhaseOk(s) && a in s.procs && s.procs[a].Deciding?
    ensures var t := Goto(s, a, Decided(s.procs[a].plan));
            CommitsOk(t) && MemoryOk(t) && ChainOk(t) && PhaseOk(t) && Outside(s, t, a)
  {
  }

  /** Nobody owns a request that is not committed. */
  lemma NoOwnerYet(s: State, id: string)
    requires OwnersOk(s) && !IsCommitted(s.commits, id)
    ensures id !in s.dispatches && forall b :: b in s.procs ==> Owned(s.procs[b]) != Some(id)
  {
    forall b | b in s.procs
      ensures Owned(s.procs[b]) != Some(id)
    {
      if s.procs[b].Decided? || s.procs[b].Installing? {
        var k :| 0 <= k < |s.commits| && s.commits[k] == s.procs[b].plan;
      }
    }
  }

  lemma CommitLearned(s: State, a: nat, p: Plan, db: Tables)
    requires Inv(s) && Committing(s, a, p) && CommitPending(s.db, RowOf(p), PersistentRules(p)) == Ok(db)
    ensures Inv(Goto(Consumed(s, p, db), a, Decided(p)))
  {
    var t := Consumed(s, p, db);
    ConsumedKept(s, a, p, db);
    NotYetCommitted(s, p);
    NoOwnerYet(s, p.id);
    assert p in t.commits;
    PromoteKept(t, a);
  }

  lemma CommitFailed(s: State, a: nat, p: Plan, outcome: Outcome)
    requires Inv(s) && Committing(s, a, p)
    requires CommitPending(s.db, RowOf(p), PersistentRules(p)).Err? || outcome.Lost?
    ensures Inv(CommitStep(s, a, p, outcome))
  {
    DropKept(s, a);
  }

  lemma CommitUnsure(s: State, a: nat, p: Plan, db: Tables)
    requires Inv(s) && Committing(s, a, p) && CommitPending(s.db, RowOf(p), PersistentRules(p)) == Ok(db)
    ensures Inv(End(Consumed(s, p, db), a).(lock := None))
  {
    ConsumedKept(s, a, p, db);
    DropKept(Consumed(s, p, db), a);
  }

  lemma CommitStepKept(s: State, a: nat, p: Plan, outcome: Outcome)
    requires Inv(s) && Committing(s, a, p)
    ensures Inv(CommitStep(s, a, p, outcome))
  {
    var r := CommitPending(s.db, RowOf(p), PersistentRules(p));
    if r.Err? || outcome.Lost? {
      CommitFailed(s, a, p, outcome);
    } else if outcome.Unsure? {
      CommitUnsure(s, a, p, r.value);
    } else {
      CommitLearned(s, a, p, r.value);
    }
  }

  lemma CommitKept(s: State, a: nat, outcome: Outcome)
    requires Inv(s) && Enabled(s, Commit(a, outcome))
    ensures Inv(Apply(s, Commit(a, outcome)))
  {
    CommitStepKept(s, a, s.procs[a].plan, outcome);
  }

  // ---------------------------------------------------------------- record, install, dispatch

  predicate Recording(s: State, a: nat, p: Plan) {
    && a in s.procs && HoldsLock(s.procs[a]) && s.procs[a].plan == p && p.id in s.mem && s.phase.Up?
    && (if s.hasStore then s.procs[a].Decided? && p in s.commits else s.procs[a].Deciding? && !IsCommitted(s.commits, p.id))
  }

  lemma RecordIds(s: State, a: nat, p: Plan)
    requires IdsOk(s) && StoredOk(s) && Recording(s, a, p)
    ensures var t := RecordStep(s, a, p); IdsOk(t) && StoredOk(t)
  {
    CommittedMore(s.commits, p);
  }

  lemma RecordLock(s: State, a: nat, p: Plan)
    requires LockOk(s) && Recording(s, a, p)
    ensures LockOk(RecordStep(s, a, p))
  {
  }

  lemma RecordCommits(s: State, a: nat, p: Plan)
    requires CommitsOk(s) && Recording(s, a, p)
    ensures CommitsOk(RecordStep(s, a, p))
  {
    CommittedMore(s.commits, p);
  }

  lemma RecordOwners(s: State, a: nat, p: Plan)
    requires OwnersOk(s) && Recording(s, a, p)
    requires !s.hasStore ==> forall b :: b in s.procs ==> Owned(s.procs[b]) != Some(p.id)
    requires !s.hasStore ==> p.id !in s.dispatches
    ensures OwnersOk(RecordStep(s, a, p))
  {
    CommittedMore(s.commits, p);
    assert p in s.commits + [p];
  }

  lemma RecordMemory(s: State, a: nat, p: Plan)
    requires MemoryOk(s) && Recording(s, a, p)
    ensures MemoryOk(RecordStep(s, a, p))
  {
    var t := RecordStep(s, a, p);
    CommittedMore(s.commits, p);
    var i :| 0 <= i < |t.commits| && t.commits[i] == p;
    assert CommittedAs(t.commits, p.id, Made(p.action, p.source));
  }

  lemma RecordRules(s: State, a: nat, p: Plan)
    requires RulesOk(s) && Recording(s, a, p)
    ensures RulesOk(RecordStep(s, a, p))
  {
    var t := RecordStep(s, a, p);
    AuthoredMore(s.commits, t.commits, s.manual, s.manual);
    assert p in t.commits;
  }

  lemma RecordChain(s: State, a: nat, p: Plan)
    requires ChainOk(s) && Recording(s, a, p) && (!s.hasStore ==> ViaAuthored(s.commits, s.manual, p))
    ensures ChainOk(RecordStep(s, a, p))
  {
    if !s.hasStore {
      ConsumedChain(s, p, s.db);
    }
  }

  lemma RecordOutside(s: State, a: nat, p: Plan)
    requires PhaseOk(s) && Recording(s, a, p)
    ensures var t := RecordStep(s, a, p); Outside(s, t, a) && PhaseOk(t)
  {
  }

  lemma RecordKept(s: State, a: nat)
    requires Inv(s) && Enabled(s, Record(a))
    ensures Inv(Apply(s, Record(a)))
  {
    var p := s.procs[a].plan;
    assert HoldsLock(s.procs[a]);
    if !s.hasStore {
      NoOwnerYet(s, p.id);
    }
    RecordIds(s, a, p);
    RecordLock(s, a, p);
    RecordCommits(s, a, p);
    RecordOwners(s, a, p);
    RecordMemory(s, a, p);
    RecordRules(s, a, p);
    RecordChain(s, a, p);
    RecordOutside(s, a, p);
    OutsideKept(s, RecordStep(s, a, p), a);
  }

  lemma InstalledIsAuthored(s: State, p: Plan, rule: Rule)
    requires p in s.commits && rule in p.rules && PlanShape(p) && p.action != Deny
    ensures Authored(s.commits, s.manual, LiveRule(if p.action.AllowSession? then Some(p.session) else None, rule))
  {
    var r := LiveRule(if p.action.AllowSession? then Some(p.session) else None, rule);
    assert Grants(p, r);
  }

  lemma OneMoreLive(s: State, a: nat, p: Plan, left: seq<Rule>, rest: seq<Rule>, r: LiveRule)
    requires RulesOk(s) && a in s.procs && s.procs[a] == Installing(p, left) && left != [] && rest == left[1..]
    requires Authored(s.commits, s.manual, r)
    ensures RulesOk(Goto(s, a, Installing(p, rest)).(live := s.live + {r}))
  {
    assert left == [left[0]] + rest;
  }

  lemma InstallRules(s: State, a: nat)
    requires RulesOk(s) && OwnersOk(s) && StoredOk(s) && Enabled(s, Install(a))
    ensures RulesOk(Apply(s, Install(a)))
  {
    var Installing(p, left) := s.procs[a];
    var r := LiveRule(if p.action.AllowSession? then Some(p.session) else None, left[0]);
    var i :| 0 <= i < |s.commits| && s.commits[i] == p;
    InstalledIsAuthored(s, p, left[0]);
    OneMoreLive(s, a, p, left, left[1..], r);
  }

  lemma InstallCalm(s: State, a: nat)
    requires Enabled(s, Install(a))
    ensures var t := Apply(s, Install(a)); Calm(s, t, a) && OffLock(s, t, a) && Outside(s, t, a)
  {
  }

  lemma InstallKept(s: State, a: nat)
    requires Inv(s) && Enabled(s, Install(a))
    ensures Inv(Apply(s, Install(a)))
  {
    InstallRules(s, a);
    InstallCalm(s, a);
    OffLockKept(s, Apply(s, Install(a)), a);
    CalmOutsideKept(s, Apply(s, Install(a)), a);
  }

  lemma DispatchHistory(s: State, a: nat)
    requires OwnersOk(s) && Enabled(s, Dispatch(a))
    ensures var t := Apply(s, Dispatch(a));
            && (forall i, j :: 0 <= i < j < |t.dispatches| ==> t.dispatches[i] != t.dispatches[j])
            && (forall i :: 0 <= i < |t.dispatches| ==> Approves(t.commits, t.dispatches[i]))
  {
    var p := s.procs[a].plan;
    var i :| 0 <= i < |s.commits| && s.commits[i] == p;
    assert Approves(s.commits, p.id);
    assert Owned(s.procs[a]) == Some(p.id);
  }

  lemma DispatchOwners(s: State, a: nat)
    requires OwnersOk(s) && Enabled(s, Dispatch(a))
    ensures OwnersOk(Apply(s, Dispatch(a)))
  {
    var t, p := Apply(s, Dispatch(a)), s.procs[a].plan;
    DispatchHistory(s, a);
    assert Owned(s.procs[a]) == Some(p.id);
    forall b | b in t.procs && Owned(t.procs[b]).Some?
      ensures t.procs[b].Executor? <==> Owned(t.procs[b]).value in t.dispatches
    {
      assert t.dispatches[|s.dispatches|] == p.id;
      assert b != a ==> Owned(s.procs[b]) == Owned(t.procs[b]);
    }
  }

  lemma DispatchIds(s: State, a: nat)
    requires IdsOk(s) && CommitsOk(s) && MemoryOk(s) && Enabled(s, Dispatch(a))
    ensures var t := Apply(s, Dispatch(a)); IdsOk(t) && CommitsOk(t) && MemoryOk(t)
  {
  }

  lemma DispatchLock(s: State, a: nat)
    requires LockOk(s) && StoredOk(s) && ChainOk(s) && PhaseOk(s) && Enabled(s, Dispatch(a))
    ensures var t := Apply(s, Dispatch(a));
            LockOk(t) && StoredOk(t) && ChainOk(t) && PhaseOk(t) && Outside(s, t, a)
  {
  }

  lemma DispatchRules(s: State, a: nat)
    requires RulesOk(s) && Enabled(s, Dispatch(a))
    ensures RulesOk(Apply(s, Dispatch(a)))
  {
  }

  lemma DispatchKept(s: State, a: nat)
    requires Inv(s) && Enabled(s, Dispatch(a))
    ensures Inv(Apply(s, Dispatch(a)))
  {
    DispatchOwners(s, a);
    DispatchIds(s, a);
    DispatchLock(s, a);
    DispatchRules(s, a);
    OutsideKept(s, Apply(s, Dispatch(a)), a);
  }

  // ---------------------------------------------------------------- rule changes

  lemma EnabledAuthored(s: State)
    requires RulesOk(s)
    ensures forall r :: r in EnabledRules(s.db) ==> Authored(s.commits, s.manual, LiveRule(None, r))
  {
  }

  lemma StoreRuleRules(s: State, a: nat, rule: Rule, outcome: Outcome)
    requires RulesOk(s) && Enabled(s, StoreRule(a, rule, outcome))
    ensures RulesOk(Apply(s, StoreRule(a, rule, outcome)))
  {
    AuthoredMore(s.commits, s.commits, s.manual, Apply(s, StoreRule(a, rule, outcome)).manual);
  }

  lemma ChangeRuleRules(s: State, a: nat, change: RuleChange, outcome: Outcome)
    requires RulesOk(s) && Enabled(s, ChangeRule(a, change, outcome))
    ensures RulesOk(Apply(s, ChangeRule(a, change, outcome)))
  {
  }

  lemma InstallRuleRules(s: State, a: nat)
    requires RulesOk(s) && Enabled(s, InstallRule(a))
    ensures RulesOk(Apply(s, InstallRule(a)))
  {
  }

  lemma LoadRulesRules(s: State, a: nat, loaded: bool)
    requires RulesOk(s) && Enabled(s, LoadRules(a, loaded))
    ensures RulesOk(Apply(s, LoadRules(a, loaded)))
  {
    EnabledAuthored(s);
  }

  lemma ReplaceRulesRules(s: State, a: nat)
    requires RulesOk(s) && Enabled(s, ReplaceRules(a))
    ensures RulesOk(Apply(s, ReplaceRules(a)))
  {
  }

  lemma RuleStepRules(s: State, step: Step)
    requires RulesOk(s) && Enabled(s, step) && (step.InstallRule? || step.LoadRules? || step.ReplaceRules?)
    ensures RulesOk(Apply(s, step))
  {
    match step
    case InstallRule(a) => InstallRuleRules(s, a);
    case LoadRules(a, loaded) => LoadRulesRules(s, a, loaded);
    case ReplaceRules(a) => ReplaceRulesRules(s, a);
  }

  lemma StoreRuleCalm(s: State, a: nat, rule: Rule, outcome: Outcome)
    requires Enabled(s, StoreRule(a, rule, outcome))
    ensures Calm(s, Apply(s, StoreRule(a, rule, outcome)), a)
  {
  }

  lemma StoreRuleOutside(s: State, a: nat, rule: Rule, outcome: Outcome)
    requires Enabled(s, StoreRule(a, rule, outcome))
    ensures var t := Apply(s, StoreRule(a, rule, outcome)); OffLock(s, t, a) && Outside(s, t, a)
  {
  }

  lemma ChangeRuleCalm(s: State, a: nat, change: RuleChange, outcome: Outcome)
    requires Enabled(s, ChangeRule(a, change, outcome))
    ensures Calm(s, Apply(s, ChangeRule(a, change, outcome)), a)
  {
  }

  lemma ChangeRuleOutside(s: State, a: nat, change: RuleChange, outcome: Outcome)
    requires Enabled(s, ChangeRule(a, change, outcome))
    ensures var t := Apply(s, ChangeRule(a, change, outcome)); OffLock(s, t, a) && Outside(s, t, a)
  {
  }

  lemma InstallRuleCalm(s: State, a: nat)
    requires Enabled(s, InstallRule(a))
    ensures var t := Apply(s, InstallRule(a)); Calm(s, t, a) && OffLock(s, t, a) && Outside(s, t, a)
  {
  }

  lemma LoadRulesCalm(s: State, a: nat, loaded: bool)
    requires Enabled(s, LoadRules(a, loaded))
    ensures var t := Apply(s, LoadRules(a, loaded)); Calm(s, t, a) && OffLock(s, t, a) && Outside(s, t, a)
  {
  }

  lemma ReplaceRulesCalm(s: State, a: nat)
    requires Enabled(s, ReplaceRules(a))
    ensures var t := Apply(s, ReplaceRules(a)); Calm(s, t, a) && OffLock(s, t, a) && Outside(s, t, a)
  {
  }

  lemma RuleStepCalm(s: State, step: Step)
    requires Enabled(s, step) && (step.InstallRule? || step.LoadRules? || step.ReplaceRules?)
    ensures var t := Apply(s, step); Calm(s, t, step.a) && OffLock(s, t, step.a) && Outside(s, t, step.a)
  {
    match step
    case InstallRule(a) => InstallRuleCalm(s, a);
    case LoadRules(a, loaded) => LoadRulesCalm(s, a, loaded);
    case ReplaceRules(a) => ReplaceRulesCalm(s, a);
  }

  lemma StoreRuleKept(s: State, a: nat, rule: Rule, outcome: Outcome)
    requires Inv(s) && Enabled(s, StoreRule(a, rule, outcome))
    ensures Inv(Apply(s, StoreRule(a, rule, outcome)))
  {
    StoreRuleRules(s, a, rule, outcome);
    StoreRuleCalm(s, a, rule, outcome);
    StoreRuleOutside(s, a, rule, outcome);
    OffLockKept(s, Apply(s, StoreRule(a, rule, outcome)), a);
    CalmOutsideKept(s, Apply(s, StoreRule(a, rule, outcome)), a);
  }

  lemma ChangeRuleKept(s: State, a: nat, change: RuleChange, outcome: Outcome)
    requires Inv(s) && Enabled(s, ChangeRule(a, change, outcome))
    ensures Inv(Apply(s, ChangeRule(a, change, outcome)))
  {
    ChangeRuleRules(s, a, change, outcome);
    ChangeRuleCalm(s, a, change, outcome);
    ChangeRuleOutside(s, a, change, outcome);
    OffLockKept(s, Apply(s, ChangeRule(a, change, outcome)), a);
    CalmOutsideKept(s, Apply(s, ChangeRule(a, change, outcome)), a);
  }

  lemma RuleStepKept(s: State, step: Step)
    requires Inv(s) && Enabled(s, step) && (step.InstallRule? || step.LoadRules? || step.ReplaceRules?)
    ensures Inv(Apply(s, step))
  {
    RuleStepRules(s, step);
    RuleStepCalm(s, step);
    OffLockKept(s, Apply(s, step), step.a);
    CalmOutsideKept(s, Apply(s, step), step.a);
  }

  lemma SessionRuleRules(s: State, step: Step)
    requires RulesOk(s) && Enabled(s, step) && (step.AddSessionRule? || step.RemoveSessionRule?)
    ensures RulesOk(Apply(s, step))
  {
    AuthoredMore(s.commits, s.commits, s.manual, Apply(s, step).manual);
  }

  lemma SessionRuleCalm(s: State, step: Step)
    requires Enabled(s, step) && (step.AddSessionRule? || step.RemoveSessionRule?)
    ensures Calm(s, Apply(s, step), 0)
  {
  }

  lemma SessionRuleLock(s: State, step: Step)
    requires LockOk(s) && SlotsOk(s) && Enabled(s, step) && (step.AddSessionRule? || step.RemoveSessionRule?)
    ensures var t := Apply(s, step); LockOk(t) && SlotsOk(t)
  {
  }

  lemma SessionRuleKept(s: State, step: Step)
    requires Inv(s) && Enabled(s, step) && (step.AddSessionRule? || step.RemoveSessionRule?)
    ensures Inv(Apply(s, step))
  {
    SessionRuleRules(s, step);
    SessionRuleCalm(s, step);
    SessionRuleLock(s, step);
    SessionRuleRunning(s, step);
    CalmKept(s, Apply(s, step), 0);
  }

  lemma SessionRuleRunning(s: State, step: Step)
    requires RunningOk(s) && Enabled(s, step) && (step.AddSessionRule? || step.RemoveSessionRule?)
    ensures RunningOk(Apply(s, step))
  {
    RunningFrame(s, Apply(s, step));
  }

  // ---------------------------------------------------------------- crash and restart

  /** Nothing runs before or after, and memory is left alone or lost. */
  predicate Between(s: State, t: State) {
    && t == s.(phase := t.phase, mem := t.mem, live := t.live, lock := None, slots := 0, procs := map[])
    && (t.mem == s.mem || t.mem == map[]) && (t.phase.Down? ==> t.mem == map[] && t.live == {})
  }

  lemma BetweenCommits(s: State, t: State)
    requires IdsOk(s) && CommitsOk(s) && MemoryOk(s) && Between(s, t)
    ensures IdsOk(t) && CommitsOk(t) && MemoryOk(t) && LockOk(t)
  {
  }

  lemma BetweenRest(s: State, t: State)
    requires OwnersOk(s) && StoredOk(s) && ChainOk(s) && Between(s, t)
    ensures OwnersOk(t) && StoredOk(t) && ChainOk(t)
  {
  }

  lemma BetweenSlots(s: State, t: State)
    requires Between(s, t) && (t.mem == map[] || (RunningOk(s) && s.procs == map[]))
    ensures SlotsOk(t) && RunningOk(t) && PhaseOk(t)
  {
    assert Guarded(map[]) == {};
  }

  lemma BetweenKept(s: State, t: State)
    requires Inv(s) && Between(s, t) && (t.mem == map[] || s.procs == map[])
    requires RulesOk(t)
    ensures Inv(t)
  {
    BetweenCommits(s, t);
    BetweenRest(s, t);
    BetweenSlots(s, t);
  }

  lemma CrashRules(s: State)
    requires RulesOk(s)
    ensures RulesOk(Apply(s, Crash))
  {
  }

  lemma CrashKept(s: State)
    requires Inv(s)
    ensures Inv(Apply(s, Crash))
  {
    CrashRules(s);
    BetweenKept(s, Apply(s, Crash));
  }

  lemma BootRules(s: State, loaded: bool)
    requires RulesOk(s) && PhaseOk(s) && Enabled(s, Boot(loaded))
    ensures RulesOk(Apply(s, Boot(loaded)))
  {
    EnabledAuthored(s);
  }

  lemma BootKept(s: State, loaded: bool)
    requires Inv(s) && Enabled(s, Boot(loaded))
    ensures Inv(Apply(s, Boot(loaded)))
  {
    BootRules(s, loaded);
    BetweenKept(s, Apply(s, Boot(loaded)));
  }

  lemma OpenRules(s: State)
    requires RulesOk(s) && PhaseOk(s) && Enabled(s, Open)
    ensures RulesOk(Apply(s, Open))
  {
  }

  lemma OpenKept(s: State)
    requires Inv(s) && Enabled(s, Open)
    ensures Inv(Apply(s, Open))
  {
    OpenRules(s);
    BetweenKept(s, Apply(s, Open));
  }

  lemma RehydrateCommits(s: State, id: string, wrote: bool, read: bool)
    requires IdsOk(s) && CommitsOk(s) && PhaseOk(s) && Enabled(s, Rehydrate(id, wrote, read))
    ensures var t := RehydrateStep(s, id, wrote, read); CommitsOk(t) && IdsOk(t)
  {
  }

  lemma RehydrateMemory(s: State, id: string, wrote: bool, read: bool)
    requires CommitsOk(s) && MemoryOk(s) && StoreOnlyIfAny(s) && Enabled(s, Rehydrate(id, wrote, read))
    ensures MemoryOk(RehydrateStep(s, id, wrote, read))
  {
    if id in s.db.decisions {
      var i :| 0 <= i < |s.commits| && s.commits[i].id == id;
      assert CommittedAs(s.commits, id, Made(s.db.decisions[id].action, s.db.decisions[id].source));
    }
  }

  lemma RehydrateRest(s: State, id: string, wrote: bool, read: bool)
    requires PhaseOk(s) && OwnersOk(s) && ChainOk(s) && SlotsOk(s) && Enabled(s, Rehydrate(id, wrote, read))
    ensures var t := RehydrateStep(s, id, wrote, read);
            PhaseOk(t) && OwnersOk(t) && ChainOk(t) && SlotsOk(t) && LockOk(t)
  {
  }

  lemma RehydrateRules(s: State, id: string, wrote: bool, read: bool)
    requires RulesOk(s) && StoredOk(s) && PhaseOk(s) && RunningOk(s) && Enabled(s, Rehydrate(id, wrote, read))
    ensures var t := RehydrateStep(s, id, wrote, read); RulesOk(t) && StoredOk(t) && RunningOk(t)
  {
  }

  lemma RehydrateKept(s: State, id: string, wrote: bool, read: bool)
    requires Inv(s) && Enabled(s, Rehydrate(id, wrote, read))
    ensures Inv(Apply(s, Rehydrate(id, wrote, read)))
  {
    RehydrateCommits(s, id, wrote, read);
    RehydrateMemory(s, id, wrote, read);
    RehydrateRest(s, id, wrote, read);
    RehydrateRules(s, id, wrote, read);
  }

  // ---------------------------------------------------------------- every step, every run

  predicate IsRestart(step: Step) {
    step.Crash? || step.Boot? || step.Rehydrate? || step.Open?
  }

  lemma RestartKept(s: State, step: Step)
    requires Inv(s) && Enabled(s, step) && IsRestart(step)
    ensures Inv(Apply(s, step))
  {
    match step
    case Crash => CrashKept(s);
    case Boot(loaded) => BootKept(s, loaded);
    case Rehydrate(id, wrote, read) => RehydrateKept(s, id, wrote, read);
    case Open => OpenKept(s);
  }

  lemma EntryKept(s: State, step: Step)
    requires Inv(s) && Enabled(s, step) && (step.Create? || step.Remember? || step.AutoDecide? || step.Decide?)
    ensures Inv(Apply(s, step))
  {
    match step
    case Create(a, id, about, outcome) => CreateKept(s, a, id, about, outcome);
    case Remember(a) => RememberKept(s, a);
    case AutoDecide(a, plan) => AutoDecideKept(s, a, plan);
    case Decide(a, plan) => DecideKept(s, a, plan);
  }

  lemma OutcomeKept(s: State, step: Step)
    requires Inv(s) && Enabled(s, step) && (step.Commit? || step.Record? || step.Install? || step.Dispatch?)
    ensures Inv(Apply(s, step))
  {
    match step
    case Commit(a, outcome) => CommitKept(s, a, outcome);
    case Record(a) => RecordKept(s, a);
    case Install(a) => InstallKept(s, a);
    case Dispatch(a) => DispatchKept(s, a);
  }

  lemma RuleChangeKept(s: State, step: Step)
    requires Inv(s) && Enabled(s, step) && (step.StoreRule? || step.ChangeRule?)
    ensures Inv(Apply(s, step))
  {
    match step
    case StoreRule(a, rule, outcome) => StoreRuleKept(s, a, rule, outcome);
    case ChangeRule(a, change, outcome) => ChangeRuleKept(s, a, change, outcome);
  }

  /** Every step of every interleaving keeps the invariant. */
  lemma StepKept(s: State, step: Step)
    requires Inv(s) && Enabled(s, step)
    ensures Inv(Apply(s, step))
  {
    if IsRestart(step) {
      RestartKept(s, step);
    } else if step.Create? || step.Remember? || step.AutoDecide? || step.Decide? {
      EntryKept(s, step);
    } else if step.Commit? || step.Record? || step.Install? || step.Dispatch? {
      OutcomeKept(s, step);
    } else if IsKill(step) {
      KillKept(s, step);
    } else if step.Execute? {
      ExecuteKept(s, step.a, step.applied, step.result);
    } else if step.StoreRule? || step.ChangeRule? {
      RuleChangeKept(s, step);
    } else if step.AddSessionRule? || step.RemoveSessionRule? {
      SessionRuleKept(s, step);
    } else {
      RuleStepKept(s, step);
    }
  }

  lemma {:induction false} RunKept(s: State, steps: seq<Step>)
    requires Inv(s) && CanRunSteps(s, steps)
    ensures Inv(RunSteps(s, steps))
    decreases |steps|
  {
    if steps != [] {
      StepKept(s, steps[0]);
      RunKept(Apply(s, steps[0]), steps[1..]);
    }
  }
}
