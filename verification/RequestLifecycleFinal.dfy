/** When a terminal status of a request is final, and how it is not: the exact condition for every terminal
    status, with the reachable states that fail it. */
module RequestLifecycleFinal {
  import opened Text
  import opened RuleEngine
  import opened Store
  import opened RequestLifecycle
  import opened RequestLifecycleLaws
  import opened RequestLifecycleTheorems

  predicate Terminal(status: Status) {
    !Startable(status) && !status.Running?
  }

  /** What a goroutine, left to itself, may still write over the terminal status `st` of `id`: executors look
      for KILLED only, twice, and killers write what they decided on earlier. */
  predicate MayOverwrite(p: Proc, id: string, st: Status, maxConcurrency: nat) {
    match p
    case Installing(plan, _) => plan.id == id && st != Killed && maxConcurrency > 0
    case Killing(other, seen) => other == id && KillStatus(seen == Pending) != st
    case Executor(other, stage) => other == id && StageMayOverwrite(stage, st, maxConcurrency)
    case _ => false
  }

  predicate StageMayOverwrite(stage: Stage, st: Status, maxConcurrency: nat) {
    match stage
    case CheckAgain => st != Killed
    case MarkRunning => true
    case StoreRunning => true
    case Work => true
    case StoreResult(result) => result != st
    case Finish(result) => result != st
    case Release => false
    case _ => st != Killed && maxConcurrency > 0
  }

  // ---------------------------------------------------------------- nobody may: it stays

  /** The status is `st`, and no goroutine is on its way to another one. */
  predicate Settled(s: State, id: string, st: Status) {
    && Terminal(st) && id in s.used && id in s.mem && s.mem[id].status == st
    && forall a :: a in s.procs ==> Harmless(s.procs[a], id, st, s.maxConcurrency)
  }

  predicate Harmless(p: Proc, id: string, st: Status, maxConcurrency: nat) {
    && !MayOverwrite(p, id, st, maxConcurrency)
    && (HoldsLock(p) ==> p.plan.id != id)
    && (p.Creating? ==> p.id != id)
  }

  lemma StaysByMark(s: State, a: nat, stage: Stage, applied: bool, result: Ending, id: string, st: Status)
    requires Settled(s, id, st) && At(s, a) && s.procs[a] == Executor(id, stage) && StageEnabled(s, stage)
    ensures Settled(ExecuteStep(s, a, id, stage, applied, result), id, st)
  {
    assert Harmless(s.procs[a], id, st, s.maxConcurrency);
  }

  lemma StaysByOther(s: State, a: nat, req: string, stage: Stage, applied: bool, result: Ending, id: string, st: Status)
    requires Settled(s, id, st) && AtStage(s, a, req, stage) && req != id
    ensures Settled(ExecuteStep(s, a, req, stage, applied, result), id, st)
  {
  }

  lemma StaysByCommit(s: State, step: Step, id: string, st: Status)
    requires Settled(s, id, st) && Enabled(s, step) && (step.Commit? || step.Record? || step.Dispatch?)
    ensures Settled(Apply(s, step), id, st)
  {
    assert Harmless(s.procs[step.a], id, st, s.maxConcurrency);
  }

  lemma StaysByKill(s: State, step: Step, id: string, st: Status)
    requires Settled(s, id, st) && Enabled(s, step) && IsKill(step)
    ensures Settled(Apply(s, step), id, st)
  {
    assert step.a in s.procs ==> Harmless(s.procs[step.a], id, st, s.maxConcurrency);
  }

  lemma StaysByEntry(s: State, step: Step, id: string, st: Status)
    requires Settled(s, id, st) && Enabled(s, step) && EntersOrRestarts(step) && s.phase.Up? && step != Crash
    ensures Settled(Apply(s, step), id, st)
  {
    if !step.Create? && !step.Decide? {
      assert Harmless(s.procs[step.a], id, st, s.maxConcurrency);
    }
  }

  lemma StaysByRules(s: State, step: Step, id: string, st: Status)
    requires Settled(s, id, st) && Enabled(s, step)
    requires !MayCommit(step) && !step.Execute? && !EntersOrRestarts(step) && !IsKill(step)
    ensures Settled(Apply(s, step), id, st)
  {
  }

  lemma Stays(s: State, step: Step, id: string, st: Status)
    requires Settled(s, id, st) && Enabled(s, step) && s.phase.Up? && step != Crash
    ensures Settled(Apply(s, step), id, st) && Apply(s, step).phase.Up?
  {
    UpStays(s, step);
    if step.Execute? {
      var Executor(req, stage) := s.procs[step.a];
      if req == id {
        StaysByMark(s, step.a, stage, step.applied, step.result, id, st);
      } else {
        StaysByOther(s, step.a, req, stage, step.applied, step.result, id, st);
      }
    } else if MayCommit(step) {
      StaysByCommit(s, step, id, st);
    } else if IsKill(step) {
      StaysByKill(s, step, id, st);
    } else if EntersOrRestarts(step) {
      StaysByEntry(s, step, id, st);
    } else {
      StaysByRules(s, step, id, st);
    }
  }

  lemma UpStays(s: State, step: Step)
    requires Enabled(s, step) && s.phase.Up? && step != Crash
    ensures Apply(s, step).phase.Up?
  {
    if step.Execute? {
      UpStaysByExecutor(s, step.a, s.procs[step.a].id, s.procs[step.a].stage, step.applied, step.result);
    }
  }

  lemma UpStaysByExecutor(s: State, a: nat, id: string, stage: Stage, applied: bool, result: Ending)
    requires s.phase.Up? && StageEnabled(s, stage)
    ensures ExecuteStep(s, a, id, stage, applied, result).phase.Up?
  {
  }

  lemma {:induction false} RunStays(s: State, steps: seq<Step>, id: string, st: Status)
    requires Settled(s, id, st) && s.phase.Up? && CanRunSteps(s, steps) && Crash !in steps
    ensures Settled(RunSteps(s, steps), id, st)
    decreases |steps|
  {
    if steps != [] {
      assert steps == [steps[0]] + steps[1..];
      Stays(s, steps[0], id, st);
      RunStays(Apply(s, steps[0]), steps[1..], id, st);
    }
  }

  lemma NobodyMay(s: State, id: string)
    requires IdsOk(s) && LockOk(s) && id in s.mem && Terminal(s.mem[id].status)
    requires forall a :: a in s.procs ==> !MayOverwrite(s.procs[a], id, s.mem[id].status, s.maxConcurrency)
    ensures Settled(s, id, s.mem[id].status)
  {
    forall a | a in s.procs
      ensures Harmless(s.procs[a], id, s.mem[id].status, s.maxConcurrency)
    {
      if s.procs[a].Creating? {
        assert Unknown(s, s.procs[a].id);
      }
    }
  }

  // ---------------------------------------------------------------- somebody may: a run where it happens

  ghost predicate RunsTo(s: State, t: State) {
    exists steps :: CanRunSteps(s, steps) && Crash !in steps && RunSteps(s, steps) == t
  }

  lemma Onward(start: State, s: State, step: Step) returns (t: State)
    requires RunsTo(start, s) && Enabled(s, step) && step != Crash
    ensures t == Apply(s, step) && RunsTo(start, t)
  {
    t := Apply(s, step);
    var steps :| CanRunSteps(start, steps) && Crash !in steps && RunSteps(start, steps) == s;
    RunThenStep(start, steps, step);
    assert Crash !in steps + [step];
  }

  /** Every later state counts its slots rightly and has one owner to a request. */
  ghost predicate Sound(start: State) {
    forall s :: RunsTo(start, s) ==> SlotsOk(s) && OwnersOk(s)
  }

  lemma InvIsSound(start: State)
    requires Inv(start)
    ensures Sound(start)
  {
    forall s | RunsTo(start, s)
      ensures SlotsOk(s) && OwnersOk(s)
    {
      var steps :| CanRunSteps(start, steps) && Crash !in steps && RunSteps(start, steps) == s;
      RunKept(start, steps);
    }
  }

  /** Goroutine `a` at `p`, the request still at `st`. */
  ghost predicate Poised(start: State, s: State, a: nat, p: Proc, id: string, st: Status) {
    && RunsTo(start, s) && s.phase.Up? && s.lock == None && s.maxConcurrency == start.maxConcurrency
    && a in s.procs && s.procs[a] == p && id in s.mem && s.mem[id].status == st
  }

  lemma FreeLock(s: State, a: nat, id: string, st: Status) returns (t: State)
    requires LockOk(s) && s.phase.Up? && a in s.procs && !HoldsLock(s.procs[a])
    requires id in s.mem && s.mem[id].status == st && st != Pending
    ensures Poised(s, t, a, s.procs[a], id, st)
  {
    assert CanRunSteps(s, []) && RunSteps(s, []) == s;
    assert RunsTo(s, s);
    t := s;
    if s.lock.Some? {
      var b := s.lock.value;
      assert HoldsLock(s.procs[b]);
      t := DropOrRecord(s, b);
    }
  }

  lemma DropOrRecord(s: State, b: nat) returns (t: State)
    requires RunsTo(s, s) && s.phase.Up? && b in s.procs && HoldsLock(s.procs[b])
    requires s.procs[b].plan.id in s.mem
    ensures RunsTo(s, t) && t.phase.Up? && t.lock == None && t.maxConcurrency == s.maxConcurrency
    ensures forall a :: a in s.procs && a != b ==> a in t.procs && t.procs[a] == s.procs[a]
    ensures forall id :: id in s.mem && id != s.procs[b].plan.id ==> id in t.mem && t.mem[id] == s.mem[id]
  {
    if s.procs[b].Deciding? && s.hasStore {
      t := Onward(s, s, Commit(b, Lost));
    } else {
      t := Onward(s, s, Record(b));
    }
  }

  /** How many steps an executor in its slot still takes. */
  function Left(stage: Stage): nat {
    match stage
    case CheckAgain => 6
    case MarkRunning => 5
    case StoreRunning => 4
    case Work => 3
    case StoreResult(_) => 2
    case Finish(_) => 1
    case _ => 0
  }

  lemma OtherStep(s: State, b: nat, other: string, stage: Stage)
    requires AtStage(s, b, other, stage) && s.lock == None && InSlot(s.procs[b])
    ensures var t := ExecuteStep(s, b, other, stage, false, Failed);
            && t.phase.Up? && t.lock == None && t.maxConcurrency == s.maxConcurrency && t.mem.Keys == s.mem.Keys
            && (forall id :: id in s.mem && id != other ==> t.mem[id] == s.mem[id])
            && (if stage.Release? then t.procs == s.procs - {b} && t.slots == s.slots - 1
                else t.procs == s.procs[b := t.procs[b]] && InSlot(t.procs[b]) && t.procs[b].id == other
                     && t.slots == s.slots && Left(t.procs[b].stage) < Left(stage))
  {
  }

  lemma DriveOn(start: State, s: State, a: nat, p: Proc, id: string, st: Status, b: nat) returns (t: State)
    requires Poised(start, s, a, p, id, st) && b != a && b in s.procs && InSlot(s.procs[b]) && s.procs[b].id != id
    requires s.slots > 0
    ensures Poised(start, t, a, p, id, st)
    ensures t.slots < s.slots
            || (t.slots == s.slots && b in t.procs && InSlot(t.procs[b]) && t.procs[b].id == s.procs[b].id
                && Left(t.procs[b].stage) < Left(s.procs[b].stage))
  {
    OtherStep(s, b, s.procs[b].id, s.procs[b].stage);
    t := Onward(start, s, Execute(b, false, Failed));
  }

  /** Another goroutine is driven out of its slot. */
  lemma {:induction false} DriveOut(start: State, s: State, a: nat, p: Proc, id: string, st: Status, b: nat)
    returns (t: State)
    requires Sound(start) && Poised(start, s, a, p, id, st)
    requires b != a && b in s.procs && InSlot(s.procs[b]) && s.procs[b].id != id
    ensures Poised(start, t, a, p, id, st) && t.slots < s.slots
    decreases Left(s.procs[b].stage)
  {
    assert b in Guarded(s.procs);
    t := DriveOn(start, s, a, p, id, st, b);
    if t.slots == s.slots {
      t := DriveOut(start, t, a, p, id, st, b);
    }
  }

  lemma FreeSlot(start: State, s: State, a: nat, id: string, st: Status) returns (t: State)
    requires Sound(start) && Poised(start, s, a, Executor(id, Acquire), id, st) && s.maxConcurrency > 0
    ensures Poised(start, t, a, Executor(id, Acquire), id, st) && t.slots < t.maxConcurrency
  {
    t := s;
    if s.slots == s.maxConcurrency {
      var b := SlotHolder(s, a, id);
      t := DriveOut(start, s, a, Executor(id, Acquire), id, st, b);
    }
  }

  lemma SlotHolder(s: State, a: nat, id: string) returns (b: nat)
    requires SlotsOk(s) && OwnersOk(s) && s.slots > 0 && a in s.procs && s.procs[a] == Executor(id, Acquire)
    ensures b != a && b in s.procs && InSlot(s.procs[b]) && s.procs[b].id != id
  {
    assert Guarded(s.procs) != {};
    b :| b in Guarded(s.procs);
    assert Owned(s.procs[a]) == Some(id) && Owned(s.procs[b]) == Some(s.procs[b].id);
  }

  /** The stage after this one when the status is terminal and, before the last look, not KILLED. */
  function After(stage: Stage, result: Ending): Stage {
    match stage
    case CheckFirst => Enqueue
    case Enqueue => Acquire
    case StoreQueued => Acquire
    case Acquire => CheckAgain
    case CheckAgain => MarkRunning
    case StoreRunning => Work
    case Work => StoreResult(result)
    case StoreResult(r) => Finish(r)
    case _ => Release
  }

  predicate Looks(stage: Stage) {
    stage.CheckFirst? || stage.CheckAgain?
  }

  lemma OwnStep(s: State, a: nat, id: string, stage: Stage, result: Ending)
    requires AtStage(s, a, id, stage) && id in s.mem && Terminal(s.mem[id].status)
    requires !stage.MarkRunning? && !stage.Finish? && !stage.Release?
    requires Looks(stage) ==> s.mem[id].status != Killed
    ensures var t := ExecuteStep(s, a, id, stage, false, result);
            t == s.(procs := s.procs[a := Executor(id, After(stage, result))], slots := t.slots)
  {
  }

  function Another(st: Status): (r: Ending)
    ensures r != st
  {
    if st == Failed then Succeeded else Failed
  }

  /** How far the executor is from writing the status. */
  function Distance(stage: Stage): nat {
    match stage
    case CheckFirst => 9
    case Enqueue => 8
    case StoreQueued => 8
    case Acquire => 7
    case CheckAgain => 6
    case StoreRunning => 4
    case Work => 3
    case StoreResult(_) => 2
    case _ => 1
  }

  lemma NearerToWriting(stage: Stage, st: Status, maxConcurrency: nat)
    requires StageMayOverwrite(stage, st, maxConcurrency) && !stage.MarkRunning? && !stage.Finish?
    ensures var next := After(stage, Another(st));
            StageMayOverwrite(next, st, maxConcurrency) && Distance(next) < Distance(stage)
  {
  }

  lemma EnableAndGo(start: State, s: State, a: nat, stage: Stage, id: string, st: Status) returns (t: State)
    requires Sound(start) && Poised(start, s, a, Executor(id, stage), id, st) && Terminal(st)
    requires StageMayOverwrite(stage, st, s.maxConcurrency) && !stage.MarkRunning? && !stage.Finish?
    ensures Poised(start, t, a, Executor(id, After(stage, Another(st))), id, st)
  {
    if stage.Acquire? {
      var u := FreeSlot(start, s, a, id, st);
      t := OwnOnward(start, u, a, stage, id, st);
    } else {
      t := OwnOnward(start, s, a, stage, id, st);
    }
  }

  lemma {:induction false} ExecutorOverwrites(start: State, s: State, a: nat, stage: Stage, id: string, st: Status)
    returns (t: State)
    requires Sound(start) && Poised(start, s, a, Executor(id, stage), id, st) && Terminal(st)
    requires StageMayOverwrite(stage, st, s.maxConcurrency)
    ensures RunsTo(start, t) && id in t.mem && t.mem[id].status != st
    decreases Distance(stage)
  {
    if stage.MarkRunning? || stage.Finish? {
      t := LastStep(start, s, a, stage, id, st);
    } else {
      NearerToWriting(stage, st, s.maxConcurrency);
      var u := EnableAndGo(start, s, a, stage, id, st);
      t := ExecutorOverwrites(start, u, a, After(stage, Another(st)), id, st);
    }
  }

  lemma LastStep(start: State, s: State, a: nat, stage: Stage, id: string, st: Status) returns (t: State)
    requires Poised(start, s, a, Executor(id, stage), id, st) && (stage.MarkRunning? || stage.Finish?)
    requires Terminal(st) && (stage.Finish? ==> stage.result != st)
    ensures RunsTo(start, t) && id in t.mem && t.mem[id].status != st
  {
    t := Onward(start, s, Execute(a, false, Failed));
  }

  lemma OwnOnward(start: State, s: State, a: nat, stage: Stage, id: string, st: Status) returns (t: State)
    requires Poised(start, s, a, Executor(id, stage), id, st) && Terminal(st) && StageEnabled(s, stage)
    requires !stage.MarkRunning? && !stage.Finish? && !stage.Release? && (Looks(stage) ==> st != Killed)
    ensures Poised(start, t, a, Executor(id, After(stage, Another(st))), id, st)
  {
    OwnStep(s, a, id, stage, Another(st));
    t := Onward(start, s, Execute(a, false, Another(st)));
  }

  lemma {:induction false} InstallerOverwrites(start: State, s: State, a: nat, plan: Plan, left: seq<Rule>, st: Status)
    returns (t: State)
    requires Sound(start) && Poised(start, s, a, Installing(plan, left), plan.id, st) && Terminal(st)
    requires st != Killed && s.maxConcurrency > 0
    ensures RunsTo(start, t) && plan.id in t.mem && t.mem[plan.id].status != st
    decreases |left|
  {
    if left == [] {
      var u := Onward(start, s, Dispatch(a));
      t := ExecutorOverwrites(start, u, a, CheckFirst, plan.id, st);
    } else {
      var u := Onward(start, s, Install(a));
      t := InstallerOverwrites(start, u, a, plan, left[1..], st);
    }
  }

  lemma Overwrites(s: State, a: nat, id: string) returns (t: State)
    requires Inv(s) && s.phase.Up? && id in s.mem && Terminal(s.mem[id].status)
    requires a in s.procs && MayOverwrite(s.procs[a], id, s.mem[id].status, s.maxConcurrency)
    ensures RunsTo(s, t) && id in t.mem && t.mem[id].status != s.mem[id].status
  {
    var st, p := s.mem[id].status, s.procs[a];
    InvIsSound(s);
    var u := FreeLock(s, a, id, st);
    match p
    case Executor(_, stage) => t := ExecutorOverwrites(s, u, a, stage, id, st);
    case Installing(plan, left) => t := InstallerOverwrites(s, u, a, plan, left, st);
    case Killing(_, _) => t := Onward(s, u, KillWrite(a));
  }

  // ---------------------------------------------------------------- exactly when a terminal status is final

  /** Whatever happens short of a crash, the request keeps its status. */
  ghost predicate Final(s: State, id: string) {
    id in s.mem && forall steps :: CanRunSteps(s, steps) && Crash !in steps ==>
      id in RunSteps(s, steps).mem && RunSteps(s, steps).mem[id].status == s.mem[id].status
  }

  /** A terminal status is final exactly when no goroutine may still overwrite it. */
  lemma FinalExact(s: State, id: string)
    requires Inv(s) && s.phase.Up? && id in s.mem && Terminal(s.mem[id].status)
    ensures Final(s, id) <==>
            forall a :: a in s.procs ==> !MayOverwrite(s.procs[a], id, s.mem[id].status, s.maxConcurrency)
  {
    var st := s.mem[id].status;
    if forall a :: a in s.procs ==> !MayOverwrite(s.procs[a], id, st, s.maxConcurrency) {
      NobodyMay(s, id);
      forall steps | CanRunSteps(s, steps) && Crash !in steps
        ensures id in RunSteps(s, steps).mem && RunSteps(s, steps).mem[id].status == st
      {
        RunStays(s, steps, id, st);
      }
    } else {
      var a :| a in s.procs && MayOverwrite(s.procs[a], id, st, s.maxConcurrency);
      var t := Overwrites(s, a, id);
      assert RunsTo(s, t);
    }
  }

  /** An executor of the request between its last look and its result, unless that is KILLED too, or
      somebody about to cancel it. */
  predicate UndoesKill(p: Proc, id: string) {
    match p
    case Killing(other, seen) => other == id && seen == Pending
    case Executor(other, stage) =>
      other == id && (stage.MarkRunning? || stage.StoreRunning? || stage.Work?
                      || ((stage.StoreResult? || stage.Finish?) && stage.result != Killed))
    case _ => false
  }

  /** A goroutine bringing the request to execution or executing it, short of giving its slot back, or
      somebody about to kill it. */
  predicate UndoesCancel(p: Proc, id: string) {
    match p
    case Killing(other, seen) => other == id && seen != Pending
    case Installing(plan, _) => plan.id == id
    case Executor(other, stage) => other == id && !stage.Release?
    case _ => false
  }

  lemma KillMay(p: Proc, id: string, maxConcurrency: nat)
    ensures MayOverwrite(p, id, Killed, maxConcurrency) <==> UndoesKill(p, id)
  {
  }

  lemma CancelMay(p: Proc, id: string, maxConcurrency: nat)
    requires InSlot(p) ==> maxConcurrency > 0
    ensures MayOverwrite(p, id, Canceled, maxConcurrency) <==>
            UndoesCancel(p, id) && (p.Killing? || maxConcurrency > 0)
  {
  }

  lemma KillExact(s: State, id: string)
    requires Inv(s) && s.phase.Up? && id in s.mem && s.mem[id].status == Killed
    ensures Final(s, id) <==> forall a :: a in s.procs ==> !UndoesKill(s.procs[a], id)
  {
    FinalExact(s, id);
    forall a | a in s.procs
      ensures MayOverwrite(s.procs[a], id, Killed, s.maxConcurrency) <==> UndoesKill(s.procs[a], id)
    {
      KillMay(s.procs[a], id, s.maxConcurrency);
    }
  }

  /** With no slots at all nothing executes, and only a kill can undo a cancellation. */
  lemma CancelExact(s: State, id: string)
    requires Inv(s) && s.phase.Up? && id in s.mem && s.mem[id].status == Canceled
    ensures Final(s, id) <==>
            forall a :: a in s.procs && UndoesCancel(s.procs[a], id) ==> s.maxConcurrency == 0 && !s.procs[a].Killing?
  {
    FinalExact(s, id);
    SlotNeedsMax(s);
    forall a | a in s.procs
      ensures MayOverwrite(s.procs[a], id, Canceled, s.maxConcurrency) <==>
              UndoesCancel(s.procs[a], id) && (s.procs[a].Killing? || s.maxConcurrency > 0)
    {
      CancelMay(s.procs[a], id, s.maxConcurrency);
    }
  }

  lemma SlotNeedsMax(s: State)
    requires SlotsOk(s)
    ensures forall a :: a in s.procs && InSlot(s.procs[a]) ==> s.maxConcurrency > 0
  {
    forall a | a in s.procs && InSlot(s.procs[a])
      ensures s.maxConcurrency > 0
    {
      assert a in Guarded(s.procs);
    }
  }

  // ---------------------------------------------------------------- what does not hold

  lemma Next(s: State, step: Step) returns (t: State)
    requires Reachable(s) && Enabled(s, step)
    ensures t == Apply(s, step) && Reachable(t)
  {
    var hasStore: bool, maxConcurrency: nat :| Leads(Initial(hasStore, maxConcurrency), s);
    t := Further(Initial(hasStore, maxConcurrency), s, step);
  }

  lemma OnePending(hasStore: bool, id: string, about: Submission) returns (s: State)
    ensures Reachable(s) && s.phase.Up? && s.hasStore == hasStore && s.maxConcurrency == 1 && s.slots == 0
    ensures s.lock == None && s.procs == map[] && s.mem == map[id := Rec(about, Pending, None)]
    ensures hasStore ==> s.db.requests == map[id := RequestRow(about, Pending)]
  {
    s := Initial(hasStore, 1);
    assert CanRunSteps(s, []) && RunSteps(s, []) == s;
    assert Leads(s, s);
    s := Next(s, Boot(false));
    s := Next(s, Open);
    s := Next(s, Create(0, id, about, Done));
    s := Next(s, Remember(0));
    s := Next(s, AutoSkip(0));
  }

  predicate Bare(s: State, id: string) {
    s.phase.Up? && !s.hasStore && s.maxConcurrency == 1 && s.lock == None && id in s.mem
  }

  lemma ToExecutor(s0: State, id: string) returns (s: State)
    requires Reachable(s0) && Bare(s0, id) && s0.slots == 0 && 0 !in s0.procs
    requires s0.mem[id].status == Pending
    ensures Reachable(s) && Bare(s, id) && s.slots == 0 && s.mem[id].status == Approved
    ensures s.procs == s0.procs[0 := Executor(id, CheckFirst)]
  {
    var plan := Plan(id, s0.mem[id].about, "session", AllowOnce, "tui", "", [], {});
    s := ToApproved(s0, plan);
    s := Next(s, Dispatch(0));
  }

  lemma ToApproved(s0: State, plan: Plan) returns (s: State)
    requires Reachable(s0) && Bare(s0, plan.id) && s0.slots == 0 && 0 !in s0.procs
    requires CanDecide(s0, plan) && ManualPlan(plan) && plan.action.AllowOnce?
    ensures Reachable(s) && Bare(s, plan.id) && s.slots == 0 && s.mem[plan.id].status == Approved
    ensures s.procs == s0.procs[0 := Installing(plan, [])]
  {
    s := Next(s0, Decide(0, plan));
    s := Next(s, Record(0));
  }

  lemma ToQueued(s0: State, id: string) returns (s: State)
    requires Reachable(s0) && Bare(s0, id) && s0.slots == 0 && s0.mem[id].status == Approved
    requires 0 in s0.procs && s0.procs[0] == Executor(id, CheckFirst)
    ensures Reachable(s) && Bare(s, id) && s.slots == 0 && s.mem[id].status == Queued
    ensures s.procs == s0.procs[0 := Executor(id, Acquire)]
  {
    s := Next(s0, Execute(0, false, Failed));
    s := Next(s, Execute(0, false, Failed));
    s := Next(s, Execute(0, false, Failed));
  }

  lemma ToSlot(s0: State, id: string) returns (s: State)
    requires Reachable(s0) && Bare(s0, id) && s0.slots == 0 && s0.mem[id].status == Queued
    requires 0 in s0.procs && s0.procs[0] == Executor(id, Acquire)
    ensures Reachable(s) && Bare(s, id) && s.mem[id].status == Queued
    ensures s.procs == s0.procs[0 := Executor(id, MarkRunning)]
  {
    s := Next(s0, Execute(0, false, Failed));
    s := Next(s, Execute(0, false, Failed));
  }

  /** An approved request without a store, brought to where it is about to be marked RUNNING. */
  lemma ToMarkRunning(s0: State, id: string) returns (s: State)
    requires Reachable(s0) && Bare(s0, id) && s0.slots == 0 && 0 !in s0.procs
    requires s0.mem[id].status == Pending
    ensures Reachable(s) && Bare(s, id) && s.mem[id].status == Queued
    ensures s.procs == s0.procs[0 := Executor(id, MarkRunning)]
  {
    s := ToExecutor(s0, id);
    s := ToQueued(s, id);
    s := ToSlot(s, id);
  }

  /** A terminal status is not final: a kill written between the executor's check and its mark is undone. */
  lemma KilledThenRunning(id: string, about: Submission) returns (s: State, step: Step)
    ensures Reachable(s) && Enabled(s, step) && id in s.mem && s.mem[id].status == Killed
    ensures id in Apply(s, step).mem && Apply(s, step).mem[id].status == Running
  {
    s := OnePending(false, id, about);
    s := ToMarkRunning(s, id);
    s := Next(s, KillRead(1, id));
    s := Next(s, KillWrite(1));
    step := Execute(0, true, Failed);
  }

  /** A request canceled while its approval is being decided runs all the same: executors look for KILLED. */
  lemma CanceledThenRunning(id: string, about: Submission) returns (s: State, step: Step)
    ensures Reachable(s) && Enabled(s, step) && id in s.mem && s.mem[id].status == Canceled
    ensures id in Apply(s, step).mem && Apply(s, step).mem[id].status == Running
  {
    s := OnePending(false, id, about);
    s := Next(s, KillRead(1, id));
    s := ToMarkRunning(s, id);
    s := Next(s, KillWrite(1));
    step := Execute(0, true, Failed);
  }

  /** A canceled request whose store update is lost is PENDING again after a restart. */
  lemma CanceledThenPending(id: string, about: Submission) returns (s: State, t: State)
    ensures Reachable(s) && id in s.mem && s.mem[id].status == Canceled
    ensures Leads(s, t) && id in t.mem && t.mem[id].status == Pending
  {
    s := OnePending(true, id, about);
    s := Next(s, KillRead(1, id));
    s := Next(s, KillWrite(1));
    assert CanRunSteps(s, []) && RunSteps(s, []) == s;
    assert Leads(s, s);
    t := Further(s, s, KillStore(1, false));
    t := Further(s, t, Crash);
    t := Further(s, t, Boot(false));
    t := Further(s, t, Rehydrate(id, true, true));
  }
}
