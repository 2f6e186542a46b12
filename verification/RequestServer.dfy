/** The server's operations on requests as they are written, each shown to be a run of the request protocol.
    `world` is the protocol state the object's fields belong to; between operations the lock is free. */
module RequestServer {
  import opened Text
  import opened RuleEngine
  import opened Store
  import opened RequestLifecycle
  import LocalPolicy

  const NoTables := Tables(map[], map[], map[])

  class Api {
    const st: Store?
    const maxConcurrency: nat
    const allowAlwaysForDangerous: bool
    var reqs: map<string, Rec>
    var live: set<LiveRule>
    var sem: nat
    ghost var world: State

    /** The fields are those of the protocol state, apart from who holds the lock. */
    ghost predicate Agrees()
      reads this, st
    {
      && world.phase.Up? && world.mem == reqs && world.live == live && world.slots == sem
      && world.hasStore == (st != null) && world.maxConcurrency == maxConcurrency
      && world.db == if st == null then NoTables else st.All()
    }

    ghost predicate Valid()
      reads this, st
    {
      Agrees() && world.lock == None
    }

    /** A statement that changes a status in the store, if it succeeds. */
    method UpdateRow(id: string, status: Status, applied: bool)
      modifies st
      ensures st != null ==> st.All() == if applied then UpdateStatus(old(st.All()), id, status) else old(st.All())
    {
      if st != null && applied {
        var _ := st.UpdateRequestStatus(id, status);
      }
    }

    /** The store transaction of a decision, the lock held. */
    method CommitLocked(p: Plan, fault: Fault, ghost a: nat, ghost start: State) returns (err: Option<string>)
      requires Agrees() && st != null && a in world.procs && world.procs[a] == Deciding(p) && Leads(start, world)
      modifies this`world, st
      ensures Agrees() && Leads(start, world)
      ensures err.None? ==>
                world == old(world).(db := world.db, commits := old(world).commits + [p],
                                     procs := old(world).procs[a := Decided(p)])
      ensures err.Some? ==> world.lock == None && world.dispatches == old(world).dispatches
    {
      err := st.CommitPendingDecision(RowOf(p), PersistentRules(p), fault);
      ghost var committed := st.All() != world.db;
      ghost var outcome := if err.None? then Done else if committed then Unsure else Lost;
      ghost var next := Further(start, world, Commit(a, outcome));
      if err.None? || committed {
        CommitEffect(world.db, RowOf(p), PersistentRules(p));
      }
      world := next;
    }

    /** Writing the decision to memory, which releases the lock, and what follows an approval. */
    method RecordAndDispatch(p: Plan, ghost a: nat, ghost start: State)
      requires Agrees() && a in world.procs && p.id in reqs && Leads(start, world)
      requires world.procs[a] == if st != null then Decided(p) else Deciding(p)
      modifies this
      ensures Valid() && Leads(start, world)
      ensures reqs == old(reqs)[p.id := Rec(old(reqs)[p.id].about, StatusAfter(p.action), Some(Made(p.action, p.source)))]
      ensures world.dispatches == old(world).dispatches + if p.action.Deny? then [] else [p.id]
      ensures p.action.Deny? ==> live == old(live)
      ensures !p.action.Deny? ==> live == old(live) + Scoped(p, p.rules)
    {
      ghost var next := Further(start, world, Record(a));
      reqs := reqs[p.id := reqs[p.id].(status := StatusAfter(p.action), decision := Some(Made(p.action, p.source)))];
      world := next;
      if p.action.Deny? {
        return;
      }
      InstallAll(p, a, start);
      next := Further(start, world, Dispatch(a));
      world := next;
    }

    method InstallAll(p: Plan, ghost a: nat, ghost start: State)
      requires Valid() && a in world.procs && world.procs[a] == Installing(p, p.rules) && Leads(start, world)
      modifies this`live, this`world
      ensures Valid() && Leads(start, world)
      ensures world == old(world).(live := live, procs := old(world).procs[a := Installing(p, [])])
      ensures live == old(live) + Scoped(p, p.rules)
    {
      assert p.rules[0..] == p.rules;
      for i := 0 to |p.rules|
        invariant Valid() && Leads(start, world)
        invariant world == old(world).(live := live, procs := old(world).procs[a := Installing(p, p.rules[i..])])
        invariant live == old(live) + Scoped(p, p.rules[..i])
      {
        assert p.rules[i..][1..] == p.rules[i + 1..] && p.rules[i..][0] == p.rules[i];
        ScopedMore(p, i);
        InstallOne(p, i, a, start);
      }
      assert p.rules[..|p.rules|] == p.rules && p.rules[|p.rules|..] == [];
    }

    method InstallOne(p: Plan, i: nat, ghost a: nat, ghost start: State)
      requires Valid() && i < |p.rules| && Leads(start, world)
      requires a in world.procs && world.procs[a] == Installing(p, p.rules[i..])
      modifies this`live, this`world
      ensures Valid() && Leads(start, world) && live == old(live) + {LiveRule(ScopeOf(p), p.rules[i])}
      ensures world == old(world).(live := live, procs := old(world).procs[a := Installing(p, p.rules[i + 1..])])
    {
      assert p.rules[i..][1..] == p.rules[i + 1..] && p.rules[i..][0] == p.rules[i];
      ghost var next := Further(start, world, Install(a));
      live := live + {LiveRule(ScopeOf(p), p.rules[i])};
      world := next;
    }

    /** A person's decision. `session` is that of the caller's claims, `flags` are the risk flags kept with
        the request. */
    method DecideInternalWithSource(id: string, decision: string, session: string, overrides: seq<Rule>, source: string,
                                    flags: seq<string>, newID: nat -> string, fault: Fault, ghost a: nat)
      returns (err: Option<string>)
      requires Valid() && a !in world.procs
      modifies this, st
      ensures Valid() && Leads(old(world), world)
      ensures err.Some? ==> reqs == old(reqs) && live == old(live) && world.dispatches == old(world).dispatches
      ensures err.None? ==>
                && id in old(reqs) && old(reqs)[id].status == Pending && id in reqs && reqs[id].decision.Some?
                && reqs[id].decision.value.source == source && reqs[id].status == StatusAfter(reqs[id].decision.value.action)
                && world.dispatches == old(world).dispatches + if reqs[id].status.Denied? then [] else [id]
    {
      ghost var start := world;
      Stay(world);
      if TrimSpace(decision) == "" {
        return Some("BAD_REQUEST");
      }
      if id !in reqs {
        return Some("REQUEST_NOT_FOUND");
      }
      var rec := reqs[id];
      if rec.status != Pending {
        return Some("REQUEST_NOT_PENDING");
      }
      var plan := LocalPolicy.PlanLocalDecision(rec.about.op, flags, decision, overrides, allowAlwaysForDangerous, newID);
      if plan.Err? {
        return Some(plan.error);
      }
      var ruleID := if |plan.value.rules| > 0 then plan.value.rules[0].id else "";
      var p := Plan(id, rec.about, session, ActionOf(plan.value.action), source, ruleID, plan.value.rules, {});
      ghost var next := Further(start, world, Decide(a, p));
      world := next;
      err := None;
      if st != null {
        err := CommitLocked(p, fault, a, start);
        if err.Some? {
          return;
        }
      }
      RecordAndDispatch(p, a, start);
    }

    /** The live rules that count for a session at this time. */
    function RulesFor(session: string, now: int): set<LiveRule>
      reads this
    {
      set r | r in live && Applies(r, session) && !Expired(r.rule, now)
    }

    /** A request just submitted that the rules let through. */
    predicate Hit(id: string, now: int)
      reads this
    {
      id in reqs && reqs[id].status == Pending && Permitted(reqs[id].about, RulesFor(reqs[id].about.session, now))
    }

    /** The decision of the rules on a request just submitted, `ruleID` being the rule the engine names. */
    method ApproveByRule(id: string, now: int, ruleID: string, fault: Fault, ghost a: nat)
      returns (status: Option<Status>, err: Option<string>)
      requires Valid() && a in world.procs && world.procs[a] == Submitted(id)
      modifies this, st
      ensures Valid() && Leads(old(world), world)
      ensures old(Hit(id, now)) && err.None? ==>
                && status == Some(Approved) && world.dispatches == old(world).dispatches + [id]
                && reqs == old(reqs)[id := Rec(old(reqs)[id].about, Approved, Some(Made(AllowRule, "rule")))]
      ensures !old(Hit(id, now)) || err.Some? ==> reqs == old(reqs) && world.dispatches == old(world).dispatches
      ensures !old(Hit(id, now)) ==> (err.Some? <==> id !in old(reqs))
      ensures st == null && id in old(reqs) ==> err.None?
    {
      ghost var start := world;
      Stay(world);
      var hit := Hit(id, now);
      if !hit {
        ghost var next := Further(start, world, AutoSkip(a));
        world := next;
        if id !in reqs {
          return None, Some("REQUEST_NOT_FOUND");
        }
        return Some(reqs[id].status), None;
      }
      var rec := reqs[id];
      var via := RulesFor(rec.about.session, now);
      var p := Plan(id, rec.about, rec.about.session, AllowRule, "rule", ruleID, [], via);
      ghost var next := Further(start, world, AutoDecide(a, p));
      world := next;
      err := None;
      if st != null {
        err := CommitLocked(p, fault, a, start);
        if err.Some? {
          return Some(Pending), err;
        }
      }
      RecordAndDispatch(p, a, start);
      return Some(Approved), None;
    }

    /** A kill: the status is read in one critical section and overwritten in another. */
    method KillInternal(id: string, applied: bool, ghost a: nat) returns (err: Option<string>)
      requires Valid() && a !in world.procs
      modifies this, st
      ensures Valid() && Leads(old(world), world) && world.procs == old(world).procs
      ensures err.Some? <==> id !in old(reqs)
      ensures reqs == if id in old(reqs) && Startable(old(reqs)[id].status)
                      then old(reqs)[id := old(reqs)[id].(status := KillStatus(old(reqs)[id].status == Pending))]
                      else old(reqs)
    {
      Stay(world);
      if id !in reqs {
        return Some("REQUEST_NOT_FOUND");
      }
      var rec := reqs[id];
      if !Startable(rec.status) {
        return None;
      }
      ghost var start := world;
      ghost var next := Further(start, world, KillRead(a, id));
      world := next;
      OverwriteKilled(id, rec.status == Pending, a, start);
      PersistKilled(id, rec.status == Pending, applied, a, start);
      assert world.procs == start.procs;
      return None;
    }

    method OverwriteKilled(id: string, canceled: bool, ghost a: nat, ghost start: State)
      requires Valid() && a in world.procs && world.procs[a].Killing? && world.procs[a].id == id
      requires canceled == (world.procs[a].seen == Pending) && id in reqs && Leads(start, world)
      modifies this`reqs, this`world
      ensures Valid() && Leads(start, world) && world.procs == old(world).procs[a := KillStoring(id, canceled)]
      ensures reqs == old(reqs)[id := old(reqs)[id].(status := KillStatus(canceled))]
    {
      ghost var next := Further(start, world, KillWrite(a));
      var status := if canceled then Canceled else Killed;
      reqs := reqs[id := reqs[id].(status := status)];
      world := next;
    }

    method PersistKilled(id: string, canceled: bool, applied: bool, ghost a: nat, ghost start: State)
      requires Valid() && a in world.procs && world.procs[a] == KillStoring(id, canceled) && Leads(start, world)
      modifies this`world, st
      ensures Valid() && Leads(start, world) && world.procs == old(world).procs - {a}
    {
      ghost var next := Further(start, world, KillStore(a, applied));
      UpdateRow(id, KillStatus(canceled), applied);
      world := next;
    }

    /** The goroutine of a dispatched request, from its first look at the status to giving back its slot, or
        to where it waits for one. `result` is what the runner reports, `applied` which of its three store
        updates succeed. */
    method ExecuteApprovedRequest(id: string, result: Ending, applied: (bool, bool, bool), ghost a: nat)
      returns (waits: bool)
      requires Valid() && a in world.procs && world.procs[a] == Executor(id, CheckFirst)
      modifies this, st
      ensures Valid() && Leads(old(world), world) && sem == old(sem)
      ensures waits <==> Lives(old(reqs), id) && old(sem) >= maxConcurrency
      ensures waits ==> a in world.procs && world.procs[a] == Executor(id, Acquire) && reqs == Enqueued(old(reqs), id)
      ensures !waits ==> a !in world.procs
      ensures !waits ==> reqs == if Lives(old(reqs), id) then WithStatus(old(reqs), id, result) else old(reqs)
    {
      ghost var start := world;
      Stay(world);
      var killed := !Lives(reqs, id);
      Pass(id, CheckFirst, if killed then None else Some(Enqueue), a, start);
      if killed {
        return false;
      }
      EnqueueAndPersist(id, applied.0, a, start);
      if sem >= maxConcurrency {
        return true;
      }
      RunInSlot(id, result, (applied.1, applied.2), a, start);
      EnqueuedThen(old(reqs), id, result);
      return false;
    }

    method EnqueueAndPersist(id: string, applied: bool, ghost a: nat, ghost start: State)
      requires Valid() && a in world.procs && world.procs[a] == Executor(id, Enqueue) && Leads(start, world)
      modifies this`reqs, this`world, st
      ensures Valid() && Leads(start, world) && a in world.procs && world.procs[a] == Executor(id, Acquire)
      ensures reqs == Enqueued(old(reqs), id)
    {
      var queued := EnqueueIfApproved(id, a, start);
      if queued {
        Persist(id, StoreQueued, Queued, Acquire, applied, a, start);
      }
    }

    /** A goroutine that waited, or did not have to, takes a free slot, looks again and runs. */
    method RunInSlot(id: string, result: Ending, applied: (bool, bool), ghost a: nat, ghost start: State)
      requires Valid() && a in world.procs && world.procs[a] == Executor(id, Acquire) && Leads(start, world)
      requires sem < maxConcurrency
      modifies this, st
      ensures Valid() && Leads(start, world) && a !in world.procs && sem == old(sem)
      ensures reqs == if Lives(old(reqs), id) then WithStatus(old(reqs), id, result) else old(reqs)
    {
      var killed := TakeSlot(id, a, start);
      if killed {
        GiveBack(id, a, start);
        return;
      }
      StartRunning(id, applied.0, a, start);
      FinishRunning(id, result, applied.1, a, start);
      WithStatusTwice(old(reqs), id, Running, result);
    }

    method TakeSlot(id: string, ghost a: nat, ghost start: State) returns (killed: bool)
      requires Valid() && a in world.procs && world.procs[a] == Executor(id, Acquire) && Leads(start, world)
      requires sem < maxConcurrency
      modifies this`sem, this`world
      ensures Valid() && Leads(start, world) && sem == old(sem) + 1 && killed == !Lives(reqs, id)
      ensures a in world.procs && world.procs[a] == Executor(id, if killed then Release else MarkRunning)
    {
      sem := sem + 1;
      Pass(id, Acquire, Some(CheckAgain), a, start);
      killed := !Lives(reqs, id);
      Pass(id, CheckAgain, Some(if killed then Release else MarkRunning), a, start);
    }

    method GiveBack(id: string, ghost a: nat, ghost start: State)
      requires Valid() && a in world.procs && world.procs[a] == Executor(id, Release) && Leads(start, world) && sem > 0
      modifies this`sem, this`world
      ensures Valid() && Leads(start, world) && a !in world.procs && sem == old(sem) - 1
    {
      sem := sem - 1;
      Pass(id, Release, None, a, start);
    }

    method StartRunning(id: string, applied: bool, ghost a: nat, ghost start: State)
      requires Valid() && a in world.procs && world.procs[a] == Executor(id, MarkRunning) && Leads(start, world)
      modifies this`reqs, this`world, st
      ensures Valid() && Leads(start, world) && a in world.procs && world.procs[a] == Executor(id, Work)
      ensures reqs == WithStatus(old(reqs), id, Running)
    {
      Mark(id, MarkRunning, Running, StoreRunning, a, start);
      Persist(id, StoreRunning, Running, Work, applied, a, start);
    }

    method FinishRunning(id: string, result: Ending, applied: bool, ghost a: nat, ghost start: State)
      requires Valid() && a in world.procs && world.procs[a] == Executor(id, Work) && Leads(start, world) && sem > 0
      modifies this, st
      ensures Valid() && Leads(start, world) && a !in world.procs && sem == old(sem) - 1
      ensures reqs == WithStatus(old(reqs), id, result)
    {
      RunAndStore(id, result, applied, a, start);
      Mark(id, Finish(result), result, Release, a, start);
      GiveBack(id, a, start);
    }

    method RunAndStore(id: string, result: Ending, applied: bool, ghost a: nat, ghost start: State)
      requires Valid() && a in world.procs && world.procs[a] == Executor(id, Work) && Leads(start, world)
      modifies this`world, st
      ensures Valid() && Leads(start, world) && a in world.procs && world.procs[a] == Executor(id, Finish(result))
    {
      RunCommand(id, result, a, start);
      Persist(id, StoreResult(result), result, Finish(result), applied, a, start);
    }

    /** A look at the status, or taking or giving back a slot: the goroutine goes on, or ends. */
    ghost method Pass(id: string, stage: Stage, next: Option<Stage>, a: nat, start: State)
      requires world.phase.Up? && world.lock == None && world.mem == reqs && world.live == live
      requires world.hasStore == (st != null) && world.maxConcurrency == maxConcurrency
      requires world.db == if st == null then NoTables else st.All()
      requires sem == world.slots + (if stage.Acquire? then 1 else if stage.Release? then -1 else 0)
      requires a in world.procs && world.procs[a] == Executor(id, stage) && StageEnabled(world, stage) && Leads(start, world)
      requires var killed := id in reqs && reqs[id].status == Killed;
               || (stage.CheckFirst? && next == if killed then None else Some(Enqueue))
               || (stage.Acquire? && next == Some(CheckAgain))
               || (stage.CheckAgain? && next == Some(if killed then Release else MarkRunning))
               || (stage.Release? && next == None)
      modifies this`world
      ensures Valid() && Leads(start, world)
      ensures world.procs == if next.Some? then old(world).procs[a := Executor(id, next.value)] else old(world).procs - {a}
    {
      world := Further(start, world, Execute(a, false, Failed));
    }

    ghost method RunCommand(id: string, result: Ending, a: nat, start: State)
      requires Valid() && a in world.procs && world.procs[a] == Executor(id, Stage.Work) && Leads(start, world)
      modifies this`world
      ensures Valid() && Leads(start, world) && world.procs == old(world).procs[a := Executor(id, StoreResult(result))]
    {
      world := Further(start, world, Execute(a, false, result));
    }

    method EnqueueIfApproved(id: string, ghost a: nat, ghost start: State) returns (queued: bool)
      requires Valid() && a in world.procs && world.procs[a] == Executor(id, Enqueue) && Leads(start, world)
      modifies this`reqs, this`world
      ensures Valid() && Leads(start, world)
      ensures world.procs == old(world).procs[a := Executor(id, if queued then StoreQueued else Acquire)]
      ensures queued <==> id in old(reqs) && old(reqs)[id].status in {Approved, Queued}
      ensures reqs == if queued then old(reqs)[id := old(reqs)[id].(status := Queued)] else old(reqs)
    {
      ghost var next := Further(start, world, Execute(a, false, Failed));
      if id in reqs && reqs[id].status == Approved {
        reqs := reqs[id := reqs[id].(status := Queued)];
      }
      queued := id in reqs && reqs[id].status == Queued;
      if queued && old(reqs)[id].status == Queued {
        assert old(reqs)[id := old(reqs)[id].(status := Queued)] == old(reqs);
      }
      world := next;
    }

    /** One critical section that writes a status. */
    method Mark(id: string, stage: Stage, status: Status, ghost then': Stage, ghost a: nat, ghost start: State)
      requires Valid() && a in world.procs && world.procs[a] == Executor(id, stage) && Leads(start, world)
      requires (stage.MarkRunning? && status == Running && then' == StoreRunning)
               || (stage.Finish? && status == stage.result && then' == Release)
      modifies this`reqs, this`world
      ensures Valid() && Leads(start, world) && world.procs == old(world).procs[a := Executor(id, then')]
      ensures reqs == WithStatus(old(reqs), id, status)
    {
      ghost var next := Further(start, world, Execute(a, false, Failed));
      if id in reqs {
        reqs := reqs[id := reqs[id].(status := status)];
      }
      world := next;
    }

    /** One store statement of the executor. */
    method Persist(id: string, stage: Stage, status: Status, ghost then': Stage, applied: bool,
                   ghost a: nat, ghost start: State)
      requires Valid() && a in world.procs && world.procs[a] == Executor(id, stage) && Leads(start, world)
      requires (stage.StoreQueued? && status == Queued && then' == Acquire)
               || (stage.StoreRunning? && status == Running && then' == Stage.Work)
               || (stage.StoreResult? && status == stage.result && then' == Finish(stage.result))
      requires st == null ==> world.db == NoTables
      modifies this`world, st
      ensures Valid() && Leads(start, world) && world.procs == old(world).procs[a := Executor(id, then')]
    {
      ghost var next := Further(start, world, Execute(a, applied, Failed));
      UpdateRow(id, status, applied);
      world := next;
    }
  }

  function WithStatus(reqs: map<string, Rec>, id: string, status: Status): map<string, Rec> {
    if id in reqs then reqs[id := reqs[id].(status := status)] else reqs
  }

  /** The request is not KILLED, as far as memory knows it. */
  predicate Lives(reqs: map<string, Rec>, id: string) {
    id in reqs ==> reqs[id].status != Killed
  }

  function Enqueued(reqs: map<string, Rec>, id: string): map<string, Rec> {
    if id in reqs && reqs[id].status in {Approved, Queued} then WithStatus(reqs, id, Queued) else reqs
  }

  lemma EnqueuedThen(reqs: map<string, Rec>, id: string, status: Status)
    ensures WithStatus(Enqueued(reqs, id), id, status) == WithStatus(reqs, id, status)
  {
  }

  lemma WithStatusTwice(reqs: map<string, Rec>, id: string, first: Status, second: Status)
    ensures WithStatus(WithStatus(reqs, id, first), id, second) == WithStatus(reqs, id, second)
  {
  }

  function Scoped(p: Plan, rules: seq<Rule>): set<LiveRule> {
    set r | r in rules :: LiveRule(ScopeOf(p), r)
  }

  lemma ScopedMore(p: Plan, i: nat)
    requires i < |p.rules|
    ensures Scoped(p, p.rules[..i + 1]) == Scoped(p, p.rules[..i]) + {LiveRule(ScopeOf(p), p.rules[i])}
  {
    assert p.rules[..i + 1] == p.rules[..i] + [p.rules[i]];
  }

  function ScopeOf(p: Plan): Option<string> {
    if p.action.AllowSession? then Some(p.session) else None
  }
}
