/** The persistent tables and the statements the server runs on them. A statement either takes effect
    or leaves the tables as they were. */
module Store {
  import opened Text
  import opened ShellScript
  import opened RuleEngine

  // ---------------------------------------------------------------- rows

  datatype Status =
    | Pending | Approved | Denied | Queued | Running
    | Succeeded | Failed | TimedOut | Killed | Canceled

  datatype Action = Deny | AllowOnce | AllowSession | AllowAlways | AllowRule | OtherAction(text: string)

  function ActionOf(text: string): Action {
    if text == "DENY" then Deny
    else if text == "ALLOW_ONCE" then AllowOnce
    else if text == "ALLOW_SESSION" then AllowSession
    else if text == "ALLOW_ALWAYS" then AllowAlways
    else OtherAction(text)
  }

  /** What was submitted, never changed after: the session, the operation, and what the shell parser, which
      is not part of this model, makes of its script. */
  datatype Submission = Submission(session: string, op: Op, parsed: Result<seq<Stmt>, string>)

  datatype RequestRow = RequestRow(about: Submission, status: Status)

  datatype Decision = Decision(requestID: string, action: Action, source: string, ruleID: string)

  datatype RuleRow = RuleRow(rule: Rule, enabled: bool)

  datatype Tables = Tables(requests: map<string, RequestRow>, decisions: map<string, Decision>,
                           rules: map<string, RuleRow>)

  // ---------------------------------------------------------------- permanent rules

  /** What the rules table keeps of a rule: no expiry, no tail flag, no empty command or path. */
  function Persisted(r: Rule): Rule {
    var cmd := if r.cmd.Some? && r.cmd.value.argvPrefix != [] then Some(CmdRule(r.cmd.value.argvPrefix, false)) else None;
    var path := if r.path.Some? && r.path.value != PathRule("", "", "") then r.path else None;
    Rule(r.id, r.opType, None, cmd, path)
  }

  predicate CanInsertRule(rules: map<string, RuleRow>, r: Rule) {
    r.id != "" && TrimSpace(r.opType) != "" && r.id !in rules
  }

  function InsertRule(rules: map<string, RuleRow>, r: Rule): Result<map<string, RuleRow>, string> {
    if r.id == "" then Err("rule ID required")
    else if TrimSpace(r.opType) == "" then Err("op type required")
    else if r.id in rules then Err("rule exists")
    else Ok(rules[r.id := RuleRow(Persisted(r), true)])
  }

  function InsertRules(rules: map<string, RuleRow>, rs: seq<Rule>): Result<map<string, RuleRow>, string>
    decreases |rs|
  {
    if rs == [] then Ok(rules)
    else
      match InsertRule(rules, rs[0])
      case Err(e) => Err(e)
      case Ok(next) => InsertRules(next, rs[1..])
  }

  function EnabledRules(t: Tables): set<Rule> {
    set id | id in t.rules && t.rules[id].enabled :: t.rules[id].rule
  }

  // ---------------------------------------------------------------- requests and decisions

  function UpdateStatus(t: Tables, id: string, status: Status): Tables {
    if id in t.requests then t.(requests := t.requests[id := t.requests[id].(status := status)]) else t
  }

  function StatusAfter(action: Action): Status {
    if action.Deny? then Denied else Approved
  }

  /** Consuming a pending request: its new status, its one decision row and its permanent rules, all
      together or not at all. */
  function CommitPending(t: Tables, d: Decision, persistent: seq<Rule>): Result<Tables, string> {
    if d.action.OtherAction? then Err("unsupported decision")
    else if !d.action.AllowAlways? && persistent != [] then Err("persistent rules require ALLOW_ALWAYS")
    else if d.requestID !in t.requests || t.requests[d.requestID].status != Pending then Err("REQUEST_NOT_PENDING")
    else if d.requestID == "" || d.source == "" then Err("decision fields required")
    else if d.requestID in t.decisions then Err("decision exists")
    else
      match InsertRules(t.rules, persistent)
      case Err(e) => Err(e)
      case Ok(rules) =>
        Ok(UpdateStatus(t, d.requestID, StatusAfter(d.action)).(decisions := t.decisions[d.requestID := d], rules := rules))
  }

  lemma {:induction false} InsertRulesAdds(rules: map<string, RuleRow>, rs: seq<Rule>)
    requires InsertRules(rules, rs).Ok?
    ensures var after := InsertRules(rules, rs).value;
            && (forall id :: id in rules ==> id in after && after[id] == rules[id])
            && (forall r :: r in rs ==> r.id !in rules && r.id in after && after[r.id] == RuleRow(Persisted(r), true))
            && (forall id :: id in after ==> id in rules || exists r :: r in rs && r.id == id)
    decreases |rs|
  {
    if rs != [] {
      var next := InsertRule(rules, rs[0]).value;
      InsertRulesAdds(next, rs[1..]);
      assert rs == [rs[0]] + rs[1..];
      assert rs[0] in rs;
    }
  }

  predicate DistinctIds(rs: seq<Rule>) {
    forall i, j :: 0 <= i < j < |rs| ==> rs[i].id != rs[j].id
  }

  lemma DistinctIdsCons(r: Rule, rest: seq<Rule>)
    ensures DistinctIds([r] + rest) <==> DistinctIds(rest) && forall q :: q in rest ==> q.id != r.id
  {
    var rs := [r] + rest;
    if DistinctIds(rs) {
      forall i, j | 0 <= i < j < |rest|
        ensures rest[i].id != rest[j].id
      {
        assert rs[i + 1].id != rs[j + 1].id;
      }
      forall q | q in rest
        ensures q.id != r.id
      {
        var j :| 0 <= j < |rest| && rest[j] == q;
        assert rs[0].id != rs[j + 1].id;
      }
    } else {
      var i, j :| 0 <= i < j < |rs| && rs[i].id == rs[j].id;
      assert rs[j] == rest[j - 1] && rest[j - 1] in rest;
    }
  }

  /** Rules go in exactly when each has an id and a type and no id is taken, also not by another of them. */
  lemma {:induction false} InsertRulesIff(rules: map<string, RuleRow>, rs: seq<Rule>)
    ensures InsertRules(rules, rs).Ok? <==> (forall r :: r in rs ==> CanInsertRule(rules, r)) && DistinctIds(rs)
    decreases |rs|
  {
    if rs != [] {
      var rest := rs[1..];
      assert rs == [rs[0]] + rest;
      DistinctIdsCons(rs[0], rest);
      if CanInsertRule(rules, rs[0]) {
        var next := InsertRule(rules, rs[0]).value;
        InsertRulesIff(next, rest);
        assert forall r :: CanInsertRule(next, r) <==> CanInsertRule(rules, r) && r.id != rs[0].id;
        assert forall r :: r in rs <==> r == rs[0] || r in rest;
      } else {
        assert rs[0] in rs;
      }
    }
  }

  /** What a commit changes: one row leaves PENDING for good, one decision row appears, the rules appear
      with it, and nothing else moves. */
  lemma CommitEffect(t: Tables, d: Decision, persistent: seq<Rule>)
    requires CommitPending(t, d, persistent).Ok?
    ensures var u := CommitPending(t, d, persistent).value;
            && d.requestID in t.requests && t.requests[d.requestID].status == Pending && d.requestID !in t.decisions
            && u.requests == t.requests[d.requestID := t.requests[d.requestID].(status := StatusAfter(d.action))]
            && u.decisions == t.decisions[d.requestID := d]
            && (forall r :: r in persistent ==> r.id in u.rules && u.rules[r.id] == RuleRow(Persisted(r), true))
            && (forall id :: id in t.rules ==> id in u.rules && u.rules[id] == t.rules[id])
            && (forall id :: id in u.rules ==> id in t.rules || exists r :: r in persistent && r.id == id)
  {
    InsertRulesAdds(t.rules, persistent);
  }

  /** A replay of any decision on a consumed request is refused. */
  lemma CommitConsumes(t: Tables, d: Decision, persistent: seq<Rule>, again: Decision, more: seq<Rule>)
    requires CommitPending(t, d, persistent).Ok? && again.requestID == d.requestID
    ensures CommitPending(CommitPending(t, d, persistent).value, again, more).Err?
  {
    CommitEffect(t, d, persistent);
  }

  // ---------------------------------------------------------------- the store

  /** Where the database fails a transaction, if it does. A failed COMMIT may have taken effect. */
  datatype Fault = NoFault | AtBegin | AtStatement(n: nat) | AtCommit(applied: bool)

  class Store {
    var requests: map<string, RequestRow>
    var decisions: map<string, Decision>
    var rules: map<string, RuleRow>

    function All(): Tables
      reads this
    {
      Tables(requests, decisions, rules)
    }

    constructor ()
      ensures All() == Tables(map[], map[], map[])
    {
      requests, decisions, rules := map[], map[], map[];
    }

    method Rollback(begun: Tables)
      modifies this
      ensures All() == begun
    {
      requests, decisions, rules := begun.requests, begun.decisions, begun.rules;
    }

    method UpdateRequestStatus(id: string, status: Status) returns (found: bool)
      modifies this
      ensures All() == UpdateStatus(old(All()), id, status)
      ensures found <==> id in old(requests)
    {
      found := id in requests;
      if found {
        requests := requests[id := requests[id].(status := status)];
      }
    }

    method InsertAlwaysRule(r: Rule) returns (err: Option<string>)
      modifies this
      ensures All() == match InsertRule(old(rules), r)
                       case Ok(after) => old(All()).(rules := after)
                       case Err(_) => old(All())
      ensures err.None? <==> CanInsertRule(old(rules), r)
    {
      if r.id == "" {
        return Some("rule ID required");
      }
      if TrimSpace(r.opType) == "" {
        return Some("op type required");
      }
      if r.id in rules {
        return Some("rule exists");
      }
      rules := rules[r.id := RuleRow(Persisted(r), true)];
      return None;
    }

    /** One transaction: the conditional update, the decision row, then rule after rule; anything that
        fails on the way rolls all of it back. */
    method CommitPendingDecision(d: Decision, persistent: seq<Rule>, fault: Fault) returns (err: Option<string>)
      modifies this
      ensures err.None? ==> CommitPending(old(All()), d, persistent) == Ok(All())
      ensures err.Some? && fault != AtCommit(true) ==> All() == old(All())
      ensures err.Some? && fault == AtCommit(true) ==>
                All() == old(All()) || CommitPending(old(All()), d, persistent) == Ok(All())
      ensures fault == NoFault ==> (err.None? <==> CommitPending(old(All()), d, persistent).Ok?)
    {
      if d.action.OtherAction? {
        return Some("unsupported decision");
      }
      var status := if d.action.Deny? then Denied else Approved;
      if !d.action.AllowAlways? && |persistent| != 0 {
        return Some("persistent rules require ALLOW_ALWAYS");
      }
      if fault.AtBegin? {
        return Some("begin");
      }
      var begun := All();
      if fault == AtStatement(0) {
        return Some("update");
      }
      if d.requestID !in requests || requests[d.requestID].status != Pending {
        return Some("REQUEST_NOT_PENDING");
      }
      requests := requests[d.requestID := requests[d.requestID].(status := status)];
      if fault == AtStatement(1) || d.requestID == "" || d.source == "" || d.requestID in decisions {
        Rollback(begun);
        return Some("insert decision");
      }
      decisions := decisions[d.requestID := d];
      for i := 0 to |persistent|
        invariant All() == begun.(requests := requests, decisions := decisions, rules := rules)
        invariant requests == begun.requests[d.requestID := begun.requests[d.requestID].(status := status)]
        invariant decisions == begun.decisions[d.requestID := d]
        invariant InsertRules(begun.rules, persistent) == InsertRules(rules, persistent[i..])
      {
        assert persistent[i..][1..] == persistent[i + 1..];
        if fault == AtStatement(2 + i) {
          Rollback(begun);
          return Some("insert rule");
        }
        err := InsertAlwaysRule(persistent[i]);
        if err.Some? {
          Rollback(begun);
          return;
        }
      }
      if fault.AtCommit? {
        if !fault.applied {
          Rollback(begun);
        }
        return Some("commit");
      }
      return None;
    }
  }
}
