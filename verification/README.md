# Verification of the approval server

A Dafny model of the server's decision logic and of the pieces it leans on, with proofs. One module
per component:

- `RequestLifecycle` is the life of a request as a protocol: creators, manual and automatic decisions,
  kills, rule changes and one executor goroutine per dispatched request act on the in-memory map, the
  store and the semaphore. One step is one critical section of the request lock or one store statement;
  the process may crash and restart between any two steps, and every store statement may fail, or take
  effect and report a failure. `RequestLifecycleLaws` proves the invariant of all steps,
  `RequestLifecycleTheorems` what follows from it, `RequestLifecycleFinal` exactly when a terminal status
  is final. `Store` is the decision transaction; `RequestServer` has the server's operations as methods on
  a class, each shown to be a run of protocol steps.
- `UnifiedPatch`, `UnifiedPatchLaws` and `UnifiedPatchTheorems` are the patch applier against its
  specification, an edit script.
- `Glob`, `CleanPath`, `ShellScript`, `RuleEngine` and `RuleEngineLaws` are the rule engine: star
  patterns, flattening a shell syntax tree, matching and explaining.
- `LocalPolicy`, `LocalPolicyLaws` and `LocalPolicyRuns` are the risk flags, the filter on rules that may
  become permanent, the decision planner, and the filter over whole runs of the protocol.
- `DottedConfig` and `EnvFile` are the two configuration editors, `TokenManager` the session tokens and
  their mirror, `EventCoalescer` the terminal's event queue, `WebSocketFrames` the event socket's two
  ends, `VersionOrder` and `VersionSemver` version comparison, `OutputCapture` the bounded captures.
  `Text` holds the string functions all of them use.

Where the source loops or updates in place the model has methods and classes, each method tied to a
function or stating its property outright; the laws are lemmas about those functions. Integers are
unbounded except where width matters (`Atoi`, frame lengths), strings are sequences of code points.

## What turned out not to hold

These are properties one might expect; the model keeps the code as it is and proves the exact condition.

- A terminal status is not final, although the comment in the kill says the request is not executed.
  `FinalExact` gives the condition for every terminal status: it is final until a crash if and only if no
  goroutine is in one of the listed places. `KillExact` and `CancelExact` spell it out: a kill written
  between the executor's last look and its mark is overwritten (`KilledThenRunning`), and a request
  canceled while its approval is being decided still runs (`CanceledThenRunning`), because executors look
  for KILLED only. A cancellation whose store update is lost is undone by a restart
  (`CanceledThenPending`; `RestartShowsStored` says which requests a restart shows as pending).
- The patch applier does not see the line of a text that is a lone newline, and reads away a carriage
  return before a newline. A hunk that names no old line, below an untouched line, puts its lines one line
  too early; right after another hunk it fails. `ScriptExact` is the condition for a script of any number
  of hunks to give its new text, `ScriptWritten` what it gives otherwise.
- The one-star glob accepts strings in which prefix and suffix overlap (`GlobExact`).
- The filter on permanent rules reads the leading words of a command rule, the risk flags read the whole
  command: a passing rule for `apt`, `apt-get` or `systemctl` always matches some dangerous command
  (`CommandFilterExact`). The risk flag for paths looks at the path as written, the rules at the cleaned
  one (`FlaggedAndMatchedIff`).
- What the engine takes for the commands of a script includes dead ones, behind an or-list whose first part
  cannot fail, so a script may be refused for a command it never runs (`DeadLeaf`,
  `LiveLeavesAreWhatRuns`, `ScriptAllowedIff`; `ScriptRefusedIff` is the case without dead ones).
- A granted path that is not clean never matches again, nor does a granted shell command with a star
  unless it covers its own segments (`GrantExact`).
- `-1` as a prerelease identifier is compared as a number, and numbers beyond 64 bits are clamped or
  compared as text (`AgreesIffPlain`).
- Setting an env key that starts a comment or an export, or that contains a newline, is never found again
  (`SetThenLookup`).
- A pong to a ping of more than 125 bytes is malformed, and a frame of 2^31 bytes or more is misread
  (`PongUnmasks`, `HeaderRead`); the server's own pings are empty.
- The comment on the token sink says it runs under the manager's lock; issuing calls it after unlocking.
  The model takes each token operation as atomic.

## Model

| member | source | states |
|---|---|---|
| `RequestLifecycleTheorems.DispatchedOnce` | internal/httpapi/httpapi.go:1704-1814 | In every reachable state (any interleaving, store failure, crash and restart) no request was dispatched twice, and each dispatched one has exactly one committed decision, which allows it; so never after a committed DENY |
| `RequestLifecycleTheorems.CommitLeavesPending` | internal/store/decision.go:42-60 | A decision takes effect only in the step that takes its request out of PENDING: in the store, with its decision row, if there is one, otherwise in memory, where it was PENDING before and shows the decision after |
| `RequestLifecycleTheorems.NeverPendingAgain` | internal/httpapi/httpapi.go:702-777 | No run ever takes a stored request back to PENDING, nor one in memory unless the run contains a crash |
| `RequestLifecycleTheorems.RestartShowsStored` | internal/httpapi/httpapi.go:192-282 | While the server restarts, memory shows as PENDING exactly those requests whose stored status is PENDING, however many rows are loaded and whichever store statements fail |
| `RequestLifecycleTheorems.NeverResumed` | internal/httpapi/httpapi.go:190-191 | A committed approval that no goroutine carries (lost in a crash, or a commit reported as failed) is never dispatched in any later run |
| `RequestLifecycleTheorems.CrashAbandons` | internal/httpapi/httpapi.go:190-206 | Everything committed but not dispatched when the server stops is never dispatched afterwards |
| `RequestLifecycleTheorems.DecisionsAgree` | internal/httpapi/httpapi.go:1730-1750 | With a store, a decision in memory has the same decision and source as the one decision row of its request; decision rows are exactly the committed decisions and their requests have left PENDING |
| `RequestLifecycleTheorems.RulesFollowCommits` | internal/httpapi/httpapi.go:1775-1794 | A live rule was added by hand or belongs to an ALLOW_SESSION or ALLOW_ALWAYS that is already committed; the rules of a committed ALLOW_ALWAYS are in the store with it, in their persisted form, until deleted |
| `RequestLifecycleTheorems.AuthorityIsHuman` | internal/httpapi/automatic_decision.go:29-46 | Every automatic approval rests on rules that apply to its session and permit its operation, each added by hand or created by an earlier decision of a person, never by another automatic one |
| `RequestLifecycleTheorems.ApprovedInItsSession` | internal/httpapi/automatic_decision.go:29-46 | With a store, those rules apply to the stored session of the request and permit its stored operation |
| `RequestLifecycleTheorems.DecidedAsSubmitted` | internal/httpapi/httpapi.go:1711-1726 | Every decision, and so the dispatch behind it, is of the session and operation stored for its request, in memory and in the store |
| `RequestLifecycleTheorems.AutomaticScriptRunsCovered` | internal/httpapi/automatic_decision.go:29-38 | Whatever an automatically approved shell script runs, under any exit statuses, is a known command covered by a rule people made that applies to the stored session, unless such a rule spells out the whole invocation |
| `RequestLifecycleTheorems.BoundedConcurrency` | internal/httpapi/httpapi.go:1421-1440 | In every reachable state at most MaxConcurrency requests are RUNNING, each run by exactly one goroutine that holds a slot, and slots taken equal goroutines inside the guarded section |
| `RequestLifecycleFinal.FinalExact` | internal/httpapi/httpapi.go:1390-1662 | In every state of the protocol, a terminal status of a request stays in every run without a crash if and only if no goroutine may still overwrite it: an executor before its last look if the status is not KILLED and there are slots, one between that look and its result, one about to write another result, or a kill that read another kind of status |
| `RequestLifecycleFinal.KillExact` | internal/httpapi/httpapi.go:1430-1440 | A kill holds if and only if its executor is not between its last look and its result (unless the result is KILLED) and nobody is about to cancel the request |
| `RequestLifecycleFinal.CancelExact` | internal/httpapi/httpapi.go:711-722 | A cancellation holds if and only if nobody is about to kill the request and, unless there are no slots at all, no goroutine is on its way to execute it or executing it, short of giving its slot back |
| `RequestLifecycleFinal.KilledThenRunning` | internal/httpapi/httpapi.go:1430-1440 | A terminal status is not final: a reachable state and step where a KILLED request becomes RUNNING |
| `RequestLifecycleFinal.CanceledThenRunning` | internal/httpapi/httpapi.go:711-722 | A request canceled while its approval is decided runs all the same, because executors look only for KILLED |
| `RequestLifecycleFinal.CanceledThenPending` | internal/httpapi/httpapi.go:738-740 | A canceled request whose store update is lost is PENDING again after a restart |
| `RequestLifecycleLaws.StepKept` | internal/httpapi/httpapi.go:1390-1440 | Every step of every goroutine, and every crash and restart step, keeps the protocol invariant |
| `RequestLifecycleLaws.RunKept` | internal/httpapi/httpapi.go:1390-1440 | Every run keeps the protocol invariant |
| `RequestLifecycleLaws.ExecuteKept` | internal/httpapi/httpapi.go:1390-1662 | All eleven stages of the executor keep the invariant, in any interleaving |
| `RequestLifecycleLaws.CommitKept` | internal/store/decision.go:23-60 | The decision transaction keeps it, whether it succeeds, fails, or succeeds and reports a failure |
| `RequestLifecycleLaws.KillKept` | internal/httpapi/httpapi.go:702-777 | The two-section kill with its stale status keeps it |
| `RequestLifecycleLaws.RehydrateKept` | internal/httpapi/httpapi.go:208-281 | Rebuilding one request from the store keeps it |
| `RequestLifecycleLaws.QuietKept` | internal/httpapi/httpapi.go:1392-1460 | Moves that only take statuses away from PENDING keep everything but the slot count, which is checked apart |
| `RequestServer.Api.DecideInternalWithSource` | internal/httpapi/httpapi.go:1704-1814 | The decision as written is a run of protocol steps; on success the request was PENDING, carries the decision with its source, and exactly one dispatch follows unless it is a DENY; on failure memory, live rules and dispatches are untouched |
| `RequestServer.Api.ApproveByRule` | internal/httpapi/automatic_decision.go:18-60 | The automatic decision as written is a run of protocol steps; it approves and dispatches exactly a pending request whose operation the live rules of its session permit now and whose commit succeeded, and otherwise changes nothing |
| `RequestServer.Api.KillInternal` | internal/httpapi/httpapi.go:702-777 | The kill as written is a run of protocol steps; PENDING becomes CANCELED, APPROVED and QUEUED become KILLED, everything else is left alone |
| `RequestServer.Api.ExecuteApprovedRequest` | internal/httpapi/httpapi.go:1390-1662 | The executor as written is a run of protocol steps: nothing changes if the request was KILLED, it waits, QUEUED, exactly when no slot is free, and otherwise leaves the result status and gives its slot back |
| `RequestServer.Api.RunInSlot` | internal/httpapi/httpapi.go:1421-1440 | One that waited takes a free slot, looks again, and runs or, if KILLED meanwhile, leaves everything as it is; the slot is given back |
| `RequestServer.Api.CommitLocked` | internal/httpapi/httpapi.go:1736-1750 | The store transaction under the request lock is the protocol step for every way the database can fail |
| `RequestServer.Api.RecordAndDispatch` | internal/httpapi/httpapi.go:1752-1808 | Memory shows the decision before its rules become live, exactly the planned rules become live, and then one dispatch follows |
| `Store.CommitEffect` | internal/store/decision.go:19-60 | A commit takes one PENDING row to its decided status, adds one decision row and the rules with it, and changes nothing else |
| `Store.CommitConsumes` | internal/store/decision.go:17-22 | After one commit every further decision on that request is refused |
| `Store.InsertRulesIff` | internal/store/store.go:247-293 | A batch of permanent rules goes in exactly when each has an id and a type and no id is taken, also not within the batch |
| `Store.Store.CommitPendingDecision` | internal/store/decision.go:23-60 | Statement by statement with rollback: success is the specified commit, failure leaves the tables as they were, and only a failed COMMIT may have taken effect |
| `Store.Store.InsertAlwaysRule` | internal/store/store.go:247-293 | A rule row appears exactly when the insert is valid, in its persisted form |
| `Store.Store.UpdateRequestStatus` | internal/store/audit.go:168-187 | The one row named changes status, and its absence is reported |
| `UnifiedPatchTheorems.ScriptExact` | internal/executor/patch_file.go:44-145 | For every edit script of any number of hunks, applying its rendered diff to the old text gives exactly the new text, final newline included, if and only if the old text is not a lone newline, no rendered line ends in a carriage return, and each hunk that names no old line stands at the start or only repeats the line before it |
| `UnifiedPatchTheorems.ScriptWritten` | internal/executor/patch_file.go:44-145 | What applying it gives when no old line ends in a carriage return: each late hunk one line too early, or an error when such a hunk directly follows used-up lines |
| `UnifiedPatchTheorems.RenderThenApply` | internal/executor/patch_file.go:44-145 | When every hunk names an old line or is at the start, the new text comes out if and only if the old text is not a lone newline and no rendered line ends in a carriage return |
| `UnifiedPatchTheorems.ApplyThenUndo` | internal/executor/patch_file.go:44-145 | Applying a script and then its inverse (+ and - swapped) gives the old text back, under the exact condition, for any scripts |
| `UnifiedPatchTheorems.InvertSwaps` | internal/executor/patch_file.go:97-126 | Inverting a script swaps its old and new lines |
| `UnifiedPatchTheorems.UsualHeader` | internal/executor/patch_file.go:147-161 | The header a diff tool writes is read back as the start of its old range |
| `UnifiedPatchTheorems.OnlyInsertsExact` | internal/executor/patch_file.go:74-87 | The instance of one hunk that only inserts: it gives the new text only when every inserted line repeats the line before it |
| `UnifiedPatchTheorems.InsertionMisplaced` | internal/executor/patch_file.go:74-87 | What such a hunk produces instead: the inserted lines come one line too early |
| `UnifiedPatchTheorems.AddAfterGoesBefore` | internal/executor/patch_file.go:74-87 | A concrete diff for which that goes wrong |
| `UnifiedPatch.ApplyUnifiedPatchText` | internal/executor/patch_file.go:44-145 | The nested loops compute the interpreter of patch lines, error cases included |
| `UnifiedPatch.ApplyHunkLines` | internal/executor/patch_file.go:90-128 | The inner loop consumes the lines of one hunk up to the next header |
| `UnifiedPatchLaws.OrigOfText` | internal/executor/patch_file.go:45-52 | The applier sees the lines of a text and its final newline, unless the text is a lone newline |
| `UnifiedPatchLaws.DiffLines` | internal/executor/patch_file.go:54-55 | Cutting a diff whose lines are all ended gives its lines without carriage returns |
| `UnifiedPatchLaws.ApplyIsRun` | internal/executor/patch_file.go:63-145 | Interpreting the rendered lines is running the hunks one after the other |
| `Glob.MultiStarIsMeaning` | internal/rules/engine.go:406-427 | For every pattern with a star, leftmost-greedy search accepts a string exactly when some text for each star turns the pattern into it |
| `Glob.GlobExact` | internal/rules/engine.go:384-404 | The matcher accepts exactly the meaning of the pattern, and besides it only one-star strings in which prefix and suffix overlap |
| `Glob.OneStarPatternExact` | internal/rules/engine.go:394-404 | A one-star pattern is decided rightly on every string exactly when no tail of its prefix is a head of its suffix |
| `Glob.GlobMatch` | internal/rules/engine.go:384-404 | The branches of the matcher decide that |
| `Glob.MultiStarGlobMatch` | internal/rules/engine.go:406-427 | The loop over the parts decides the greedy acceptance |
| `Glob.GlobReflexive` | internal/rules/engine.go:384-427 | A pattern accepts itself |
| `Glob.GlobKeepsHead` | internal/rules/engine.go:384-427 | An accepted string starts with the star-free head of the pattern |
| `CleanPath.CleanIsCanonical` | internal/rules/engine.go:362-364 | Cleaning a path twice is cleaning it once |
| `ShellScript.SegmentsAreLeaves` | internal/rules/command_analysis.go:85-155 | The segments are exactly the leaves of the syntax tree, in order, unsupported leaves marked |
| `ShellScript.ListRunsLeaves` | internal/rules/command_analysis.go:131-155 | Whatever the exit statuses, a script runs only its leaves |
| `ShellScript.LiveLeavesAreWhatRuns` | internal/rules/command_analysis.go:131-155 | For every syntax tree, the leaves that are not dead behind an and-list or or-list are exactly the commands some run of the script starts |
| `ShellScript.LeavesAreWhatRuns` | internal/rules/command_analysis.go:131-155 | Without such dead leaves, all leaves are |
| `ShellScript.DeadLeaf` | internal/rules/command_analysis.go:131-155 | Dead leaves exist: what follows a group of one background statement in an or-list is a segment and never runs |
| `ShellScript.NoDeadIsLive` | internal/rules/command_analysis.go:131-155 | No leaf is dead when an ampersand stands only on statements of a list and no group is one background statement |
| `ShellScript.StaticWord` | internal/rules/command_analysis.go:179-200 | A word has a static text exactly when all its parts are literal, and then it is their concatenation |
| `ShellScript.SegmentFromCall` | internal/rules/command_analysis.go:157-177 | Assignments, dynamic words and empty commands are refused, in that order; otherwise the argv is the words |
| `RuleEngine.FindShellScript` | internal/rules/command_analysis.go:49-70 | The script argument is the word after the first flag that asks for one |
| `RuleEngine.CheckArgvPrefix` | internal/rules/engine.go:341-360 | A rule covers an argv exactly when it is not empty, not longer, and each word matches |
| `RuleEngine.Engine.Match` | internal/rules/engine.go:133-163 | The verdict on the rules live now, session rules before permanent ones |
| `RuleEngine.Engine.Explain` | internal/rules/engine.go:165-218 | The explanation computed from the same live rules |
| `RuleEngine.Engine.RemoveSessionRule` | internal/rules/engine.go:105-120 | Exactly the first rule of that id leaves the session, which disappears with its last rule |
| `RuleEngine.Engine.AddSession` | internal/rules/engine.go:93-97 | One rule is appended to that session and nothing else changes |
| `RuleEngineLaws.AllowedIff` | internal/rules/engine.go:133-305 | The verdict depends only on the set of live rules: an exact rule, all segments covered, or a matching rule |
| `RuleEngineLaws.SegmentEvidence` | internal/rules/engine.go:233-281 | An allowed segment names a live rule of the stated source that covers it; one is allowed exactly when supported and covered |
| `RuleEngineLaws.ExplainAgrees` | internal/rules/engine.go:165-218 | At one instant the explanation allows exactly the commands the match allows |
| `RuleEngineLaws.ExplainNamesTheRule` | internal/rules/engine.go:165-218 | For an operation decided by one rule the explanation names that rule, its source and the whole argv |
| `RuleEngineLaws.AddingNeverRefuses` | internal/rules/engine.go:87-97 | Over any run that only adds rules nothing allowed becomes refused |
| `RuleEngineLaws.AllowedStays` | internal/rules/engine.go:29-43 | What is allowed now was allowed at any earlier time with at least these rules: expiry only takes away |
| `RuleEngineLaws.OtherSessionsDoNotMatter` | internal/rules/engine.go:93-120 | Over any run that changes only another session the whole verdict is unchanged |
| `RuleEngineLaws.AllowedScriptRunsCovered` | internal/rules/engine.go:233-281 | If a script is allowed through its segments, every command it can run under any exit statuses is known and covered by a live rule |
| `RuleEngineLaws.ScriptAllowedIff` | internal/rules/engine.go:233-305 | For every syntax tree, a script is allowed exactly when a live rule spells out its argv, or it has leaves and each is a known command covered by a live rule |
| `RuleEngineLaws.ScriptRefusedIff` | internal/rules/engine.go:233-305 | Without dead leaves it is refused exactly for want of a rule for some command it can start |
| `LocalPolicy.RiskFlags` | internal/application/local_policy.go:122-171 | The flags of an operation, for apt up to the first removal and for systemctl up to the first stop of an ssh unit |
| `LocalPolicy.PlanLocalDecision` | internal/application/local_decision.go:24-71 | The plan of a decision or its refusal, for every action text, override list and flag setting |
| `LocalPolicyLaws.DangerousIff` | internal/application/local_policy.go:122-181 | An operation is dangerous exactly when its executable always is, when apt removes or purges at any place, when systemctl stops or disables a unit whose name contains ssh, or when a write is spelled under /etc/ |
| `LocalPolicyLaws.PathFilterSound` | internal/application/local_policy.go:66-81 | A path rule that passes the filter matches nothing at or under /etc, however the path is spelled |
| `LocalPolicyLaws.FlaggedAndMatchedIff` | internal/application/local_policy.go:161-168 | A flagged operation other than a command is matched by some rule that passes the filter if and only if it is a write whose path starts with /etc/ as written and leads elsewhere once cleaned |
| `LocalPolicyLaws.FlaggedButElsewhere` | internal/application/local_policy.go:161-168 | An instance: an upload to /etc/../srv |
| `LocalPolicyLaws.CommandFilterExact` | internal/application/local_policy.go:12-48 | A command rule that passes the filter matches a dangerous command exactly when its executable is literally apt, apt-get or systemctl |
| `LocalPolicyLaws.GrantExact` | internal/application/local_policy.go:83-120 | The rule made from an operation lets it through by itself exactly when it is a plain command, a shell command without stars or covering its own segments, or a clean path |
| `LocalPolicyLaws.GrantedStays` | internal/application/local_decision.go:42-62 | After ALLOW_SESSION without overrides the same operation matches at every later time until that rule is removed, whatever else happens to the rules |
| `LocalPolicyRuns.PlannerIsUnderPolicy` | internal/application/local_decision.go:24-71 | What the planner returns is a plan the protocol may commit; with the flag off, an ALLOW_ALWAYS plan holds only rules that pass the filter |
| `LocalPolicyRuns.PermanentRulesPass` | internal/httpapi/httpapi.go:863-908 | With the flag off, from any state under the policy, every permanent rule in the engine and in the store passes the filter after any interleaving, crash or restart |
| `LocalPolicyRuns.NoPermanentDanger` | internal/httpapi/httpapi.go:863-908 | So no permanent rule ever matches a write at or under /etc, and a dangerous command only for apt, apt-get or systemctl |
| `LocalPolicyRuns.NeverPermanentDanger` | internal/httpapi/httpapi.go:863-908 | The same for every run from a fresh installation |
| `DottedConfig.SetDotted` | internal/configedit/configedit.go:221-247 | On maps that share nothing, walking down through the maps turns the configuration into the tree with the key set; previous value and created flag describe the old one; it fails exactly when the key has a blank part or a non-object is in the way, and then no map has changed |
| `DottedConfig.GetAfterPut` | internal/configedit/configedit.go:243-246 | A lookup of the key gives the value, and below it what the value has |
| `DottedConfig.OthersUnchanged` | internal/configedit/configedit.go:230-246 | A path neither above nor below the key is as before |
| `DottedConfig.AboveIsObject` | internal/configedit/configedit.go:231-242 | Paths above the key are objects that keep their other keys |
| `DottedConfig.PutPut` | internal/configedit/configedit.go:243-246 | A second set overrides the first |
| `DottedConfig.PutGet` | internal/configedit/configedit.go:243-246 | Setting what is there changes nothing |
| `DottedConfig.PutFailsIff` | internal/configedit/configedit.go:238-241 | A set fails exactly when a leaf stands at a proper prefix of the path |
| `DottedConfig.Walk` | internal/configedit/configedit.go:228-242 | Levels are created only where nothing can fail any more |
| `DottedConfig.AssignIsPut` | internal/configedit/configedit.go:243-246 | One assignment to the map at a path is one set on the tree |
| `EnvFile.SetThenLookup` | internal/configedit/configedit.go:134-163 | A lookup after the set gives the value exactly when neither key nor value has a newline, the value does not end in a carriage return, and the key does not start a comment or an export |
| `EnvFile.OtherKeysStay` | internal/configedit/configedit.go:134-163 | Every other key without = looks up as before |
| `EnvFile.OtherLinesStay` | internal/configedit/configedit.go:140-163 | Every other line is byte for byte as before, up to a newline ending the last one |
| `EnvFile.SetTwice` | internal/configedit/configedit.go:134-163 | Repeating a set changes nothing and reports the value as the old one |
| `EnvFile.ReportsThePast` | internal/configedit/configedit.go:147-163 | The old value and the created flag are what a lookup before the set gives |
| `EnvFile.ApplySetEnv` | internal/configedit/configedit.go:134-163 | The loop replaces the first line that sets the key or appends one |
| `TokenManager.MirrorIsExact` | internal/auth/tokens.go:73-278 | After any operations the mirror the sink maintains is exactly the live claims |
| `TokenManager.VerdictFollowsHistory` | internal/auth/tokens.go:129-160 | After any operations a sliding token is accepted exactly up to its last touch plus its TTL, whatever happened to the others; past that it is expired and then unknown |
| `TokenManager.RestartKeepsAnswers` | internal/auth/tokens.go:79-88 | A manager rebuilt from the mirror gives every token the same answer at its next check, and its expiry then stands still |
| `TokenManager.RestartStopsSliding` | internal/auth/tokens.go:79-88 | At a second check it disagrees exactly when the token was sliding and the check falls after the frozen expiry but within a TTL of the first |
| `TokenManager.Manager.VerifyToken` | internal/auth/tokens.go:129-160 | Unknown, expired and dropped, or accepted and slid; the mirror follows |
| `TokenManager.Manager.ExtendToken` | internal/auth/tokens.go:162-194 | A valid token gets the new deadline and TTL, an expired one is dropped |
| `TokenManager.Manager.RevokeSessionTokens` | internal/auth/tokens.go:216-232 | Exactly the tokens of the session go, and their number is returned |
| `TokenManager.Manager.ExtendSessionTokens` | internal/auth/tokens.go:249-278 | Exactly the tokens of the session get the new deadline, expired ones included |
| `TokenManager.Manager.IssueWithRole` | internal/auth/tokens.go:98-123 | The token and its deadline, in memory and in the mirror |
| `TokenManager.Manager.RestoreAll` | internal/server/server.go:60-70 | Memory is rebuilt from the mirror without TTLs |
| `EventCoalescer.NoLostWakeup` | internal/tui/event_queue.go:29-55 | With any number of adders and takers, a waiting created event has a signal set, an adder about to send or a taker about to fetch |
| `EventCoalescer.LastIsDelivered` | internal/tui/event_queue.go:29-55 | Once the adders are done and a Take comes back empty-handed, the last created event was delivered |
| `EventCoalescer.NextTakeDelivers` | internal/tui/event_queue.go:43-55 | Until then it is what the very next Take returns |
| `EventCoalescer.DeliveredInOrder` | internal/tui/event_queue.go:29-55 | Events are delivered in lock order, each at most once |
| `EventCoalescer.FetchReturnsLast` | internal/tui/event_queue.go:50-54 | A fetch hands over the event it stands for |
| `EventCoalescer.Coalescer.Add` | internal/tui/event_queue.go:29-41 | A created event replaces the waiting one, any event sets the signal |
| `EventCoalescer.Coalescer.Take` | internal/tui/event_queue.go:43-55 | With a signal the waiting event is handed over and cleared, without one nothing changes |
| `EventCoalescer.CallsAreSteps` | internal/tui/event_queue.go:29-55 | A call of Add or Take that nobody interrupts has the effect of its two steps |
| `WebSocketFrames.StreamRoundTrip` | apps/android/app/src/main/java/app/racg/approver/ApproverSocket.kt:54-74 | Any list of frames with payloads under 2^31 bytes is consumed exactly, with the same opcodes and lengths, whatever follows (section 5.2 of RFC 6455) |
| `WebSocketFrames.HeaderRead` | apps/android/app/src/main/java/app/racg/approver/ApproverSocket.kt:140-157 | The client reads opcode and length of a written header back exactly for payloads under 2^31 bytes |
| `WebSocketFrames.PongUnmasks` | apps/android/app/src/main/java/app/racg/approver/ApproverSocket.kt:175-184 | A masked pong unmasks to the ping payload, and leaves what follows it, exactly up to 125 bytes (sections 5.2 and 5.3 of RFC 6455) |
| `WebSocketFrames.WsWrite` | internal/httpapi/approver_events.go:121-140 | Header with the shortest of the three length forms, then the payload |
| `WebSocketFrames.Input.Run` | apps/android/app/src/main/java/app/racg/approver/ApproverSocket.kt:54-74 | The client loop computes the same happenings for every way the stream is cut into reads |
| `WebSocketFrames.Input.ReadFrameHeader` | apps/android/app/src/main/java/app/racg/approver/ApproverSocket.kt:140-157 | The header is consumed exactly, or the stream ends inside it |
| `WebSocketFrames.Input.Skip` | apps/android/app/src/main/java/app/racg/approver/ApproverSocket.kt:159-167 | Exactly the payload is skipped; a negative length skips nothing |
| `WebSocketFrames.WriteMaskedFrame` | apps/android/app/src/main/java/app/racg/approver/ApproverSocket.kt:175-184 | The bytes of a masked frame, the length byte cut to eight bits |
| `VersionOrder.TotalPreorder` | internal/version/compare.go:9-89 | Comparison is reflexive, sign-antisymmetric and transitive on all strings |
| `VersionOrder.Compare` | internal/version/compare.go:9-22 | The comparison as written is that order |
| `VersionOrder.CompareNumericParts` | internal/version/compare.go:34-50 | The loop compares part by part, missing parts as zero |
| `VersionOrder.ComparePrerelease` | internal/version/compare.go:60-89 | The loop compares identifier by identifier, then lengths |
| `VersionSemver.AgreesIffPlain` | internal/version/compare.go:9-89 | A valid version compares as section 11 of Semantic Versioning 2.0.0 says with every plain version exactly when its numbers fit the machine and no identifier such as -1 reads as a number |
| `VersionSemver.PlainAgree` | internal/version/compare.go:9-89 | On plain versions the comparison is that precedence |
| `VersionSemver.NotPlainDisagrees` | internal/version/compare.go:52-89 | For every other valid version, a plain one with which the comparison errs |
| `VersionSemver.SplitRendered` | internal/version/compare.go:24-32 | A rendered version comes apart into its numbers and its prerelease, build metadata dropped |
| `OutputCapture.StreamCapture.Write` | internal/executor/executor.go:162-186 | However the output is cut, the buffer holds exactly its first max bytes, truncation is reported exactly when there are more, and the digest covers all of it |
| `OutputCapture.StreamCapture.Result` | internal/executor/executor.go:188-190 | Those three are what the result reports |
| `OutputCapture.CaptureLimited` | internal/executor/read_file.go:44-75 | However the reads cut the file: its first bytes, a digest of all of it, truncation exactly if it is longer, and nothing at all if a read fails |
| `OutputCapture.LiveOutput.Append` | internal/httpapi/httpapi.go:148-166 | The view holds exactly the last max bytes of the marked chunks, with the matching truncation flag |
| `OutputCapture.LastOfLast` | internal/httpapi/httpapi.go:160-164 | Cutting early loses nothing a later cut would keep |

## Left out

- HTTP handlers, JSON, SQL text, files, processes, signals, screens and clocks: times, fresh ids, decoded
  payloads and the outcome of every store statement are parameters.
- Result records: what an execution printed and its stored row; the protocol has statuses only.
- In the protocol rules have no clock: an automatic approval may rest on expired ones that are still in
  the engine. `RequestServer.Api.ApproveByRule` counts those live at its time. Which single rule id is
  reported is the rule engine's part and a parameter there.
- `RequestLifecycle` keeps live rules as a set: duplicates and order in the engine's lists are in
  `RuleEngine` only, and removing one of several equal session rules may or may not be the last.
- The limit of 5000 rows at restart is modelled as any subset of the rows being loaded.
- Rule changes made from another process on the same database file.
- Within one method of `RequestServer` no other goroutine acts; what happens between critical sections
  is in the protocol.
- The shell parser is not part of this model: it is a function from a script to statements or an error.
  A literal word stands for itself; expansion, aliases and functions are not modelled.
- A file descriptor in a redirection is a word of ASCII digits; the source takes any Unicode digit.
- The source text kept with each segment for display.
- Symbolic links in paths: a path is cleaned lexically, as the engine does before matching.
- Copying of rules against later changes by the caller: rules are values here.
- Numbers in a hunk header other than the old start, which the applier does not read either.
- DottedConfig.SetDotted: the maps of the value are taken to be its own, as freshly parsed values are.
- Values of a configuration other than objects are opaque leaves; parsing typed values and writing files
  are not modelled.
- Token operations are atomic, and the sink always succeeds; hashing is left out, a token is its hash.
- EventCoalescer.LastIsDelivered: the events of other kinds that only wake the taker carry no data.
- The handshake of the event socket, and frames the phone sends other than pongs.
- Redaction of the live view, and hashing of captured output (the digest's input is modelled).
- Pairing codes, challenges, staged uploads, the event hub, the updater and client profiles are not
  modelled.
