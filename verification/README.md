# Verified model of strangeclaw

A Dafny model of the parts of strangeclaw in which several threads, loops or
failure paths have to agree, and proofs of what they promise together. Each
module follows one part of the program. Where the program changes state in
place the model is a class whose methods are proved against a specification;
what holds over whole runs is proved about that specification.

| module | part of the program |
|---|---|
| `SessionControl`, `SessionSafety`, `SessionTheorems`, `SessionCount`, `SessionLimits`, `CoordinatorRegions` | The coordinator: callers, one worker thread per session and the idle reaper, interleaved at the locked regions. Single worker, capacity, no use of a sandbox once some thread has picked it for stopping, and what becomes of them when the surroundings do not keep their part. |
| `SessionWorker` | The worker thread: the events it hands on, the replies it passes on, how it ends. |
| `Dialogue` | Prompts and replies between user, coordinator, worker thread, ordered channels and the agent's wait loops. |
| `AgentLoop`, `PromptWindow` | The agent loop with planning, skill activation, tools, subagents and history compaction, driven by an arbitrary model and user. |
| `TokenBucket`, `Redaction`, `ResponseRedaction`, `Redirects` | The request broker: rate limit, redaction, byte cap, guarded redirects. |
| `BrokerCall`, `FireReceive`, `Framing` | Host service calls over the guest channel, the receive loop that hides them, and line framing under arbitrary chunks and timeouts. |
| `FireLifecycle`, `TapSubnets` | What a Fire session takes from the host and gives back when any step fails, and the /30 allocation inside 172.16.0.0/16. |
| `Journal`, `MessageSplit` | The bounded event journal and the message splitter. |

`dafny verify dfyconfig.toml` checks the whole project.

## What turned out false, and exactly when it holds

* Redaction by successive replacement is not complete for every token set.
  For tokens without brackets, longest first, it is complete if and only if no
  token occurs in the word of the marker (`CompleteIffNoTokenInMarkerWord`, `ResponsesCompleteIff`).
* `handle` redacts before it checks the envelope and does not redact the
  replacement it then returns. The response is free of tokens if and only if
  the last entry redacted onto the envelope's key holds a Boolean or the
  replacement has no token either (`ResponseCleanIff`); with the token
  `success` a success is not (`EnvelopeTokenSurvives`).
* A remote service call that is answered means the same as the in-process one
  if and only if the handler did not return something that is no mapping
  (`FireMeansYolo`, `AnsweredCallsRefineYolo`; `NonMappingDiffers` has such a handler).
* A failed handshake attempt can leave text in the receive buffer
  (`LeftoverHappens`). The received events are the sent ones if and only if it
  left none (`LineChannel.Session`, `EventsComeThrough`).
* A failed start deletes one of each own firewall rule whether or not it had
  added it. It restores the host if and only if no own rule it had not added
  was there before (`FailedStartBalances`; `FailedStartTakesOldRule` has a start
  that takes one away). The shared connection-tracking rule
  stays for good, although cleanup has a branch that deletes it: cleanup runs
  while the session's own TAP device still exists (`SharedRuleStays`).
* A journal line exactly as long as the limit makes the slice start at minus
  zero; the file then stays within the limit if and only if it held at most one
  line (`EventJournal.Append`, `FullLineExceedsLimit`).
* `stop_session` and `stop_all` do not test the stopping flag. A second stop of
  a session whose first one is still waiting for its worker makes two live
  workers possible (`SecondStopBreaksSingleWorker`), and a stop that found no
  sandbox can clear the flag of a reaped one (`EmptyStopBreaksPicking`), from
  every state of the invariant in which the limit leaves room for the start.
  Both happen from the initial state (`OverlappingStopsBreakSingleWorker`, `EmptyStopBreaksReaping`).
* The coordinator's own count, which includes records that are being stopped,
  can exceed the limit (`OwnCountMayExceedLimit`). It stays within the limit if
  and only if no step flags more records that did not count before than there
  is room for (`OwnCountStaysIff`, `OwnCountRunIff`). The sessions that really
  hold something never exceed it (`CapacityHolds`).

## Model

| member | source | states |
|---|---|---|
| `SessionTheorems.AtMostOneLiveWorker` | coordinator.py:98-165 | In every interleaving whose stops on one session do not overlap, a session never has two live workers. |
| `SessionTheorems.ExitNeverClearsAnother` | coordinator.py:335-340 | A worker's exit handler finds its own worker in the record or none, never a newer one. |
| `SessionTheorems.CapacityHolds` | coordinator.py:104-109 | In every reachable state at most max_active_sessions records hold a running worker or a running Fire sandbox. |
| `SessionTheorems.PickedNeverUsedAgain` | coordinator.py:342-422 | Once any thread has picked a sandbox for stopping, no run sends it another task or starts a worker on it. |
| `SessionTheorems.PickedStepUntouched` | coordinator.py:100-103 | The same for one step, whichever thread takes it. |
| `SessionTheorems.PickedStartUntouched` | coordinator.py:98-165 | A start for any session leaves a picked sandbox and its workers alone. |
| `SessionTheorems.ReleasedOnlyAfterStop` | coordinator.py:219-256 | A record gives up a picked sandbox or its stopping flag only after that sandbox's stop came back. |
| `SessionTheorems.OthersKeepFlaggedSandbox` | coordinator.py:100-103 | No step but the last region of a stop takes the sandbox or the flag from a flagged record. |
| `SessionTheorems.StartKeepsFlaggedSandbox` | coordinator.py:98-165 | A start leaves every flagged record as it is, its own session's included. |
| `SessionTheorems.StepKeepsInv` | coordinator.py:84-422 | Every locked region, stop return and environment move keeps the invariant that ties records, live workers, stopping threads and sandboxes together. |
| `SessionTheorems.RunKeepsInv` | coordinator.py:84-422 | The invariant holds after every run, of any length and interleaving. |
| `SessionTheorems.MaxActiveFixed` | coordinator.py:61-61 | No run changes the configured limit. |
| `SessionSafety.StartTaskKeepsInv` | coordinator.py:97-165 | A start, with each way its try block can fail, keeps the invariant. |
| `SessionSafety.StartTaskStarts` | coordinator.py:100-165 | A start that is not refused was admitted on a record with no live worker and no stop, and changes only that record, its sandbox and the new worker. |
| `SessionSafety.StartsKeepCapacity` | coordinator.py:104-109 | An admitted start keeps the number of holding sessions within the limit, also for a session that already counts while the limit is reached. |
| `SessionSafety.CountedCoverHolding` | coordinator.py:258-281 | Every session that holds something is among those the code counts. |
| `SessionSafety.EnterStopSessionKeepsInv` | coordinator.py:198-211 | The first region of stop_session keeps the invariant. |
| `SessionSafety.EnterStopAllKeepsInv` | coordinator.py:226-240 | The first region of stop_all keeps the invariant. |
| `SessionSafety.EnterReapKeepsInv` | coordinator.py:348-376 | The reaper's picking region keeps the invariant. |
| `SessionSafety.EnterRetireKeepsInv` | coordinator.py:391-409 | The first region of retiring a dead sandbox keeps the invariant. |
| `SessionSafety.SandboxStopKeepsInv` | coordinator.py:214-218 | The return of an unlocked stop keeps the invariant. |
| `SessionSafety.ReleaseKeepsInv` | coordinator.py:248-255 | The last region of every kind of stop keeps the invariant. |
| `SessionSafety.WorkerExitKeepsInv` | coordinator.py:335-340 | A worker's exit keeps the invariant. |
| `SessionSafety.NotesKeepInv` | coordinator.py:283-312 | Events and replies, which only write notes into records, keep the invariant. |
| `SessionSafety.UnflaggedMeansNoStop` | coordinator.py:355-356 | An unflagged record with a sandbox has no stop on its way, which is why the reaper may pick it. |
| `SessionLimits.SecondStopBreaksSingleWorker` | coordinator.py:198-224 | From every state of the invariant in which a thread has captured a live worker and its stop has not returned, a second stop_session followed by steps the environment grants leads to two live workers on the session, whenever the code's own count is within the limit. |
| `SessionLimits.EmptyStopBreaksPicking` | coordinator.py:198-224 | From every state of the invariant with a stop under way that found no sandbox, a reap that picks the session, followed by granted steps, leads to a new task and a new worker on the picked sandbox, whenever the limit leaves room. |
| `SessionLimits.OverlappingStopsBreakSingleWorker` | coordinator.py:198-224 | A concrete run from the initial state with two overlapping stop_session calls ends with two live workers on one session. |
| `SessionLimits.EmptyStopBreaksReaping` | coordinator.py:198-224 | A concrete run from the initial state in which a stop that found no sandbox clears the flag of a sandbox the reaper picked, which then gets a new task. |
| `SessionLimits.OwnCountMayExceedLimit` | coordinator.py:198-211 | A concrete run within all assumptions in which the code's own count exceeds the limit. |
| `SessionCount.OwnCountStaysIff` | coordinator.py:104-109 | From any state of the invariant whose own count is within the limit, a granted step leaves it within the limit if and only if the records it newly flags without their counting already fit into the room left. |
| `SessionCount.OwnCountRunIff` | coordinator.py:84-422 | Over every run the own count stays within the limit if and only if every step has that room where it is taken. |
| `SessionCount.EnteringCounts` | coordinator.py:198-240 | The first region of stop_session, stop_all, the reaper and retiring raises the own count by exactly the records it flags that did not count before. |
| `SessionCount.ReapCountsYolo` | coordinator.py:348-376 | The reaper raises the count by exactly the idle sandboxes it picks that are not Fire ones. |
| `SessionCount.OthersShrinkCount` | coordinator.py:84-422 | Every other step but a start leaves the own count or lowers it. |
| `SessionCount.StartKeepsCount` | coordinator.py:104-109 | A start keeps the own count within the limit, whatever it answers and however it fails. |
| `CoordinatorRegions.Coordinator.constructor` | coordinator.py:38-76 | A new coordinator starts in the initial state of the transition system. |
| `CoordinatorRegions.Coordinator.ActiveSessionCount` | coordinator.py:258-263 | The counting loop counts exactly the records that count toward capacity. |
| `CoordinatorRegions.Coordinator.StartTask` | coordinator.py:98-165 | The locked region in place has exactly the effect and answer of the start transition. |
| `CoordinatorRegions.Coordinator.LaunchOnExisting` | coordinator.py:139-164 | Launching on the running sandbox, with every failure point, is the launch transition. |
| `CoordinatorRegions.Coordinator.LaunchOnNew` | coordinator.py:133-164 | Launching on a new sandbox, with every failure point, is the fresh-launch transition. |
| `CoordinatorRegions.Coordinator.SubmitReply` | coordinator.py:187-196 | A reply is accepted exactly when a worker is recorded and a role is pending, and the role is cleared. |
| `CoordinatorRegions.Coordinator.EnterStopSession` | coordinator.py:202-211 | The first region of stop_session is its transition: what is captured, what is cleared, when the flag is set. |
| `CoordinatorRegions.Coordinator.EnterStopAll` | coordinator.py:231-240 | The loop over all records is the stop_all transition. |
| `CoordinatorRegions.Coordinator.MarkAll` | coordinator.py:231-240 | The loop captures and marks exactly the records that have something to stop. |
| `CoordinatorRegions.Coordinator.MarkForStop` | coordinator.py:232-240 | One turn of that loop captures and clears exactly one record. |
| `CoordinatorRegions.Coordinator.EnterReap` | coordinator.py:350-376 | The reaper's region is its transition. |
| `CoordinatorRegions.Coordinator.PickIdle` | coordinator.py:351-376 | The loop picks exactly the records that are idle for too long and flags exactly those. |
| `CoordinatorRegions.Coordinator.PickIfIdle` | coordinator.py:352-376 | One turn picks its record if and only if all seven tests pass. |
| `CoordinatorRegions.Coordinator.EnterRetire` | coordinator.py:393-409 | Retiring happens exactly when the record has an unflagged, dead sandbox, and is then its transition. |
| `CoordinatorRegions.Coordinator.ReleaseStopped` | coordinator.py:248-255 | The last region clears sandbox and flag of exactly the records it stands for. |
| `CoordinatorRegions.Coordinator.HandleWorkerEvent` | coordinator.py:291-305 | Plan, clarification and done events change the pending role and the completion time as the transition says. |
| `CoordinatorRegions.Coordinator.HandleWorkerExit` | coordinator.py:336-340 | The exit handler clears worker and pending role of its session. |
| `Dialogue.OneReplyPerPrompt` | coordinator.py:179-196 | In every run at most one accepted reply is queued or under way, and accepted replies never outnumber the prompts shown, nor those the prompts sent. |
| `Dialogue.ReplyAnswersLatestPrompt` | agent/agent.py:1165-1174 | Every reply the agent's wait loop consumes was given to the prompt it waits on, its latest. |
| `Dialogue.NothingLeftOverAtTaskStart` | agent/agent.py:474-483 | When a task is read, no prompt or reply of an earlier task is left anywhere: the extra reply to the iteration-limit message was dropped while idle. |
| `Dialogue.NothingUnderWayAtWork` | coordinator.py:468-499 | While the agent works, no prompt and no reply is under way. |
| `Dialogue.UnstoppedWorkerLeavesAfterDone` | coordinator.py:477-479 | While nobody stops, a worker that has left has read done, and later replies are refused. |
| `Dialogue.StepKeepsInv` | coordinator.py:468-512 | Every move of user, coordinator, worker and agent keeps the token invariant. |
| `Dialogue.RunKeepsInv` | coordinator.py:468-512 | The invariant holds after every run. |
| `Dialogue.ModeFixed` | coordinator.py:487-487 | Approval and sandbox mode do not change in a run. |
| `Dialogue.StartTaskKeepsInv` | coordinator.py:139-152 | Starting a worker finds nothing under way. |
| `Dialogue.SubmitKeepsInv` | coordinator.py:187-196 | An accepted reply turns the one open prompt into the one reply. |
| `Dialogue.DeliverKeepsInv` | coordinator.py:456-457 | Queueing a reply keeps the count. |
| `Dialogue.StopKeepsInv` | coordinator.py:459-466 | Stopping poisons the queue and the channel without adding a reply. |
| `Dialogue.WorkerReceivesKeepsInv` | coordinator.py:472-499 | What the worker reads opens at most one prompt. |
| `Dialogue.WorkerTakesKeepsInv` | coordinator.py:505-512 | Taking from the queue keeps the count. |
| `Dialogue.WorkerSendsKeepsInv` | coordinator.py:491-498 | The reply goes to the agent that waits for it. |
| `Dialogue.AgentReadsKeepsInv` | agent/agent.py:1165-1174 | The wait loops take what they wait for and drop the rest. |
| `Dialogue.AgentHitsLimitKeepsInv` | agent/agent.py:433-451 | The prompt at the iteration limit, which nobody waits on, keeps the invariant. |
| `Dialogue.AgentFinishesKeepsInv` | agent/agent.py:734-743 | A done after which nothing is owed keeps the invariant. |
| `SessionWorker.Worker.Run` | coordinator.py:468-503 | The worker hands every event on in order, goes on exactly as long as no turn ends it, ends as that turn says (error on a receive error, a raising handler or a reply that is not taken; done; stop; no reply), once, and has by then passed on one reply per question, one less where it gives up or raises, in the order of its queue. |
| `SessionWorker.Worker.Attend` | coordinator.py:471-503 | One turn hands on its event, passes on at most one reply, and ends the run exactly when the turn says so. |
| `SessionWorker.GoingOnReadsNoDone` | coordinator.py:477-479 | As long as the run goes on it has read no done. |
| `SessionWorker.Worker.PassReply` | coordinator.py:488-498 | A reply is passed on exactly when one is taken and the sandbox accepts it. |
| `SessionWorker.Worker.WaitForReply` | coordinator.py:505-512 | Waiting ends with the first item that is not an empty queue. |
| `PromptWindow.Fit` | agent/agent.py:1287-1323 | For any token counter the loop ends with the longest suffix of the window that fits; the summary is dropped only when there is one, nothing fits beside it and all events are gone. |
| `AgentLoop.ChildNeverSpawns` | agent/subagents.py:106-123 | Whatever the base configuration, a child cannot spawn and has no tool its parent lacks. |
| `AgentLoop.ClampIterations` | agent/agent.py:1072-1089 | The clamp is within the cap, refuses exactly the non-positive values and keeps what lies between floor and cap. |
| `AgentLoop.TaskBudget` | agent/agent.py:389-428 | With M iterations one task costs at most 4M*M + 6M model calls, and that of the child's M for each allowed child; RunTaskGuarded states it of a whole task. |
| `AgentLoop.BudgetInTurns` | agent/agent.py:389-428 | The bound is four planning phases before the loop and, in each turn, two calls and four planning phases. |
| `AgentLoop.StatusOfEvents` | agent/subagents.py:159-191 | The status is timeout without a done, and otherwise what the last done says. |
| `AgentLoop.NoDoneMeans` | agent/subagents.py:159-168 | Counting no done among the events is the same as no event being one. |
| `AgentLoop.Agent.RunTaskGuarded` | agent/agent.py:318-341 | A task that ends at all sends exactly one done as its last event, or none, and that exactly when the last check at the loop's boundary found the deadline passed; every earlier check had not, with one check before every turn. Success needs the model's agent_done with a non-blank reply as the last decision, and no export error. Every decision call saw the fitted window, and everything older had been handed to a summary call that returned or was taken over. The history records every action sent; the model calls are bounded. |
| `AgentLoop.Agent.RunTask` | agent/agent.py:343-451 | The same before the safety net, with the exceptions that reach it. |
| `AgentLoop.Agent.PlanAndExecute` | agent/agent.py:355-388 | A task that cannot be planned ends at once in a failed done; any other ends as its loop does. |
| `AgentLoop.Agent.Iterate` | agent/agent.py:389-395 | One iteration checks the deadline and takes a turn exactly when it has not passed. |
| `AgentLoop.Agent.CheckDeadline` | agent/agent.py:390-395 | The check asks the clock once and fires exactly when there is a deadline and it has passed. |
| `AgentLoop.Agent.CarryOut` | agent/agent.py:396-431 | What a decision leads to is observed before the next turn, and only an agent_done finishes. |
| `AgentLoop.Agent.Prepare` | agent/agent.py:359-372 | Planning and activation before the loop cost at most four planning phases and send no done. |
| `AgentLoop.Agent.Execute` | agent/agent.py:389-451 | The loop keeps the budget per turn and ends in one done, silently exactly when its deadline check fires, or in an exception without a done. |
| `AgentLoop.Agent.EndAtLimit` | agent/agent.py:433-451 | Running out of turns sends the clarification message and then a failed done. |
| `AgentLoop.Agent.GiveUp` | agent/agent.py:373-385 | A task that cannot be planned records the error and ends in a failed done. |
| `AgentLoop.Agent.Turn` | agent/agent.py:396-431 | One turn finishes only with the one done, and records the action it sent. |
| `AgentLoop.Agent.Conclude` | agent/agent.py:420-429 | After a replan the skills are activated anew, and then the outcome is observed as the last item of the history. |
| `AgentLoop.Agent.ActOnDecision` | agent/agent.py:673-705 | A decision is finished only by a done for a non-blank reply; whatever action it sent is what is left to observe. |
| `AgentLoop.Agent.ActAlone` | agent/agent.py:673-705 | A decision other than a replan or a subagent costs no model call, starts no child, and finishes only as agent_done. |
| `AgentLoop.Agent.FinishTask` | agent/agent.py:724-743 | agent_done finishes exactly with a non-blank text reply. |
| `AgentLoop.Agent.AskUser` | agent/agent.py:745-778 | A clarification sends its question and observes the next reply, a stop raises, and where clarification is off the user is not asked. |
| `AgentLoop.Agent.Replan` | agent/agent.py:780-806 | A replan takes the plan the model answered with and observes the feedback; malformed feedback is refused. |
| `AgentLoop.Agent.ReadFile` | agent/agent.py:808-855 | A skill file is read only for an activated skill; the action sent is the observation. |
| `AgentLoop.Agent.UseTool` | agent/agent.py:697-705 | A tool's result is sent and observed as one action; an exception passes through before anything is sent. |
| `AgentLoop.Agent.HandleSpawn` | agent/agent.py:867-945 | Whatever becomes of the child, the parent sends and observes one action, successful only if a child ran. |
| `AgentLoop.Agent.MaybeSpawn` | agent/agent.py:874-939 | A child is run exactly when children are allowed, the request is in order and the quota is not used up, and costs at most its budget. |
| `AgentLoop.Agent.RunChild` | agent/subagents.py:58-104 | The runner reports timeout exactly when the child's own deadline check fired, which is exactly when the child sent no done; otherwise the status is that of the child's one done. The child is a new agent with the child's configuration. |
| `AgentLoop.Agent.PlanningPhase` | agent/agent.py:485-516 | A planning phase costs at most M calls beyond those that a rejected plan restarts; the plan returned is the one in the model's last answer, and it fails exactly with another error of that answer, an M-th model error in a row, or the user's stop. |
| `AgentLoop.Agent.PlanOnce` | agent/agent.py:494-516 | Each model answer leads to the turn it should: a plan, an error observation or an exception. |
| `AgentLoop.Agent.NewPlan` | agent/agent.py:485-516 | A planning phase costs at most M calls beyond those that a rejected plan restarts, and the plan returned is the one in the model's last answer. |
| `AgentLoop.Agent.Propose` | agent/agent.py:518-522 | One model call; a plan is shown to the user, a runtime error is sent and recorded. |
| `AgentLoop.Agent.Verdict` | agent/agent.py:513-516 | Under review the first reply decides, a stop raises, other events are dropped. |
| `AgentLoop.Agent.WaitForUserReply` | agent/agent.py:1165-1174 | The wait loop consumes up to the first reply or stop and nothing behind it. |
| `AgentLoop.Agent.ActivateReferencedSkills` | agent/agent.py:548-593 | At most three replacement plans are made; success activates exactly the non-blank referenced skills of the plan returned. |
| `AgentLoop.Agent.ReplacePlan` | agent/agent.py:585-593 | A plan with an unknown skill is reported and planned anew. |
| `AgentLoop.Agent.ActivateAll` | agent/agent.py:565-581 | Success gives exactly the non-blank referenced skills, each of which was found; a failure names one that was not. |
| `AgentLoop.Agent.RecentHistory` | agent/agent.py:1325-1334 | When the part older than the window has grown, exactly one summary call over all of it is made; if it returns, that part counts as summarised, and otherwise nothing changes and the failure passes on. |
| `AgentLoop.Agent.ResumeContext` | agent/agent.py:453-472 | A resumed history counts as summarised up to the window. |
| `AgentLoop.Agent.ExecutionDecision` | agent/agent.py:595-618 | One decision call over the fitted window, after at most one summary call; its answer is the outcome. |
| `AgentLoop.Agent.ChooseNextDecision` | agent/agent.py:620-640 | A failed call or unusable answer is sent, recorded and costs the turn; a decision is the model's answer to the last decision call. |
| `AgentLoop.Agent.BuildDone` | agent/agent.py:1179-1205 | An export error turns success into failure. |
| `AgentLoop.Agent.BeginTask` | agent/agent.py:453-472 | A resumed history counts as summarised up to the window, and the per-task counters restart. |
| `AgentLoop.Agent.Observe` | agent/agent.py:707-711 | Recording the owed action restores that the history records every action sent. |
| `AgentLoop.Agent.SendAndRecord` | agent/agent.py:642-671 | An error action is sent and recorded as one. |
| `TokenBucket.AcceptedIffEveryWindowAllows` | sandbox/broker.py:141-150 | For non-decreasing call times call k is accepted if and only if for every j up to k the accepted calls in j..k-1 plus one are at most capacity + rate*(t_k - t_j). |
| `TokenBucket.AvailableIsLeastSlack` | sandbox/broker.py:141-150 | The tokens before a call are the least slack over all windows that end with it, attained by one. |
| `TokenBucket.EveryWindowBounded` | sandbox/broker.py:141-150 | No window holds more accepted calls than the burst and what its length earns. |
| `TokenBucket.AvailableStep` | sandbox/broker.py:143-149 | From one call to the next the tokens gain what the clock gives, lose what was taken and stop at the capacity. |
| `TokenBucket.FreshStartsFull` | sandbox/broker.py:135-139 | A new bucket is full and earns its capacity in one period. |
| `TokenBucket.Limiter.Consume` | sandbox/broker.py:141-150 | The method in place does what the specification of one call says. |
| `TokenBucket.Limiter.constructor` | sandbox/broker.py:135-139 | A new limiter is the full bucket. |
| `Redaction.RedactString` | sandbox/broker.py:913-917 | The loop is replacement token by token. |
| `Redaction.ReplaceIsRejoin` | sandbox/broker.py:913-917 | Replacing cuts out the occurrences from the left and puts the marker in their place; nothing else changes. |
| `Redaction.ReplaceRemoves` | sandbox/broker.py:913-917 | Replacing a separable token leaves no occurrence, also none that straddles a marker. |
| `Redaction.ReplaceBringsNothing` | sandbox/broker.py:913-917 | Replacing one token brings in no other separable one. |
| `Redaction.RedactionLeavesNoToken` | sandbox/broker.py:913-917 | With separable tokens the result contains none of them. |
| `Redaction.RedactingCleanChangesNothing` | sandbox/broker.py:913-917 | A string without tokens is left alone. |
| `Redaction.BracketFreeSeparable` | sandbox/broker.py:913-917 | A token without brackets is separable if and only if it does not occur in the marker's word. |
| `Redaction.CompleteIffNoTokenInMarkerWord` | sandbox/broker.py:865-917 | For bracket-free tokens, longest first, redaction is complete on all strings if and only if none occurs in the marker's word. |
| `Redaction.CompleteWithoutMarkerWordTokens` | sandbox/broker.py:913-917 | That condition suffices in any order. |
| `Redaction.MarkerWordTokenSurvives` | sandbox/broker.py:913-917 | Redacting a token that is part of the marker's word brings it back. |
| `Redaction.OnlyThatToken` | sandbox/broker.py:879-879 | Longest first, redacting a token by the whole list reaches the marker and then only the shorter ones act. |
| `ResponseRedaction.RedactedIsClean` | sandbox/broker.py:769-786 | No key and no string at any depth of a redacted response contains a token, and no dictionary gets a key twice. |
| `ResponseRedaction.CleanIsUnchanged` | sandbox/broker.py:769-786 | A response without tokens is unchanged. |
| `ResponseRedaction.RedactingTwice` | sandbox/broker.py:769-786 | Redacting again changes nothing. |
| `ResponseRedaction.RedactedIsRedactionOf` | sandbox/broker.py:769-786 | Redaction changes strings and keys and nothing else: lists and tuples keep their places, and of keys that become equal the last entry counts. |
| `ResponseRedaction.InsertedKeepsLast` | sandbox/broker.py:776-781 | Filling a dictionary keeps exactly the last entry of every key. |
| `ResponseRedaction.ResponsesCompleteIff` | sandbox/broker.py:769-786 | For bracket-free tokens, longest first, redaction is complete on all responses if and only if none occurs in the marker's word. |
| `ResponseRedaction.ResponseCleanIff` | sandbox/broker.py:211-224 | The response handed out is free of tokens if and only if the last entry that redaction maps onto the envelope's key holds a Boolean, or the fixed error has no token either. |
| `ResponseRedaction.EnvelopeSurvivesIff` | sandbox/broker.py:219-220 | The envelope survives redaction if and only if the last entry of the result that is redacted onto its key holds a Boolean. |
| `ResponseRedaction.EnvelopeTokenSurvives` | sandbox/broker.py:211-224 | With the envelope's own key as a token the response to a success contains that token. |
| `ResponseRedaction.LookupInserted` | sandbox/broker.py:776-780 | Looking a key up in a filled dictionary gives the last value put under it, or there was none. |
| `Redirects.Execute` | sandbox/broker.py:361-415 | The body is exactly the first max bytes of the concatenated chunks, truncated is set exactly when there were more, and an error behind the cap is not seen. |
| `Redirects.RedirectTarget` | sandbox/broker.py:1079-1103 | The target is the stripped, non-empty value of the first location header of a redirect status, joined to the base. |
| `Redirects.ExecuteWithRedirects` | sandbox/broker.py:417-472 | The requests sent are a run from the first one along redirects the guard let through, at most six, GET only after the first, and the outcome is the one that ends this run. |
| `Redirects.RunDetermined` | sandbox/broker.py:417-472 | Those two statements determine the requests and the outcome. |
| `Redirects.ValidateOrDeny` | sandbox/broker.py:226-293 | No denial if and only if scheme, method, host, path and headers are all allowed. |
| `Redirects.InjectKeepsModelHeaders` | sandbox/broker.py:295-320 | With its header protected the credential is the broker's, and every header the model supplied goes out as supplied. |
| `Redirects.SsrfOrDeny` | sandbox/broker.py:322-359 | No denial if and only if the URL is HTTP(S) and its host resolves to no blocked address, IPv4 in IPv6 judged as IPv4. |
| `Redirects.SsrfDenial` | sandbox/broker.py:322-359 | The reason given is the first test that fails. |
| `Redirects.PolicyRunWithin` | sandbox/broker.py:655-671 | Under the policy guard every request of a run is allowed by the policy. |
| `Redirects.PublicRunWithin` | sandbox/broker.py:673-701 | Under the public guard every request of a run was public when it was checked. |
| `Redirects.ExecutePolicyRequest` | sandbox/broker.py:531-573 | A credential leaves only to URLs its policy allows; a denied request costs no token and sends nothing, an allowed one costs exactly one and is refused exactly when the limiter refuses it; otherwise its outcome is that of the run along its redirects. |
| `Redirects.ExecutePublicRequest` | sandbox/broker.py:575-627 | Without an integration no credential leaves, and nothing is sent to an address that was blocked when checked. |
| `Redirects.HandleHttpRequest` | sandbox/broker.py:492-529 | A named integration is the only way to its credential, touches only its own limiter and comes to exactly what its policy request comes to; without a name the request is public; unknown and disabled ones send nothing. |
| `BrokerCall.FireMeansYolo` | agent/broker_client.py:44-114 | An answered remote call means the same as the in-process one if and only if the handler did not return a non-mapping, when one raises and the other returns an empty mapping. |
| `BrokerCall.NonMappingDiffers` | agent/broker_client.py:100-114 | With a handler that returns a non-mapping the two calls do differ. |
| `BrokerCall.AnsweredCallsRefineYolo` | agent/broker_client.py:68-114 | Over any run, with foreign events and late answers to abandoned calls, each call ends once and an answered one as above. |
| `BrokerCall.DispatchedIsHandlers` | sandbox/host_services.py:27-53 | Dispatch yields the handler's own outcome under the request's id, or an error that names the unknown service. |
| `BrokerCall.StepKeepsInv` | sandbox/host_services.py:55-73 | Every response under way belongs to a call that was made and is the answer to it. |
| `BrokerCall.StepKeepsEnded` | agent/broker_client.py:79-114 | Every call that ended was made, ended as it should and ended once. |
| `BrokerCall.RunKeepsInv` | agent/broker_client.py:68-114 | That holds after every run. |
| `BrokerCall.RunKeepsOnTheWay` | agent/broker_client.py:79-99 | The request of a waiting call or its answer is always on the way: neither is lost. |
| `BrokerCall.AwaitResponse` | agent/broker_client.py:79-114 | The first response with the call's id decides unless a timeout comes first; everything before it is discarded and nothing behind it consumed. |
| `BrokerCall.HostServices.Answer` | sandbox/host_services.py:55-73 | Every response carries the request's id, and a payload that is a mapping or an error text. |
| `BrokerCall.HostServices.Register` | sandbox/host_services.py:15-17 | Registering replaces that service's handler and no other. |
| `FireReceive.Sandbox.Receive` | sandbox/fire.py:1074-1101 | A call consumes broker events up to the first other one, returns that, and has by then answered exactly the requests it met. |
| `FireReceive.Sandbox.ReceiveAll` | sandbox/fire.py:1074-1101 | Over many calls the events returned are the guest's without the broker events, when one is returned all requests before it are answered, and receiving goes on to the end of the script or to the first turn at which the connection breaks. |
| `FireReceive.Sandbox.HandleBrokerRequest` | sandbox/fire.py:1191-1218 | One response per request with a text id, an error without services, and none recorded when sending fails. |
| `FireReceive.OneAnswerPerRequest` | sandbox/fire.py:1191-1218 | The answers are one per request, in the order of the requests, with their ids. |
| `Framing.LineChannel.ExtractLine` | agent/transport.py:201-207 | A line is cut off exactly up to the first newline, or there is none. |
| `Framing.LineChannel.Receive` | agent/transport.py:150-185 | Line and buffer together are what was buffered and what came in; a buffered line comes first and nothing is read behind a newline; a stopping sandbox reports silence instead of an error. |
| `Framing.LineChannel.ReceiveAll` | sandbox/fire.py:1145-1189 | Whatever the chunks and timeouts, the lines received and the rest in the buffer are the text that came in. |
| `Framing.LineChannel.RecvLine` | sandbox/fire.py:1350-1361 | The handshake line ends at the first newline and what follows goes to the buffer; there is none exactly when the stream ends or falls silent first. |
| `Framing.LineChannel.Connect` | sandbox/fire.py:1319-1348 | It connects if and only if some attempt is acknowledged, with the first such one; the buffer holds what the refused attempts left and what followed the acknowledgment. |
| `Framing.LineChannel.Session` | sandbox/fire.py:1319-1361 | Connecting and then receiving: if the winning connection brings the encoded events and does not fail, the lines received are these events if and only if no earlier attempt left text behind. |
| `Framing.LeftoverEmptyIff` | sandbox/fire.py:1350-1361 | Refused attempts leave nothing behind if and only if nothing came in behind the first line of any of them. |
| `Framing.LeftoverHappens` | sandbox/fire.py:1350-1361 | A refused attempt that leaves text behind. |
| `Framing.EventsComeThrough` | sandbox/fire.py:1319-1361 | Over a whole session the received lines are the encoded events, and decode to them, if and only if no earlier attempt left text behind. |
| `Framing.ReceivedIsPrefix` | agent/transport.py:150-185 | At any moment what was received is a beginning of what was sent. |
| `Framing.ReceivedIsAll` | agent/transport.py:150-185 | Once everything came in, what was received is all that was sent. |
| `Framing.FirstLineUnique` | agent/transport.py:201-207 | Two texts that agree and begin with lines begin with the same line. |
| `FireLifecycle.FireSandbox.Start` | sandbox/fire.py:1001-1049 | A start succeeds exactly when every step works and then holds one device with its rules, one lease, one process, one connection and one directory; otherwise it holds nothing and the host differs from before at most in its rules. |
| `FireLifecycle.FireSandbox.Boot` | sandbox/fire.py:1015-1043 | At whatever step it fails, what the object remembers is what was taken from the host. |
| `FireLifecycle.FireSandbox.TakeNetwork` | sandbox/fire.py:1016-1030 | Directory, device and rules are taken in this order until one fails. |
| `FireLifecycle.FireSandbox.TakeMachine` | sandbox/fire.py:1031-1043 | Lease, process and connection are taken in this order until one fails. |
| `FireLifecycle.FireSandbox.CreateTap` | sandbox/fire.py:410-426 | A device whose setup fails is gone again. |
| `FireLifecycle.FireSandbox.ApplyRules` | sandbox/fire.py:503-548 | The shared rule is added if missing, then the three own rules until one fails. |
| `FireLifecycle.FireSandbox.Cleanup` | sandbox/fire.py:550-608 | One of each own rule goes, the shared one only when no Fire device is listed. |
| `FireLifecycle.FireSandbox.Stop` | sandbox/fire.py:1103-1143 | Everything held is released as far as the teardown commands work, and nothing is held afterwards; a stop during a stop does nothing. |
| `FireLifecycle.CidLeaseManager.Allocate` | sandbox/fire.py:678-699 | The lease is the first drawn candidate that is not lent out, and only that is added. |
| `FireLifecycle.CidLeaseManager.Release` | sandbox/fire.py:701-720 | Releasing takes back that lease and no other. |
| `FireLifecycle.FailedStartBalances` | sandbox/fire.py:1044-1049 | A failed start restores the host, up to the shared rule, if and only if no own rule it did not add was there before. |
| `FireLifecycle.FailedStartTakesOldRule` | sandbox/fire.py:1044-1049 | On every host with an old own rule for a free device a start that fails at its first own rule takes the old rule away. |
| `FireLifecycle.RulesBalanceIff` | sandbox/fire.py:503-594 | Applying rules up to any point and cleaning up restores them if and only if no own rule that was not added was there before. |
| `FireLifecycle.CountsAfter` | sandbox/fire.py:503-594 | How many of each rule are left afterwards. |
| `FireLifecycle.ReleaseUndoes` | sandbox/fire.py:1103-1143 | Releasing what was taken restores everything but the rules. |
| `FireLifecycle.StopBalances` | sandbox/fire.py:1103-1143 | A successful start and a stop restore the host up to the shared rule. |
| `FireLifecycle.SharedRuleStays` | sandbox/fire.py:595-608 | No teardown takes the shared rule away. |
| `FireLifecycle.StopTwice` | sandbox/fire.py:1103-1143 | A second stop does nothing. |
| `TapSubnets.IndexGetsOneBlock` | sandbox/fire.py:2001-2015 | Every index gets the two host addresses of one /30 inside 172.16.0.0/16; the range check never fails. |
| `TapSubnets.SharedIffCongruent` | sandbox/fire.py:2001-2007 | Two indices have the same addresses if and only if they are equal modulo 16384, and share none otherwise. |
| `TapSubnets.TapDeviceManager.Create` | sandbox/fire.py:362-399 | The first free index from the counter on is taken, within the retries, and live allocations stay disjoint, also after the counter wraps; each failure leaves them as they were. |
| `TapSubnets.TapDeviceManager.NextSessionIndex` | sandbox/fire.py:468-494 | The counter file yields its value and is raised by one, or is left alone when it is unusable. |
| `TapSubnets.TapDeviceManager.Destroy` | sandbox/fire.py:401-408 | Destroying a device removes that one only. |
| `TapSubnets.FreeIsDisjoint` | sandbox/fire.py:373-378 | An index whose addresses are not listed shares none with a live device. |
| `TapSubnets.RoomMeansNoCollisions` | sandbox/fire.py:372-378 | With fewer blocks in use than retries, some attempt finds its addresses free. |
| `TapSubnets.TriedAreDistinct` | sandbox/fire.py:372-374 | Successive attempts try different blocks. |
| `Journal.EventJournal.Append` | adapters/session_persistence.py:84-112 | The file is a tail of whole written lines ending with the new one; what it keeps of the old lines is all that fits, or the longest tail shorter than the remaining budget; it stays within the limit if and only if the line is shorter than the limit or there was at most one line. |
| `Journal.EventJournal.AppendAll` | adapters/session_persistence.py:62-114 | Over any run of accepted, refused, over-long and failing writes the file is a tail of the lines written, ending with the latest, and within the limit unless some line has exactly that length. |
| `Journal.FullLineExceedsLimit` | adapters/session_persistence.py:84-112 | A line of exactly the limit, written to a file of two lines, leaves the second line with it and exceeds the limit. |
| `Journal.Keep` | adapters/session_persistence.py:92-99 | Cutting by bytes and then behind the next newline keeps whole lines: all, or the longest tail below the budget, or all but the first when the budget is zero. |
| `Journal.CutAtLine` | adapters/session_persistence.py:94-97 | From any cut the text behind the next newline is the longest tail of whole lines shorter than what the cut left. |
| `Journal.LongestTailUnique` | adapters/session_persistence.py:92-99 | What is kept is determined. |
| `MessageSplit.Chunk` | adapters/telegram.py:392-439 | Splitting ends, refuses non-positive limits, and cuts each time at the last good place within the limit. |
| `MessageSplit.FindMarkdownSplit` | adapters/telegram.py:441-452 | The cut is the last newline outside a code fence, else the last newline, else the limit. |
| `MessageSplit.PlainSplit` | adapters/telegram.py:404-406 | The cut is the last newline behind the first character, else the limit. |
| `MessageSplit.RFindNewline` | adapters/telegram.py:443-443 | The position is the last newline before the end, or there is none. |
| `MessageSplit.ChunkSizes` | adapters/telegram.py:392-439 | Every chunk of a non-empty text has between one and limit characters. |
| `MessageSplit.ChunksRejoin` | adapters/telegram.py:409-414 | The text is the chunks with at most one newline behind each: nothing else is lost. |
| `MessageSplit.CutsDetermined` | adapters/telegram.py:392-439 | The chunks are determined. |
| `MessageSplit.FencesAddUp` | adapters/telegram.py:445-446 | Counting fences adds up across a newline. |
| `MessageSplit.FencesStayClosed` | adapters/telegram.py:441-452 | If all fences of the text are closed and no fallback cut is used, they are closed in every chunk. |
| `MessageSplit.FallbackOpensFence` | adapters/telegram.py:449-451 | A cut at a newline leaves a fence open exactly when it is a fallback. |

## Left out

Assumptions about the surroundings:

* Coordinator: stops on one session do not overlap, `worker.stop()` returns only after the worker has ended (the code joins with a timeout), and no sandbox dies under its live worker. `SessionLimits` shows what happens otherwise.
* Coordinator: blank text, which `start_task` refuses at once, event sinks, the journal call, persisted state and status messages are not part of the control model; neither is liveness (a failed start emits its events after releasing the lock and can race with a newer start).
* Dialogue: the channels of a live worker neither lose nor reorder messages and its thread starts; one sandbox life at a time; and no worker ends because it raised (an event that does not decode, or a broker response that cannot be sent), after which a later task could reach an agent that is still at work. `SessionWorker` says when a worker does.
* Agent: collecting output files and sending events on a working transport do not raise; plan parsing keeps only the referenced skills, already stripped; tool arguments, prompts and file contents are not modelled; blank means ASCII white space; a user who sends nothing more is the outcome `Blocked`; an unavailable subagent runtime is not modelled.
* Agent: the bound on model calls is stated for automatic approval; under review each rejected plan may add M calls, which `RunTaskGuarded` counts.
* Broker: floating point is replaced by reals; URL parsing and joining, globbing, stripping and name resolution are arbitrary functions and do not raise; case is ASCII. Denial texts are reduced to their reason.
* Broker: web search, payload parsing, credential collection and policy records are left out; they add branch-by-branch checks.
* Service calls: events cross the channel unchanged (JSON round trip), and a handler is a function of its payload.
* Framing: a closed transport and negative timeouts, which the code refuses at once, are left out; events are encoded as ASCII without newlines (section 7 of RFC 8259 escapes control characters), so every split of the bytes decodes piece by piece; the clock is the `Expired` turn.
* Fire: external commands either work or fail without effect; new directories, processes and connections are new; the TAP device of a live session is not removed by others. Rule order within a chain, boot configuration and log export are left out.
* TAP allocation: calls are sequential, and the addresses of live devices appear in the listing (`ip` works); two processes between listing and adding can still collide.
* Journal: JSON encoding and redaction of the event, and the atomic replacement of the file, are not modelled; redact_sensitive is left out.
* LLM providers, skill discovery, CLI, the Telegram display, configuration checks and file exports are left out: library wrapping or single-branch checks.

Stated weaker than the code's whole effect:

- AgentLoop.Agent.ActOnDecision: says what a decision costs, sends and leaves to observe, not which tool arguments were used, because arguments are not modelled.
- AgentLoop.Agent.RunTaskGuarded: does not state the content of the state and files of a done event, because plans and files are abstract.
- FireLifecycle.FireSandbox.Start: assumes that the teardown commands it falls back on work; `FireSandbox.Stop` states what stays behind for each one that does not.
- FireLifecycle.SharedRuleStays: follows the code, which keeps the shared rule although its cleanup has a branch that would delete it.
