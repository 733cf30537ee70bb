# Verified model of the banking agent's workflow core

A customer's message becomes a *workflow*: one row with a status, a version, an attempt count,
a next-attempt time and a decision, and a log of events in a second table. Four kinds of process
write it: the immediate trigger, the recovery worker of every replica, the routing run they
start, and the approval call. None of them holds a lock. Each reads a version, counts the
events, and commits a conditional update together with its new events. This project models that
protocol and the pipeline that decides what a run writes, and proves what they keep.

The parts, from the bottom up:

- `Text`, `Json`, `Powers`, `Wrappers`: strings with ASCII case folding, JSON values, powers of two,
  options and results.
- `Domain`, `EventTable`, `Store`: the workflow, its event log and how the table of numbered
  events stands for it, and each transaction as a function from the stored rows to a commit, a
  missed conditional update or a violated unique index.
- `Scanning`: what one scan of the recovery worker reads and what it does to all rows. A row is due
  when it is a Draft or Recovering, was last updated long enough ago and has no later attempt time;
  it is in reach when it is one of the 100 oldest due rows whatever the order of equal times.
- `Repository`, `ActionRepository`, `Operations`, `Recovery`: the same transactions and the
  calls around them as methods on a mutable database, each proved against those functions.
- `RoutingPolicy`, `Agents`, `ContactChannel`, `Profile`, `Orchestrator`, `Service`: the keyword
  policy, the four agent graphs with the model as an arbitrary oracle, the recalled preferences,
  the five steps of the orchestration, and the writes a run makes. `RunOutcome` reads what a run
  leaves in the row and in the log off the message, the answers and the memory alone.
- `Mcp`, `McpMeaning`, `EndToEnd`: the JSON-RPC tool server, its client and the two retry loops, and the
  planner's answer on its way from the graph to the terminal status.
- `Protocol`, `Invariant`, `Reachability`, `Theorems`, `Termination`: all processes as a step
  system in which version read, event count and commit are separate steps, any number of actors
  interleave in any order and any of them may die; what every step keeps; what follows for every
  run. `Refinement` ties the two forms together: a method leaves in the database what its actor's
  steps leave when nobody comes in between.
- `Personalisation`, `CancellationMarker`: two runs of one workflow that differ in what the profile
  recalls and which channels are configured.

Time is seconds on one line, and the clock of every process is a parameter, so no theorem relies
on clocks that agree. What a model, a host, the network or the profile service answers is a
parameter too. `hostedPlanner` in `Protocol.Config` says that every "ok" planner answer comes
from the planner graph; `EndToEnd.InvokePlanner` is the argument that the tool call, with all its
retries, gives exactly that.

## Where the code and its documentation differ

The repository's own README.md (lines 127-132) says that capability, which is what the
deployment can do about a remembered contact channel, changes wording and one audit event and
can change neither the approval flag nor the route. The profile step is described as fail-open:
losing personalisation is acceptable, refusing the customer's request is not
(src/application/AgentFrameworkWorkflowOrchestrator.cs:150-159). The orchestrator, however,
takes a run for cancelled when its output text holds "OperationCanceledException" anywhere
(line 542 of the same file), and that text includes the recalled preferences and the identifier
of the channel they name.

- `CancellationMarker.MarkerFailsTheRun`: a claimed dispute, which the store really holds
  (`CancellationMarker.ClaimedDisputeIsReached`), waits for approval with the approval flag on and
  its route in the log when nothing is recalled. With the same answers and the exception's name as
  the one stored preference it ends failed, with the approval flag off and no route in the log.
- `CancellationMarker.CapabilityFailsTheRun`: the same with one stored preference in both runs and
  a channel configured under that name in one of them.
- `Personalisation.NonInterference` says for all inputs exactly when memory and capability change
  nothing but the two events about them.

A property that looks as if it held of the channel assessment does not: "unsupported" is not only
the answer for a preference that names no configured channel, since a channel may be configured
with that very status. `ContactChannel.ConfiguredRefusal` is such an input and
`ContactChannel.UnsupportedExactly` the exact condition.

## Model

| member | source | states |
|---|---|---|
| `Theorems.SequencesAreDense` | src/infrastructure/Persistence/Configurations/WorkflowEventEntityConfiguration.cs:17-18 | In every reachable state the events are numbered 0..n-1 without gap or repeat |
| `Theorems.UpdateAppendsExactly` | src/infrastructure/Persistence/EfWorkflowRepository.cs:28-73 | Whatever happened between version read, event count and commit, an update never meets the unique index, and one that commits adds exactly its writer's events to an unchanged log |
| `Theorems.ClaimAppendsExactly` | src/infrastructure/Persistence/EfWorkflowRepository.cs:174-279 | The same for claims and exhaustions |
| `Theorems.DecisionAppendsExactly` | src/infrastructure/Persistence/EfWorkflowActionRepository.cs:28-134 | The same for decisions, whose four unique indexes stay silent |
| `Theorems.StaleWriterIsRefused` | src/infrastructure/Persistence/EfWorkflowRepository.cs:47-67 | A routing run or claim that comes back to a settled workflow changes nothing |
| `Theorems.WritesAreBounded` | src/application/WorkflowService.cs:241-380 | No run pushes a version past 3 * (MaxAttempts + 1) + 2 |
| `Theorems.AttemptsAreConserved` | src/infrastructure/Persistence/EfWorkflowRepository.cs:121-172 | The attempt count never exceeds MaxAttempts, and the log holds one claim for each attempt and at most one more, the immediate claim out of Draft |
| `Theorems.ClaimsAreSpaced` | src/infrastructure/Persistence/EfWorkflowRepository.cs:92-116 | By the times of the claim events in the stored log: worker claim k + 1 comes after the first by at least the sum, over the first k attempts j, of the lesser of the maximum and base * 2^min(j - 1, 8); the next attempt waits out one such number more, with no assumption about clocks |
| `Theorems.StatusIsReplay` | src/application/WorkflowService.cs:347-366 | The status is the replay of the log, and a settling event stands in it exactly once when the status is neither Draft nor Recovering, and never otherwise |
| `Theorems.StepFollowsEdge` | src/application/WorkflowService.cs:187-204 | Every step leaves the stored workflow alone or follows an edge of the lifecycle |
| `Theorems.FinalIsFrozen` | src/application/WorkflowService.cs:187-197 | Completed, Rejected and Failed are absorbing: no continuation changes any row |
| `Theorems.HistoryIsKept` | src/infrastructure/Persistence/EfWorkflowRepository.cs:28-73 | Draft is never entered again, log and decisions only grow, and equal versions mean equal rows |
| `Theorems.HumanGate` | src/application/WorkflowService.cs:403-465 | A gated completion has exactly one stored decision, an approval; an ungated one has none; a rejection has exactly one, no approval |
| `Theorems.GatedNeverCompletesUnapproved` | src/application/AgentFrameworkWorkflowOrchestrator.cs:361-377 | If the message mentions a dispute, or a suspicion together with freeze, block or close, or a hosted planner reads an action in it, then no run and no model answer completes the workflow without a stored approval; all three are occurrences of spelled-out words |
| `Theorems.DecisionIsExactlyOnce` | src/infrastructure/Persistence/EfWorkflowActionRepository.cs:28-134 | For any set of concurrent approvals at most one decision is stored, every call that returned asked for it, and a case and an action exist exactly for an approved dispute |
| `Theorems.NeverStuck` | src/infrastructure/Persistence/EfWorkflowRepository.cs:75-145 | From every reachable state, whoever died where, recovery alone can still settle the workflow |
| `Termination.WorkersComeToRest` | src/orchestrator/WorkflowRecoveryWorker.cs:48-93 | Over any interleaving, workers commit at most as many claims and exhaustions on a workflow as it has left to spend, at most MaxAttempts + 1 |
| `EndToEnd.GateHoldsForEveryAnswer` | src/application/WorkflowService.cs:347-348 | No terminal write opens a gate that those words of the message close, whatever every model answers |
| `EndToEnd.InvokePlanner` | src/infrastructure/FoundryMcpClient.cs:442-502 | Over all attempts of the retry loop, lost ones included: a result returned as "ok" is the planner graph's answer to the message that was sent |
| `Service.ApprovalLaw` | src/application/AgentFrameworkWorkflowOrchestrator.cs:346-477 | On every run that does not fail the gate is closed if and only if the specialist asks, or the message mentions a dispute or a suspicion with a protective action, or the planner asks and its agent is recognised |
| `Service.RouteLaw` | src/application/AgentFrameworkWorkflowOrchestrator.cs:346-378 | The logged route is the planner's specialist when the router knows it and otherwise the one the words of the message pick, a fallback is logged exactly then, and the stored intent is the specialist's |
| `RoutingPolicy.DecideMeaning` | src/application/WorkflowRoutingPolicy.cs:5-47 | Over occurrences in the message: which of the three agents the policy picks, each if and only if; approval is asked exactly for a dispute or a suspicion together with freeze, block or close; only a blank message is refused |
| `RoutingPolicy.PolicyMeaning` | src/application/WorkflowService.cs:430-445 | The policy requires approval, and an approval opens a case, on exactly those words, for every message, the blank one included |
| `RunOutcome.RunStores` | src/application/WorkflowService.cs:241-380 | Column by column, the row after any whole run, read off message, answers and memory: intent, gate, status, time and version of a run that reaches its end, those of a failed one, and which columns neither touches |
| `RunOutcome.RunLogs` | src/application/WorkflowService.cs:281-379 | Event by event, the log after a run that reaches its end, with exactly when a fallback, a disagreement and an unavailable channel are logged |
| `RunOutcome.FailureLogs` | src/application/WorkflowService.cs:249-279 | The log after a failed run: one failure, and before it the recalled memory unless the run was cancelled, a step raised, or the marker stands in what had been read |
| `Orchestrator.KnownAgentMeaning` | src/application/AgentFrameworkWorkflowOrchestrator.cs:597-616 | Which planner answers the router follows, to whom, and why it does not follow the rest |
| `Orchestrator.AcceptedExactly` | src/application/AgentFrameworkWorkflowOrchestrator.cs:618-706 | Which agent answers are accepted, over the JSON document itself, and what is read from them |
| `Orchestrator.FaultIsNoAnswer` | src/application/WorkflowService.cs:588-650 | Under a demo fault no agent's answer is ever accepted, whatever it would have been |
| `Personalisation.NonInterference` | src/application/AgentFrameworkWorkflowOrchestrator.cs:160-231 | Two memories and two channel configurations leave the same route, gate, status, intent and impersonal log if and only if both trip the cancellation scan, or neither does, or the inputs fail the run whatever is recalled |
| `CancellationMarker.ClaimedDisputeIsReached` | src/infrastructure/Persistence/EfWorkflowRepository.cs:147-172 | The dispute the two counterexamples start from is what the immediate trigger leaves in the store |
| `CancellationMarker.MarkerFailsTheRun` | src/application/AgentFrameworkWorkflowOrchestrator.cs:524-547 | With nothing recalled the dispute waits for approval, gated and routed; with one stored preference it ends failed, ungated and unrouted |
| `CancellationMarker.CapabilityFailsTheRun` | src/application/AgentFrameworkWorkflowOrchestrator.cs:524-547 | The same with one preference in both runs and one configured channel more in the second |
| `Personalisation.FailsExactly` | src/application/AgentFrameworkWorkflowOrchestrator.cs:524-547 | A run fails exactly when it would fail with nothing recalled and no channel, or trips the scan |
| `Personalisation.StepsAlike` | src/application/AgentFrameworkWorkflowOrchestrator.cs:276-511 | With fixed answers the recalled preferences and the configured channels change nothing in the context but the preferences themselves and the channel assessment |
| `Personalisation.FailsAtInputs` | src/application/AgentFrameworkWorkflowOrchestrator.cs:51-95 | A run fails exactly when its caller cancels, the message is blank, an agent's answer is missing or refused, the marker stands in workflow or answers, or what is recalled trips the scan |
| `Personalisation.StepsAtInputs` | src/application/AgentFrameworkWorkflowOrchestrator.cs:276-511 | The five steps succeed exactly when planner and routed specialist give answers the orchestrator accepts |
| `Agents.FallbackPlannerCoversPolicy` | src/agents/python/app/agents/planning.py:208-325 | Without a model, for every message: where the policy's words ask for approval the planner closes the gate, and where they name a dispute or a suspicion it does not pick the explainer |
| `Agents.SelectSpecialist` | src/agents/python/app/agents/planning.py:249-325 | Every branch: without a model the agent is fixed by what was read from the message; a model's choice is kept exactly unless it is a dispute nobody asked for or an explanation of an action request, and those go to the suspicious-activity agent |
| `Agents.PlannerWithoutModel` | src/agents/python/app/agents/planning.py:208-325 | Over occurrences in the message: which specialist, intent and risk the planner picks without a model, each if and only if, and when it asks for approval |
| `Agents.PlannerWithModel` | src/agents/python/app/agents/planning.py:208-384 | With a model: its choice stands unless it is a dispute that words and model do not both report or an explanation of an action request; the gate is closed exactly for a standing dispute or an action in words or in the model's reading |
| `Agents.SuspiciousResult` | src/agents/python/app/agents/suspicious_activity.py:114-286 | Which result the agent gives for every answer of every model call: gate, next step, severity, mode and where its evidence comes from |
| `Agents.DisputeResult` | src/agents/python/app/agents/dispute.py:144-306 | The same for the dispute agent, over the four facts |
| `Agents.ExplanationResult` | src/agents/python/app/agents/transaction_explanation.py:155-327 | The same for the explanation agent |
| `Refinement.RoutingRefines` | src/application/WorkflowService.cs:241-380 | A routing actor that nobody interrupts stores what the routing call stores |
| `Refinement.ClaimRefines` | src/infrastructure/Persistence/EfWorkflowRepository.cs:119-145 | A scan actor that nobody interrupts does to a workflow what the claim loop does to it |
| `Refinement.TriggerRefines` | src/infrastructure/Persistence/EfWorkflowRepository.cs:147-172 | A trigger actor on any workflow: a Draft is claimed with attempts and due time as they are, anything else ends the call |
| `Refinement.ApprovalRefines` | src/application/WorkflowService.cs:382-499 | An approval actor that nobody interrupts stores what the approval call stores and returns exactly when it does |
| `Refinement.StaleIsNoticed` | src/infrastructure/Persistence/EfWorkflowRepository.cs:47-67 | An actor whose version is no longer the stored one stops, at the read or at the commit, and changes nothing; a decision then looks for the winner |
| `Scanning.ScanLeaves` | src/infrastructure/Persistence/EfWorkflowRepository.cs:83-145 | In terms of the rows: a scan claims the oldest due row in reach that has attempts left, fails every exhausted one in reach that is older, changes nothing else but due rows without attempts, and changes nothing at all only if nothing is due |
| `Recovery.ScanSpends` | src/infrastructure/Persistence/EfWorkflowRepository.cs:119-145 | Every claim and every exhaustion of a scan takes at least one from what all workflows together have left to spend, and a scan with anything due makes one |
| `Recovery.RunSettles` | src/application/WorkflowService.cs:241-380 | A run nobody disturbs ends with a settled workflow, whatever the agents answer or fail to answer |
| `Recovery.WorkflowRecoveryWorker.RecoverBatch` | src/orchestrator/WorkflowRecoveryWorker.cs:48-93 | Each claim settles a workflow of its own and spends; if anything is due at the first turn the potential strictly falls; if anything in reach has attempts left then, something is claimed and the oldest such workflow ends settled; the batch stops early only after a cancelled turn or one that finds nothing in reach with attempts left |
| `Recovery.WorkflowRecoveryWorker.RecoverOne` | src/orchestrator/WorkflowRecoveryWorker.cs:52-91 | One turn: what the scan claims is the oldest row in reach and ends settled with the row and the log of exactly this run, the exhausted rows in reach are failed, nothing else changes |
| `Recovery.WorkflowExecutionTrigger.TriggerImmediate` | src/orchestrator/WorkflowExecutionTrigger.cs:19-57 | A Draft is claimed and settled, with the row and the log of exactly this run on the claimed workflow; anything else is left alone |
| `Profile.RecallComesFromScope` | src/application/AgentFrameworkWorkflowOrchestrator.cs:257-274 | Every preference is a trimmed memory of exactly that customer, and no two differ only in case |
| `Profile.PreferencesExactly` | src/application/AgentFrameworkWorkflowOrchestrator.cs:257-274 | The recalled preferences in one piece: the trimmed contents of the customer's non-blank memories, or of the profile entries among them if there are any, in order, each in its first spelling and no other twice |
| `Mcp.InvokeMcpTool` | src/infrastructure/FoundryMcpClient.cs:442-502 | For every sequence of outcomes: attempts made, the attempt that decided, the planned delay and why the loop cannot fall through |
| `Mcp.InvokeTyped` | src/infrastructure/FoundryMcpClient.cs:292-409 | The same for the typed envelope, where some status codes are retried |
| `Mcp.CallRoundTrip` | src/infrastructure/FoundryMcpClient.cs:536-580 | The client recovers exactly the agent's result, "ok" unless its status is error |
| `Mcp.EveryRequestAnswered` | src/agents/python/app/mcp_server.py:110-222 | Every request with an id gets one reply with that id and exactly one of result and error; without an id it gets an error or nothing |
| `McpMeaning.RequestMeaning` | src/agents/python/app/mcp_server.py:110-175 | Which reply a request object gets, in the server's order: the two invalid requests, bad parameters, silence without an id, initialize, tools/list, a tool call, an unknown method, each by its code |
| `McpMeaning.CallMeaning` | src/agents/python/app/mcp_server.py:165-222 | A call reaches the graph exactly when it names the hosted tool with readable arguments; every other one is refused as -32602, a failing graph as -32603 |
| `McpMeaning.ArgumentsMeaning` | src/agents/python/app/mcp_server.py:177-193 | Which arguments are readable and which message they carry |
| `McpMeaning.ReplyMeaning` | src/infrastructure/FoundryMcpClient.cs:536-580 | What the client takes for a result, if and only if, and with which code or exception it refuses everything else, a foreign id included |
| `McpMeaning.PayloadMeaning` | src/infrastructure/FoundryMcpClient.cs:1130-1164 | Which part of a result is the agent's payload |
| `McpMeaning.AttemptMeaning` | src/infrastructure/FoundryMcpClient.cs:452-463 | An attempt is answered exactly when both exchanges pass and the result can be read; otherwise the first exchange that fails says how |
| `McpMeaning.HttpErrorsTell` | src/infrastructure/FoundryMcpClient.cs:320-406 | Each error name the caller of the typed envelope sees tells one kind of last attempt from all others, and "ok" is exactly a 2xx response |
| `McpMeaning.McpErrorsTell` | src/infrastructure/FoundryMcpClient.cs:464-498 | The same for the MCP loop, protocol codes passed on as numbers |
| `ContactChannel.ContainsTerm` | src/application/ContactChannelPolicy.cs:305-328 | The search loop ends, stays in bounds and is true exactly when some occurrence, overlapping ones included, has clean neighbours |
| `ContactChannel.NormalizeMeaning` | src/application/ContactChannelPolicy.cs:297-298 | Two texts normalise to the same exactly when they differ at most in the case of letters and the shape of apostrophes |
| `ContactChannel.ContactWords` | src/application/ContactChannelPolicy.cs:104-118 | Contact is mentioned exactly when one of twelve words or phrases stands in the preference as a whole word |
| `ContactChannel.Assess` | src/application/ContactChannelPolicy.cs:222-264 | The nested loops compute the assessment function |
| `ContactChannel.FirstMatchDecides` | src/application/ContactChannelPolicy.cs:222-264 | The first match in preference order, then channel order, decides |
| `ContactChannel.UnnamedRefusal` | src/application/ContactChannelPolicy.cs:222-264 | A refusal without a channel means exactly: nothing was named and contact was mentioned |
| `ContactChannel.UnsupportedExactly` | src/application/ContactChannelPolicy.cs:222-264 | Exactly when a preference is refused as unsupported |
| `ContactChannel.ConfiguredRefusal` | src/application/ContactChannelPolicy.cs:222-264 | An input refused as unsupported although it names a configured channel |
| `Repository.EfWorkflowRepository.Add` | src/infrastructure/Persistence/EfWorkflowRepository.cs:11-17 | Stores exactly the workflow under a new id, and changes nothing when the id is taken |
| `Repository.EfWorkflowRepository.Get` | src/infrastructure/Persistence/EfWorkflowRepository.cs:19-26 | Finds the workflow when it is stored and maps its rows |
| `Repository.AddNewEvents` | src/infrastructure/Persistence/EfWorkflowRepository.cs:320-337 | The index loop, which both repositories share, inserts each event from the count on at its own position, or meets the unique index |
| `Repository.EfWorkflowRepository.SaveUpdate` | src/infrastructure/Persistence/EfWorkflowRepository.cs:47-72 | For any event count, stale or not, and any workflow, stored or not: the transaction leaves the committed row in place, or the old rows with the reason |
| `Repository.EfWorkflowRepository.Update` | src/infrastructure/Persistence/EfWorkflowRepository.cs:28-73 | Undisturbed, it commits if and only if the stored version is the expected one, and never meets the unique index |
| `Repository.EfWorkflowRepository.SaveCandidate` | src/infrastructure/Persistence/EfWorkflowRepository.cs:193-233 | The conditional update on version and status, with its one event, all or nothing |
| `Repository.EfWorkflowRepository.ClaimCandidate` | src/infrastructure/Persistence/EfWorkflowRepository.cs:174-246 | A claim stores the claimed row for whatever candidate it was given, with the exponential wait in numbers, and returns the workflow its caller works on |
| `Repository.EfWorkflowRepository.Exhaust` | src/infrastructure/Persistence/EfWorkflowRepository.cs:248-297 | Out of attempts, the candidate is failed with its event, or nothing changes when somebody was faster |
| `Repository.EfWorkflowRepository.ClaimFirst` | src/infrastructure/Persistence/EfWorkflowRepository.cs:119-145 | The loop over the candidates leaves the rows and the claim of the scan function |
| `Repository.EfWorkflowRepository.ClaimNext` | src/infrastructure/Persistence/EfWorkflowRepository.cs:75-145 | Run alone it has exactly that effect on the rows, and returns the claimed workflow as it is stored |
| `Repository.EfWorkflowRepository.Claim` | src/infrastructure/Persistence/EfWorkflowRepository.cs:147-172 | Only a Draft is claimed, without an attempt being counted, and no other row changes |
| `Scanning.WindowIsLeastRecent` | src/infrastructure/Persistence/EfWorkflowRepository.cs:83-117 | The window holds eligible rows only, each once, oldest first; an eligible row stays out only when 100 no younger ones are in |
| `Scanning.ScanMeaning` | src/infrastructure/Persistence/EfWorkflowRepository.cs:119-145 | Row by row: candidates before the first with attempts left are failed, that one is claimed, everything else is untouched |
| `Scanning.CurrentClaim` | src/infrastructure/Persistence/EfWorkflowRepository.cs:182-246 | On a candidate nobody changed the claim commits, and what the claimer sees is what is stored |
| `ActionRepository.EfWorkflowActionRepository.SaveDecision` | src/infrastructure/Persistence/EfWorkflowActionRepository.cs:52-117 | One transaction over the row and four tables, each with its unique index: all of it or none |
| `ActionRepository.EfWorkflowActionRepository.DecisionWasRecorded` | src/infrastructure/Persistence/EfWorkflowActionRepository.cs:137-165 | True exactly for the stored decision in any case, false exactly when there is none, a conflict otherwise |
| `ActionRepository.EfWorkflowActionRepository.AfterLosing` | src/infrastructure/Persistence/EfWorkflowActionRepository.cs:67-77 | After a lost race the call returns normally exactly when the winner recorded the same decision |
| `ActionRepository.EfWorkflowActionRepository.RecordDecision` | src/infrastructure/Persistence/EfWorkflowActionRepository.cs:28-134 | Undisturbed: a stored decision is confirmed or refused without a write, otherwise the decision is committed or the reason is returned |
| `Operations.WorkflowService.Start` | src/application/WorkflowService.cs:111-157 | The Draft stored before anything runs: every column, its customer trimmed, and its first events |
| `Operations.WrittenIsNext` | src/infrastructure/Persistence/EfWorkflowRepository.cs:28-73 | An update on the current state stores exactly that next state and touches no decision, action or case |
| `Operations.WorkflowService.PersistFailed` | src/application/WorkflowService.cs:555-573 | Stores the failed state when the version still holds, and nothing when it does not or the workflow is missing |
| `Operations.WorkflowService.ExecuteRouting` | src/application/WorkflowService.cs:241-380 | On a current workflow exactly the writes of the run are persisted, each at its own time, leaving the row and the log of `RunOutcome` column by column; on a stale or missing one nothing is |
| `Operations.WorkflowService.Recover` | src/application/WorkflowService.cs:175-239 | A settled workflow is returned as it is; an unsettled one is routed, with the same row and log |
| `Operations.WorkflowService.ApproveWorkflow` | src/application/WorkflowService.cs:382-499 | Case by case: what is returned or raised, and when the decision is stored; then status, decision, reason, time, version, the log and the three side tables, every other column kept |
| `Profile.BuildScopedRequest` | src/infrastructure/CustomerProfileClient.cs:294-338 | It succeeds exactly when there is a memory tool and every type is readable; every tool is edited as prescribed and every other field but kind and input is kept |
| `Profile.ReadLatestDefinition` | src/infrastructure/CustomerProfileClient.cs:234-292 | Picks the definition of the highest version, the last one on a tie, with each error exactly in its case |
| `Profile.DistinctTrimmedIsComplete` | src/application/AgentFrameworkWorkflowOrchestrator.cs:257-274 | No selected memory is lost: each survives in some spelling |
| `Reachability.StepKeeps` | src/application/WorkflowService.cs:241-485 | Every step of every actor keeps the invariant |
| `Reachability.InitialOk` | src/application/WorkflowService.cs:139-154 | A new Draft satisfies it |
| `Invariant.UpdateCommits` | src/infrastructure/Persistence/EfWorkflowRepository.cs:28-73 | With a count taken while the version held, an update commits if and only if the version still holds and then stores exactly the writer's state |
| `Invariant.DecisionKeeps` | src/infrastructure/Persistence/EfWorkflowActionRepository.cs:28-134 | A decision commits only on a waiting workflow without one, and stores exactly the decided state |
| `Service.RunsAreWellShaped` | src/application/WorkflowService.cs:241-380 | Every run makes at most two progress writes and then at most one that settles |
| `Service.StepsCoherent` | src/application/AgentFrameworkWorkflowOrchestrator.cs:276-511 | What the five steps hand on in a run that reaches its end |
| `EndToEnd.DecodeEncode` | src/application/AgentFrameworkWorkflowOrchestrator.cs:618-706 | What the orchestrator reads from a result the agent wrote is that result |
| `EndToEnd.AcceptedReplyIsPlan` | src/infrastructure/FoundryMcpClient.cs:448-499 | A planner reply the client accepts holds the planner graph's answer to the message that was sent |
| `EndToEnd.HostedAnswer` | src/infrastructure/FoundryMcpClient.cs:448-499 | The same for one attempt that the planner's host answered |
| `EndToEnd.HostedDecision` | src/agents/python/app/agents/planning.py:328-384 | Read back, the planner's answer names a specialist the router knows and asks for approval whenever an action term occurs |
| `EventTable.InsertAppends` | src/infrastructure/Persistence/EfWorkflowRepository.cs:320-337 | Inserting events from a count that is the table's own size meets no taken sequence and puts exactly the events past the count behind an unchanged log |
| `EventTable.RoundTrip` | src/infrastructure/Persistence/EfWorkflowRepository.cs:364-390 | Events numbered by position and read back in the order of their numbers are the same list |
| `EventTable.LogOfRun` | src/infrastructure/Persistence/EfWorkflowRepository.cs:383-390 | Ordering any run of consecutive sequence numbers, starting anywhere, reads the table off in order |
| `Mcp.GraphFailureReported` | src/agents/python/app/mcp_server.py:131-222 | A graph failure reaches the caller as code -32603 and is not retried |
| `Agents.PlannerGate` | src/agents/python/app/agents/planning.py:208-384 | For every model answer: action keywords and dispute routes close the gate, a dispute needs a dispute keyword, an explanation is never gated |
| `Store.MappingRoundTrip` | src/infrastructure/Persistence/EfWorkflowRepository.cs:343-409 | Mapping a workflow to its rows and back loses nothing |
| `Store.ClaimStores` | src/infrastructure/Persistence/EfWorkflowRepository.cs:174-246 | When a claim commits, when it finds no row and when it meets the index; column by column what it stores, a worker's wait as the lesser of the maximum and base * 2^min(attempts, 8) |
| `Store.ExhaustStores` | src/infrastructure/Persistence/EfWorkflowRepository.cs:248-297 | The same for an exhaustion, with its error code |
| `Store.UpdateStores` | src/infrastructure/Persistence/EfWorkflowRepository.cs:47-72 | The same for an update: every column it owns gets the writer's value and no other changes |
| `Store.DecisionStores` | src/infrastructure/Persistence/EfWorkflowActionRepository.cs:52-117 | The same for a decision and its three side tables |
| `Store.DelayFitsInt32` | src/infrastructure/Persistence/EfWorkflowRepository.cs:307-318 | Under the worker's option bounds the product of base and shifted one stays inside 32 bits, and the delay is the lesser of it and the maximum, and no less than the base |
| `Store.DelayGrows` | src/infrastructure/Persistence/EfWorkflowRepository.cs:307-318 | A later attempt never waits for less |
| `Agents.SuspiciousGate` | src/agents/python/app/agents/suspicious_activity.py:114-214 | Approval is asked exactly when a keyword or the model reports an action |
| `Agents.DisputeGate` | src/agents/python/app/agents/dispute.py:152-188 | A dispute always asks for approval, and is assessed exactly when all four facts are known, whatever the model says about completeness |
| `Agents.ExplanationGate` | src/agents/python/app/agents/transaction_explanation.py:193-237 | An explanation never asks for approval and explains only an identified transaction |
| `Profile.RecallIsolated` | src/infrastructure/CustomerProfileClient.cs:340-347 | Two replies that agree on the customer's own scope give the same preferences |
| `Profile.ScopedToolMeaning` | src/infrastructure/CustomerProfileClient.cs:294-338 | A memory tool is bound to the customer and otherwise kept, a code interpreter without a container gains the automatic one, every other tool is untouched |
| `Mcp.ResultRead` | src/infrastructure/FoundryMcpClient.cs:1090-1164 | Payload, status and attempt of a result the server built |

## Left out

- EF Core, PostgreSQL and SQLite: a transaction is atomic, a conditional update reports whether a row matched, and the declared unique indexes hold; the order in which a query returns rows with equal times is an arbitrary `order`.
- The tracked-entity cache behind the repository's reads: every read sees the stored rows.
- HTTP, tokens, sign-in, telemetry and logging: they carry no local algorithm.
- The Agent Framework and LangGraph runtimes: the edges are function composition.
- Language models: an oracle that may answer anything its schema allows, be absent or raise.
- Wording: event messages, guidance and the agents' canned fallback sentences are short stand-ins; no property depends on their text.
- Event times: every event of a write carries the time of that write; the source stamps the events of one write at slightly different times.
- Several workflows in the step system: the protocol is stated for one workflow, since no two share a row; the scan over many is `Scanning.ScanLeaves`.
- Case folding beyond ASCII: `Text.Lower` folds the ASCII letters only, and the orchestrator's word characters are the ASCII letters and digits.
- Column lengths: messages and intents of any length are stored.
- JSON text: bodies are values or unreadable, and property names match exactly.
- `CustomerProfileClient.Parse`: the reply is taken as its list of memories; picking them out of the response's items would only add easy members.
- `ContactChannelPolicy.FromConfiguration` and the default channels: the list of channels is a parameter.
- The demo catalogue: which fault a scenario injects is part of the run's world.
- Discovery of tools, endpoint resolution and validation of options outside the recovery worker.
- The evidence upload, the customer assertion guard, problem details and the web pages.
- Mcp.CheckReply: whether a number or an object in place of the id could print as the request's id is left open as a parameter.
- Mcp.InvokeTyped: a response is reduced to its status code and body; the remaining fields of the result are not modelled.
- Operations.WorkflowService.ExecuteRouting: states the outcome on a current and on a stale workflow; a workflow of equal version and different content does not occur in any run and is covered by `Repository.EfWorkflowRepository.Update` only.
- Recovery.WorkflowRecoveryWorker.RecoverBatch: describes the batch with no other process in between; the interleaved form is `Termination.WorkersComeToRest`.
