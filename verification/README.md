# Durable routines, verified

A Dafny model of a library of "durable routines" and proofs about it. A routine is a chain of handlers: each handler
returns either a result or a list of cases (a timer, a send, a call, an immediate case) and the runtime runs the
handler of the case that fires. The library has two runtimes for one programming model, and both are modelled in the
form in which they are written, together with the code they share and five of the example routines that run on them.

## How the model is built

**Shared code.** `Keys` holds the registration keys, `Registry` the worker's handler map, `Queries` the stores of
query results, `Durable` continuations, cases, the context that collects a handler's effects, and the choice between a
handler's outcome and its recovery handler's.

**In-memory runtime.** `Mailbox` breaks `waitForCase` into its atomic steps: the scan of the buffer, the check of the
timers, one receive on a channel. `InMemory` is the whole runtime as a machine over a map of instances; a run is any
sequence of labels (an action of a goroutine, of a client, or of the clock), so every interleaving is a run. What
handlers return is part of the label, so nothing is assumed of them. Histories that no branch reads (messages enqueued
with their origin, messages delivered, calls taken, replies, handler runs) carry the theorems. `History` and `Routing`
show what each action keeps inside an instance and between instances, and `Reachable` states the main theorems about
every reachable state. `Instances` and `RuntimeObject` are the same code as classes: the fields of `instance` and
`Runtime`, the loops of `waitForCase`, `applyContextEffects` and `runInstance`, run against a script of what the rest
of the world does between two steps; their contracts say that each execution consists of moves that keep the machine's
invariants, and among clients it is an execution of the machine. `WaitLoop` is about one pass of the loop and about
whole executions of it. `Clock` measures timers on the clock between two states of one run, `Priorities` compares the
order in which cases fire with the documented one over whole waits, `Choices` says which of several cases of one kind
is run in every reachable state and what the constructors' cases wait for, `InForce` follows what a handler returned
to everything that it changes, and `Driving` and `Witnesses` build concrete runs from the empty system.

**Temporal workflow.** `Temporal` is one iteration of the workflow loop as a function of its variables and of a turn:
what the activities return, which updates arrive and when, whether their notifications are dropped, which ready case
the selector picks, and whether to continue as new. The server's history threshold is an arbitrary boolean per
iteration. `WorkflowObject` is the loop as a class with the variables it reassigns. `WorkflowRuns` has the invariants
and failed calls, `Outputs` follows what a handler or a call returned through the workflow, `CallInputs` the input
that a call runs on, `ContinueAsNew` exactly when a cut changes nothing and `Draining` what the drain before it does.
`Agreement` shows that a workflow does what an in-memory history does; `Replay` goes the other way and rebuilds a
workflow run as a run of the in-memory runtime from the empty system.

**Routines.** `Provider` (with `ProviderTimers`), `Fanout`, `Pipeline`, `Batch` and `Auction` give the handlers of
five examples, as functions and as the loops and updates of the source, and prove what an instance running them does
in every reachable state of the in-memory runtime. Their hypotheses are about histories: that the instance was started
with the routine's first handler, and that its handlers did what their code says. `Families` has what parents and
children share. Each payload type has a constructor for payloads of other routines, so unrelated traffic is covered.

Payloads are abstract values (a type parameter), and each routine's own datatype in the routines' modules. Strings,
keys and counts are unbounded; no arithmetic in the modelled code can reach a machine limit except counters of
messages and items. Times are integers in nanoseconds. Auction amounts are reals.

## Where the code does less than its documentation

The model follows the code. Each of these is proved as it is, with the exact condition where there is one and with a
concrete run where a run is needed to show it.

- Timers, calls, sends, Default is the documented order (durable/continuation.go:105-109). In memory a case fires out
  of that order exactly as `Priorities.OutOfTurnExactly` lists. A buffered send passes over a due timer
  (`Witnesses.BufferedPassesTimer`); the blocking select takes any ready alternative, a send although a timer is due
  (`Witnesses.SelectPassesTimer`) or a call waits (`Witnesses.SelectPassesCall`); and what becomes ready in the course
  of a pass, or is hidden on a channel, is passed over. For timers alone `Priorities.ExpiredTimerWins` says when one
  wins.
- Default is documented to run only if no other case is ready. In memory an undisturbed pass also runs it when an
  awaited send is behind one that is not awaited, or an awaited call behind one that is not (`Priorities.DefaultRuns`;
  `Witnesses.DefaultPassesSend`, `Witnesses.DefaultPassesCall`).
- In memory a call matches a case on its request kind alone. It runs under the handler key that it was made with
  exactly if the first case of its request kind has that key (`Priorities.CallRunsUnderOwnKey`;
  `Witnesses.CallRunsUnderAnotherKey`).
- Continue-as-new drops a message that has been received but not handled (`ContinueAsNew.CutUnseenIffClean`,
  `Witnesses.CutLosesMessage`). It runs queued calls without their recovery handlers, effects or completion and jumps
  to the first case of their continuation (`Draining.DrainJumps`). It forgets the update handlers of earlier waits, so
  even a cut with nothing queued and no message can be seen: the workflow then refuses an update that it would have
  accepted, and that is the only difference (`ContinueAsNew.CutsTransparent`, `ContinueAsNew.CleanCutShows`).
- An update handler outlives its wait. A Temporal call runs on the input of the last case with its key among all waits,
  since the last cut, that had begun when it was accepted, and `CallInputs.CallRunsOnLastAwaited` says exactly when
  that is the input of the current wait. It can be stale (`CallInputs.CallInputCanBeStale`), and the current wait need
  not await the call at all (`CallInputs.LeftoverUpdate`).
- A handler that returns no cases fails the workflow, but waits for ever in memory (`Agreement.EmptyCasesEndWorkflow`,
  `Agreement.EmptyCasesWaitForEver`).
- A failed call ends an in-memory routine (`History.FailKeeps` is about that branch), but leaves a workflow in the same
  wait (`WorkflowRuns.FailedCallsStutter`).
- Kinds that contain colons can share a key (`Keys.HandlerKeyUnique` and its two companions).
- The fan-out parent with no items waits for ever (`Fanout.NoItemsNoEnd`).

## Model

| member | source | states |
|---|---|---|
| Keys.HandlerKeyUnique | internal/durablecore/keys.go:3-5 | a handler key belongs to one pair of kinds exactly if neither holds a colon |
| Keys.SendKeyUnique | internal/durablecore/keys.go:6-8 | a send key belongs to one triple of kinds exactly if none holds a colon |
| Keys.CallKeyUnique | internal/durablecore/keys.go:9-11 | a call key belongs to one quadruple of kinds exactly if none holds a colon |
| Keys.FamiliesDisjoint | internal/durablecore/keys.go:3-12 | keys of the four families never coincide, whatever the kinds |
| Keys.SignalNameOfSendKey | backend/temporal/workflow.go:267-269 | rebuilding the signal name from a send case's key gives the key that senders use |
| Registry.Worker.AddEntry | durable/routine.go:94-99 | registering a key adds an entry without recovery, and registering it twice is refused |
| Registry.Worker.RegisterRecoveryHandler | durable/routine.go:101-107 | the error key gets the recovery handler, the primary entry keeps its handler and names the error key, and nothing else changes |
| Registry.RegistryHolds | durable/routine.go:94-107 | a sequence of registrations succeeds exactly if no key is registered twice and every recovery handler is for a key registered before; then each key holds its own handler, its error key the recovery handler given last, and the registry nothing else |
| Registry.RegistriesKeep | durable/routine.go:94-107 | after any registrations every recovery key is the error key of its own entry and registered, and every entry is a primary one or the recovery of one |
| Registry.OneRecovery | backend/temporal/workflow.go:375-388 | looking a recovery key up gives what the entry names, and a recovery handler has none, so at most one runs |
| Queries.MergeQueryResults | backend/temporal/workflow.go:390-406 | the nested loop computes the merge of which the lemmas below speak |
| Queries.MergeReads | backend/temporal/workflow.go:390-406 | merging keeps names unique, and a lookup gives the last entry merged under the name, else what it gave before |
| Queries.MergeOrder | backend/temporal/workflow.go:390-406 | merged names stand in the order of their first appearance |
| Queries.MergeSnoc | backend/temporal/workflow.go:390-406 | merging b and then c is merging b followed by c |
| Queries.MergeOfContext | durable/context.go:141-158 | filtering a handler's writes through its context list does not change the merge |
| Queries.StoresAgree | backend/inmemory/runtime.go:195-204 | over any handler runs the in-memory map and the workflow's list both give the last write under each name |
| Queries.ApplyQueryResults | backend/inmemory/runtime.go:197-204 | the copying loop writes the entries into the map in order |
| Durable.Context.BufferStart | durable/context.go:45-52 | appends one start request and changes nothing else |
| Durable.Context.BufferSend | durable/context.go:61-72 | appends one send request and changes nothing else |
| Durable.Context.SetQueryResult | durable/context.go:141-158 | overwrites the entry of that name where it stands, or appends one |
| Durable.Combine | durable/continuation.go:110-116 | Select takes all cases of all its arguments, each argument's together and in order, and is never done |
| Durable.OutputSays | durable/routine.go:67-83 | a handler's output is done, with the result and no cases, exactly if its continuation is; otherwise it has the continuation's cases |
| Durable.SelectsNest | durable/continuation.go:110-116 | nesting Selects changes neither the cases nor their order |
| Mailbox.EnqueueKeeps | backend/inmemory/runtime.go:211-221 | an enqueue from any origin keeps conservation and order of mail |
| Mailbox.WaitStepKeeps | backend/inmemory/runtime.go:250-284 | each deterministic step of the wait loop keeps conservation and order, adds to deliveries exactly what fires, answers each unmatched call at once, and fires only a case that really fired |
| Mailbox.BlockStepKeeps | backend/inmemory/runtime.go:344-404 | so does each alternative of the blocking select |
| Mailbox.CallCase | backend/inmemory/runtime.go:310-314 | a call goes to the first call case of its request kind, whatever its handler key |
| WaitLoop.PassPriority | backend/inmemory/runtime.go:250-291 | a pass takes a buffered send, then an expired timer, then the first caller, then the head of the channel, then Default |
| Priorities.DefaultRuns | backend/inmemory/runtime.go:250-284 | an undisturbed pass runs Default whenever no other case is ready; when it runs, none is exactly if no awaited send is behind an unawaited one and no awaited call behind an unmatched one |
| Priorities.OutOfTurnExactly | durable/continuation.go:105-109 | over the whole wait, the blocking select and all disturbances included, where and when a case fires although one that is documented to come first is ready |
| Priorities.ExpiredTimerWins | backend/inmemory/runtime.go:250-404 | over any execution of a wait, with a timer due a timer fires exactly if no buffered send does, the pass is not beyond its check and the select does not take another alternative; a timer passed over beyond the check became due after it |
| Priorities.CallRunsUnderOwnKey | backend/inmemory/runtime.go:296-321 | a call taken runs under the key it was made with exactly if the first case of its request kind has that key, else under that case's key, and is refused exactly if there is none |
| Witnesses.SelectPassesTimer | backend/inmemory/runtime.go:364-380 | a reachable state in which the blocking select takes a send although a timer is due and nothing is buffered |
| Witnesses.SelectPassesCall | backend/inmemory/runtime.go:344-380 | a reachable state in which the blocking select takes a send although an awaited caller is waiting |
| Witnesses.BufferedPassesTimer | backend/inmemory/runtime.go:250-270 | a reachable state in which a buffered send fires although a timer is due |
| Witnesses.DefaultPassesSend | backend/inmemory/runtime.go:272-284 | a reachable state in which Default fires although an awaited send is on the channel |
| Witnesses.DefaultPassesCall | backend/inmemory/runtime.go:272-321 | a reachable state in which Default fires although an awaited caller is waiting |
| Witnesses.CallRunsUnderAnotherKey | backend/inmemory/runtime.go:310-314 | a reachable state in which a call is run under another key than it was made with |
| Choices.FiringsAreFound | backend/inmemory/runtime.go:250-404 | in every reachable state each handler was run for the first send case of its key, the first call case of its kind, the first Default, or the nearest timer and of those the first |
| Choices.AfterWaits | durable/continuation.go:58-69 | a timer case is due exactly from its duration on, and takes no send and no call |
| Choices.ReceiveSendWaits | durable/continuation.go:74-84 | a send case takes exactly the messages under the key of its kinds |
| Choices.ReceiveCallWaits | durable/continuation.go:89-100 | a call case takes exactly the calls of its request kind |
| Choices.ImmediateWaits | durable/continuation.go:118-149 | an immediate case alone is not waited for; among others it is Default |
| WaitLoop.WaitExecKeeps | backend/inmemory/runtime.go:250-292 | any execution of the loop, with any disturbances, keeps the mail invariants and its deadlines |
| History.HandleKeeps | backend/inmemory/runtime.go:104-112 | running a handler keeps the instance invariant, whether it returns or fails |
| History.FailKeeps | backend/inmemory/runtime.go:105-112 | a failed run answers its call with the error, contributes no effect and ends the routine |
| History.SettleKeeps | backend/inmemory/runtime.go:114-138 | after the effects the call is answered before the routine finishes or waits again |
| History.AfterWaitKeeps | backend/inmemory/runtime.go:140-148 | taking up the handler of a fired case keeps the history legal and the mail accounted for |
| Reachable.StepKeeps | backend/inmemory/runtime.go:73-404 | every action of goroutines, clients and the clock keeps the system invariant, and histories only grow |
| Reachable.MailConserved | backend/inmemory/runtime.go:224-293 | in every reachable state the messages enqueued under a key are those handled, then those buffered, then those on the channel, in that order |
| Reachable.MailOrdered | backend/inmemory/runtime.go:250-339 | over keys that no wait left unawaited, messages are handled in the order in which they were enqueued |
| Reachable.SendsNeedRoom | backend/inmemory/runtime.go:211-221 | a channel takes a message exactly if it holds fewer than 1024; effects stop exactly at a send to a full one |
| Reachable.ClientsReach | backend/inmemory/client.go:17-54 | what starting, sending and calling change: a new routine about to run its first handler unless the id is taken, a message at the end of the channel, a caller behind those before it |
| Reachable.RunsLegal | backend/inmemory/runtime.go:96-149 | every handler runs because the routine started or because a case of the run before fired, on that case's key and input; a routine ends as its last run says |
| Reachable.TimersNotEarly | backend/inmemory/runtime.go:232-270 | between the times that a history records, of entering a wait and of its timer firing, the duration has passed |
| Clock.TimersTakeTime | backend/inmemory/runtime.go:232-270 | from any reached state before the wait to any later one in which its timer has fired, the clock advances by the duration at least |
| Reachable.QueriesAreLastWrites | backend/inmemory/runtime.go:172-204 | the query map holds the last writes of the invocations whose output was used |
| Reachable.SendsRouted | backend/inmemory/runtime.go:211-221 | what the runs of one instance sent to another arrived there in order, or is about to, or was dropped |
| Reachable.StartsPrecedeSends | backend/inmemory/runtime.go:206-221 | a send to a routine started by the same handler is never dropped, whatever the order of the Buffer calls |
| Reachable.DropsStop | backend/inmemory/runtime.go:214-219 | once the target exists no send to it is dropped |
| Reachable.OneReplyPerCall | backend/inmemory/runtime.go:96-149 | no call gets two replies; a call taken has its reply unless the instance is working on it, and an instance that waits or has finished is working on none |
| Reachable.ReplyIsTheRuns | backend/inmemory/runtime.go:105-126 | the reply to a call is what the run it started produced, and it is there before the next wait and before the end |
| Instances.Instance.ComputeTimers | backend/inmemory/runtime.go:232-238 | the loop computes the absolute deadlines of the timer cases |
| Instances.Instance.CheckBuffered | backend/inmemory/runtime.go:251-262 | the scan is the machine's scan step |
| Instances.Instance.CheckExpired | backend/inmemory/runtime.go:264-270 | the timer check is the machine's timer step |
| Instances.Instance.TryReceiveCall | backend/inmemory/runtime.go:296-321 | the non-blocking call receive is the machine's step, including the error reply to an unmatched call |
| Instances.Instance.TryReceiveSend | backend/inmemory/runtime.go:325-339 | the non-blocking send receive is the machine's step, including the buffering of an unmatched send |
| Instances.Instance.BlockForCase | backend/inmemory/runtime.go:344-380 | the blocking select waits until an alternative is ready and then takes it as the machine does; it makes progress on the script or the channels |
| Instances.Instance.WaitForCase | backend/inmemory/runtime.go:226-293 | the whole loop is an execution of the machine, ends on every script, fires only a case that really fired, no timer early, and stays blocked only with empty channels and no deadline passed |
| RuntimeObject.MoveIsStep | backend/inmemory/runtime.go:96-222 | a move of the goroutine, or of a client, is a step of the machine with the same effect, and a pause is none |
| RuntimeObject.MovesAreExec | backend/inmemory/runtime.go:96-222 | any moves among clients are an execution of the machine that leads to the same instances and clock |
| RuntimeObject.MovesReach | backend/inmemory/runtime.go:96-222 | so from a reachable state they lead to a reachable one, and the theorems about reachable states hold there |
| RuntimeObject.MovesKeep | backend/inmemory/runtime.go:96-222 | any moves of a goroutine and the world around it keep every instance's invariant |
| RuntimeObject.Runtime.Start | backend/inmemory/runtime.go:74-94 | a taken id is left alone, a free one gets a new instance |
| RuntimeObject.Runtime.RunHandler | backend/inmemory/runtime.go:152-192 | the whole outcome of the recovery handler if the primary failed and one is registered, else of the primary; an unregistered key fails without effects |
| InForce.HandlerTakesEffect | backend/inmemory/runtime.go:104-204 | a handled run merges the queries of the outcome in force and goes on to its starts, sends and output, or answers its error and ends |
| InForce.OutputTakesEffect | backend/inmemory/runtime.go:114-138 | after the effects the caller is answered; then the routine ends, goes on with its only, immediate case, or waits for its cases from now on |
| InForce.RunTakesEffect | backend/inmemory/runtime.go:96-149 | in every reachable state the outcome in force of each run decides what followed it: the next handler, the wait, the end or the error |
| InForce.StartsInForce | backend/inmemory/runtime.go:206-209 | the starts in force of each run have been applied or are about to be |
| InForce.AnswerInForce | backend/inmemory/runtime.go:105-126 | each call is answered with the response, or the error, of the outcome in force |
| InForce.EffectsReachWorld | backend/inmemory/runtime.go:195-222 | the query results are the last writes in force, and the messages in force have arrived, are about to be sent or were dropped, in order |
| RuntimeObject.Runtime.ApplyContextEffects | backend/inmemory/runtime.go:206-222 | all starts and then all sends, as machine moves, or blocked on a full channel |
| RuntimeObject.Runtime.RunInstance | backend/inmemory/runtime.go:97-149 | the loop makes the goroutine's moves, turn after turn, until the routine finishes or is blocked, and keeps every instance's invariant whatever the script |
| WorkflowObject.RunHandler | backend/temporal/activities.go:25-100 | the lists filled entry by entry are the context's, with a continuation exactly if the handler is not done |
| WorkflowRuns.IterateKeeps | backend/temporal/workflow.go:57-335 | every iteration keeps: calls answered in order of arrival, the queue never read when empty even if notifications are dropped, a cut only with an empty queue and no call output |
| WorkflowRuns.RunKeeps | backend/temporal/workflow.go:20-336 | the same over whole runs with any cuts; query handlers always give what the merged list gives |
| WorkflowRuns.RunsFromStart | backend/temporal/workflow.go:20-336 | so for every workflow from its start, on any turns |
| WorkflowRuns.MessageFresh | backend/temporal/workflow.go:69-73 | a message is pending exactly if the selector picked a send, and then the next handler is the one of that send case |
| WorkflowRuns.CallNeedsNotice | backend/temporal/workflow.go:162-212 | a queued call is taken up exactly if a notification is left or an update of the wait brought one |
| Outputs.HandlerOutputShows | backend/temporal/workflow.go:57-153 | one iteration: the handler's activity and, on failure, the recovery handler's on the same data and the error; then the children in force are started in order, after them the messages in force are signalled in order, the queries installed, and the workflow ends or goes on as the output says |
| Outputs.CallOutputShows | backend/temporal/workflow.go:57-153 | the same for an iteration that uses the output of a call |
| Outputs.CallShows | backend/temporal/workflow.go:209-258 | a call taken up is answered with the outcome in force, and its output is what the next iteration uses; a failed one returns to the same cases |
| Outputs.RunMakesInOrder | backend/temporal/workflow.go:112-135 | on the log of a whole run, no message of a handler is signalled before the children that it starts |
| Outputs.RunMakesCallsInOrder | backend/temporal/workflow.go:112-135 | the same for the outputs of calls |
| WorkflowRuns.FailedCallStutters | backend/temporal/workflow.go:239-253 | from any loop head, a turn that comes to a wait and fails a call answers it with an error and returns to the same wait, with no cut and no query, start, send or completion |
| WorkflowRuns.SelectorShows | backend/temporal/workflow.go:57-135 | before that, the turn has done no more than the output that led to the wait: its activities, unless a call made it, and its effects |
| WorkflowRuns.FailedCallsStutter | backend/temporal/workflow.go:239-301 | the same for any number of failed calls in a row, from the first in a wait on |
| CallInputs.QueuedOnLast | backend/temporal/workflow.go:155-182 | at every loop head of every run each queued call carries the input of the last case with its key among the waits, since the last cut, that had begun when it was accepted |
| CallInputs.CallRunsOnLastAwaited | backend/temporal/workflow.go:155-220 | a call taken up runs on that input; it is the current wait's exactly if the wait awaits the call and nothing was queued before or the two inputs are equal |
| CallInputs.CallInputCanBeStale | backend/temporal/workflow.go:160-220 | a run in which a call is run on an input that the routine has left behind |
| CallInputs.LeftoverUpdate | backend/temporal/workflow.go:155-220 | a run in which a call is accepted and run although no case of the current wait has its key |
| ContinueAsNew.CutsTransparent | backend/temporal/workflow.go:294-334 | with any cuts made with no queued call and no pending message, the cut run and the uncut one do and show the same, or neither can, exactly if every update accepted is for a call awaited since the last cut; otherwise only the cut run cannot go on |
| ContinueAsNew.CleanCutShows | backend/temporal/workflow.go:155-334 | a run with one such cut that then refuses an update which the uncut run accepts and runs |
| Witnesses.CutLosesMessage | backend/temporal/workflow.go:294-334 | a run that handles its message uncut and, cut before that, runs the handler without it |
| ContinueAsNew.CutUnseenIffClean | backend/temporal/workflow.go:302-333 | a cut is unseen in the next invocation exactly if no message is pending and no call is queued |
| ContinueAsNew.CutUnseenOnRuns | backend/temporal/workflow.go:294-334 | the same at every check of every run whose handlers build their cases with the constructors |
| ContinueAsNew.InvocationAfterCutIsMade | backend/temporal/workflow.go:302-333 | the invocation of which the line above speaks is the one that follows the cut |
| Draining.DrainJumps | backend/temporal/workflow.go:302-326 | a drain runs every queued call and every call that comes meanwhile once, in order, and answers it; it applies no effects, runs no recovery, heeds no completion, and goes to the first case of the last outcome that has cases |
| WorkflowObject.Workflow.AcceptUpdates | backend/temporal/workflow.go:163-171 | accepted updates are queued in order with the input captured at registration |
| WorkflowObject.Workflow.ApplyActivityOutput | backend/temporal/workflow.go:100-135 | query handlers and merged list follow the output; children are started in order and then messages signalled in order |
| WorkflowObject.Workflow.OnCall | backend/temporal/workflow.go:209-258 | the callback takes the first queued call and sets the output that the next iteration uses |
| WorkflowObject.Workflow.DrainCalls | backend/temporal/workflow.go:303-326 | the drain loop empties the queue as the specification says |
| WorkflowObject.Workflow.RoutineWorkflow | backend/temporal/workflow.go:20-336 | the loop with its restarts does what the specification of runs says, never reads an empty queue, and with clean cuts is like the uncut run as long as it knows the updates that come |
| Agreement.HistoryIsWorkflowRun | backend/temporal/workflow.go:57-257 | any legal in-memory history in which no call fails, and calls run on the input last registered, is what the workflow does on the same outcomes and choices |
| Agreement.InMemoryIsTemporal | backend/inmemory/runtime.go:96-222 | in every reachable state of such a history the two runtimes are about to run the same handler on the same data, after the same invocations, starts and sends, with the same answers and query results |
| Agreement.InMemoryEndsAsTemporal | backend/inmemory/runtime.go:104-138 | and they end with the same result or failure |
| Agreement.WorkflowRunIsHistory | backend/temporal/workflow.go:57-292 | conversely, a workflow run without calls or cuts has the shape of a legal history: each handler follows from a case of the one before |
| Replay.WorkflowIsInMemory | backend/inmemory/runtime.go:96-404 | and if each pick is the one that the runtime's searches make, there is a run of the in-memory runtime, from the empty system, in which an instance handles the same outcomes after the same firings, has done and shows the same, and is about to run the same handler on the same data |
| Replay.WorkflowEndsInMemory | backend/inmemory/runtime.go:104-138 | and one in which it ends with the same result or error |
| Agreement.EmptyCasesEndWorkflow | backend/temporal/workflow.go:142-146 | an output that is not done and has no cases fails the workflow, whoever made it and whatever is queued |
| Agreement.EmptyCasesWaitForEver | backend/inmemory/runtime.go:226-293 | in memory it never handles anything again, whatever else happens |
| Families.ChildReachesParent | backend/inmemory/runtime.go:206-221 | what a child sends to its parent is never dropped |
| Families.LaterReachesEarlier | backend/inmemory/runtime.go:211-221 | neither is what a routine sends to one that was there before it |
| Provider.ProviderService.HandleReserve | docs/howto/provider/provider.go:143-170 | a free slot is reserved and its own timer started, with the configured timeout or fifteen minutes; the state updated in place and the response are those of the specification |
| Provider.AwaitsRequests | docs/howto/provider/provider.go:111-120 | a waiting provider takes every kind of request, on the state that its runs left |
| Provider.ReserveIsAnswered | docs/howto/provider/provider.go:143-170 | a reservation is accepted exactly if the slot is neither held nor booked by the requests before it, and otherwise the answer says which |
| Provider.ConfirmIsAnswered | docs/howto/provider/provider.go:173-189 | a confirmation succeeds exactly if its user holds the slot |
| Provider.OfflineIsAnswered | docs/howto/provider/provider.go:207-210 | going offline ends the routine and answers with the number of confirmed requests |
| Provider.ProviderService.HandleConfirmAndPay | docs/howto/provider/provider.go:173-189 | likewise for confirming |
| Provider.ProviderService.HandleExpire | docs/howto/provider/provider.go:192-204 | likewise for expiring |
| Provider.SlotsExclusive | docs/howto/provider/provider.go:143-204 | reserved and booked slots are disjoint, filed under their names, and exactly those that the accepted, confirmed and expired requests so far amount to |
| Provider.BookingsWereReserved | docs/howto/provider/provider.go:173-189 | each confirmation follows an accepted reservation by the same user with no effective expiry in between, and no slot is confirmed twice |
| Provider.BookingsStay | docs/howto/provider/provider.go:173-204 | a booked slot keeps its owner and payment |
| Provider.ReservationsConserved | docs/howto/provider/provider.go:143-204 | accepted reservations are those held, those booked and those effectively expired |
| Provider.OfflineReportsBookings | docs/howto/provider/provider.go:207-210 | the caller that takes the provider offline is told the number of confirmed requests |
| ProviderTimers.TimerExpiresOnce | docs/howto/provider/provider.go:251-267 | a timer routine asks for one expiry, for its reservation, and only after its timer has fired |
| ProviderTimers.TimerWaitsOut | docs/howto/provider/provider.go:251-267 | from before its wait to after it asked for the expiry, the clock advances by its timeout at least |
| ProviderTimers.AcceptingStartsTimer | docs/howto/provider/provider.go:154-169 | a run of the provider starts something exactly if it accepts a reservation: one timer for that user and slot |
| ProviderTimers.TimerIDUnique | docs/howto/provider/provider.go:158-159 | different slots of a provider have different timers |
| ProviderTimers.ReservationIsTimed | docs/howto/provider/provider.go:157-167 | once the first reservation of a slot has applied its effects, its timer is there, for that slot and user and with the right timeout, unless another routine took the id |
| ProviderTimers.ExpiriesAreTimed | docs/howto/provider/provider.go:157-204 | if only its own timers send expiries, an effective expiry comes from the timer that the provider started for that slot and user, while they hold the reservation |
| ProviderTimers.SlotExpiresOnce | docs/howto/provider/provider.go:157-204 | a slot expires at most once in the provider's life, since its timer's id is taken from then on |
| ProviderTimers.NoEarlyExpiry | docs/howto/provider/provider.go:157-204 | between the acceptance of the reservation and its expiry the clock advances by the timeout at least |
| Fanout.StartItems | docs/howto/fanout/fanout.go:65-76 | the loop buffers one start per item, in order, and waits for as many results |
| Fanout.CollectResult | docs/howto/fanout/fanout.go:78-92 | appends the result, counts down, and is done when none is missing |
| Fanout.ProcessItem | docs/howto/fanout/fanout.go:100-110 | sends the item's result to the parent |
| Families.HandledWasSent | backend/inmemory/runtime.go:224-339 | a message handed to a handler was enqueued under that handler's key |
| Families.HandledInTurn | backend/inmemory/runtime.go:224-339 | messages handed to one handler were enqueued in the order in which they are handled |
| Families.StartedBy | backend/inmemory/runtime.go:74-94 | a child runs on the key and input of a start entry that one of its parent's runs buffered |
| Fanout.ItemsConserved | docs/howto/fanout/fanout.go:65-110 | children not run, results in flight and results collected are together as many as the items |
| Fanout.CollectsResults | docs/howto/fanout/fanout.go:78-110 | what is collected or in flight is the result of an item, none twice |
| Fanout.PendingCountsDown | docs/howto/fanout/fanout.go:78-92 | Pending and the number of results add up to the number of items, and the parent is done exactly when Pending is 0 |
| Fanout.AwaitsResults | docs/howto/fanout/fanout.go:74-84 | as long as it waits, the parent takes results |
| Fanout.CompletesWithAll | docs/howto/fanout/fanout.go:78-92 | the parent completes only with a permutation of all results, with every child run and nothing in flight, and never fails |
| Fanout.NoItemsNoEnd | docs/howto/fanout/fanout.go:74-75 | with no items it never completes |
| Pipeline.Produce | docs/howto/pipeline/pipeline.go:54-67 | the loop sends the items in order, numbered by their index, and then the done message |
| Pipeline.ReceiveItem | docs/howto/pipeline/pipeline.go:80-88 | appends the item and waits for items and done again |
| Pipeline.HandledInOrder | docs/howto/pipeline/pipeline.go:56-95 | what the consumer has handled is a first part of the producer's stream |
| Pipeline.ConsumesInOrder | docs/howto/pipeline/pipeline.go:75-95 | the consumer holds its initial items and then the first items in order; when it completes, all; it never fails |
| Batch.BatchService.ProcessChunk | docs/howto/batch/batch.go:70-101 | processes one chunk in order; Errors grows by the number of its items that fail, Processed by the number of the others |
| Batch.BatchAccounts | docs/howto/batch/batch.go:58-101 | the items processed are the first Offset ones, once each and in order; Errors is the number of those that failed and Processed of the others; the batch ends exactly when none is left or it is cancelled |
| Batch.AwaitsCancel | docs/howto/batch/batch.go:97-100 | between chunks it takes a cancel message, and otherwise the next chunk |
| Batch.BatchEnds | docs/howto/batch/batch.go:90-106 | ends with all n items after max(1, ceil(n/100)) runs, or cancelled at a positive multiple of 100 below n, with the counts of failures and others |
| Auction.OpenAuction | docs/howto/auction/auction.go:121-139 | sets the state, the deadline and the query result |
| Auction.PlaceBid | docs/howto/auction/auction.go:141-175 | rejects a bid that is not higher, else updates leader, amount and count and the query result |
| Auction.ResultNext | docs/howto/auction/auction.go:142-158 | one more bid changes the maximum, the earliest leader and the number of new maxima exactly if it is strictly higher |
| Auction.WinnerIsHighest | docs/howto/auction/auction.go:190-204 | the result is the highest of the start and the processed bids, its earliest bidder, and the number of bids that raised it, whatever bids failed |
| Auction.StateIsShown | docs/howto/auction/auction.go:130-172 | while open, the state is the result so far, the deadline has not changed and the query shows the state |
| Auction.AcceptedIfHigher | docs/howto/auction/auction.go:142-171 | a processed bid is accepted exactly if it is higher than the start and all processed before |
| Auction.BidderIsTold | docs/howto/auction/auction.go:142-171 | whoever places a bid is told the highest amount so far, this bid included |
| Auction.FailedBidsRefused | docs/howto/auction/auction.go:177-188 | a bid whose handler failed is answered by the recovery handler: refused, with the error |
| Auction.AwaitsBids | docs/howto/auction/auction.go:135-138 | an open auction takes bids, and its timer is due when the time left at its last handler has passed |
| Auction.TimerCloses | docs/howto/auction/auction.go:190-204 | a run fired by the timer ends the auction, unless its handler failed |
| Auction.NeverClosesEarly | docs/howto/auction/auction.go:135-138 | if the handler that arms the closing timer has not read a later time than the clock shows, the auction closes no earlier on the clock than its opening plus its duration |

## Left out

- Replay.WorkflowIsInMemory: leaves out workflow runs in which a routine sends to itself, sends more than a channel holds to one routine, or picks a send although a timer of no or negative duration is set, which in memory takes a message buffered in an earlier wait; there the in-memory runtime may still do the same, but it is not shown.
- RuntimeObject.Runtime.RunInstance: a script may deliver what no routine has sent or reuse a call number; for such scripts only the instances' invariants are shown, not that the run is one of the machine. Other goroutines' own steps are not in the scripts.
- Agreement.InMemoryIsTemporal: leaves out histories in which a call fails, where the runtimes differ, and histories in which a call runs in memory on another input than the one last registered under its key in the same wait.
- What an in-memory recovery handler is given (the same input and message, and the error) is not recorded in a history; its outcome is. Only the auction's runs say what it was given.
- JSON encoding and decoding: payloads are values and decoding gives back what was encoded; marshal and unmarshal errors do not occur. A routine's handler that gets a payload of another kind fails, where the source might decode it into an empty struct.
- Text of error messages that wrap others, of printed lines and of the auction's formatted amounts.
- Temporal's SDK and server: replay, retries and backoff (an activity with retries has one outcome), timers' and signals' own delivery, update lifecycle, options.
- Running out of room: a full channel only makes a send wait. Nothing is claimed about deadlock; a routine can block on its own full mailbox.
- Liveness: nothing is claimed about calls to finished instances, which are never taken.
- Clients blocked on callChan are taken in the order in which they arrived, as Go's channels do.
- The clock is read once when a wait begins and once per pass; the source reads it once per timer case. Clock readings never go back.
- The query results of a run are merged in one step with its end, though a client may see them one by one only under the instance's lock, which makes no difference to a query.
- Get, Query and the parts of the client that only look up an instance.
- nil continuations, panics of handlers, and the run-time panic on registering a key twice (AddEntry is refused instead).
- A case that is several kinds at once cannot be built by the constructors; except in CutUnseenOnRuns, where it matters, it is not excluded.
- The registration order of handlers and handler options other than recovery.
- Provider slots: the code does not check a slot against the provider's list, about which no claim is made; a slot that is reserved again gets no new timer in memory, of which SlotExpiresOnce is the consequence.
- The booking, order, reminder and saga examples, which are small fixed graphs of handlers.
- Designs that are described but not implemented: continuation chaining, SendAfter, a stepped clock.
