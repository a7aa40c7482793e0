# A Dafny model of the agent SDK's core

This project models the decision-making core of openrouter-agent-sdk-go in Dafny and proves what its parts
promise, alone and together. A run of the query runner streams a model's answer, folds it into text, images
and tool calls, gates and runs those calls, grows a message history and commits it to a session store with
checkpoints. The model keeps every branch of that path; transport, hooks, tools, consumers and cancellation
may do anything at any time, and so may the client and other runs to the permissions and the model.

| file | what it holds |
|---|---|
| `RunnerModel.dfy` | a run as a function of its surroundings: what it emits, reports, asks and stores, event by event |
| `RunnerLoop.dfy` | the runner as a class with the loops and variables of the source, proved to do what the function says |
| `RunnerProtocol.dfy`, `RunnerSafety.dfy` | the protocol of a run as an automaton over its trace; every run obeys it |
| `RunnerEffects.dfy`, `RunnerGuarantees.dfy`, `RunnerHooks.dfy`, `RunnerTools.dfy`, `RunnerHistories.dfy`, `RunnerStreams.dfy` | what the protocol guarantees, said about the trace itself |
| `RunnerTheorems.dfy` | the guarantees for every run in any surroundings |
| `SessionStore.dfy`, `Reachable.dfy`, `Checkpoints.dfy` | the session manager; runs, rewinds, forks and settings in any order over one store and one set of options |
| `FileTree.dfy`, `Disk.dfy`, `FileRestore.dfy`, `FileRoundTrip.dfy` | file checkpoints: directory trees with links, symbolic and hard; the file system as a class whose calls may fail; when a restore succeeds, and what it brings back |
| `Folding.dfy`, `EventMapper.dfy`, `ResponsesEvents.dfy`, `Sse.dfy` | text, tool-call and image folding, event parsing, what each kind of event means, the line parser under them |
| `History.dfy` | history entries, their pairing, how they are stored and read back |
| `Policy.dfy` | permission updates in memory and on disk, and the gate in front of a tool |
| `Receive.dfy` | the client's receive loops |
| `JsonScan.dfy`, `Decimal.dfy` | the brace scanner; decimal rendering and identifiers |
| `Basics.dfy`, `Json.dfy` | small shared types |

How the runner is modelled. The surroundings are a `World`: functions from everything that happened so far to
the next answer. A send may find the context cancelled; hooks return any outputs and errors; a stream is any
schedule of polls and selects over two channels; tools and captures return anything; and between any two
reads of policy or model others may have changed them. So a statement about all worlds is a statement about all
schedules and all foreign code. The trace lists what can be observed: messages, errors, requests, hook calls,
permission updates, looks at the policy, executions, store operations, and changes from outside, which the
protocol admits anywhere. `Run` computes the trace of a run, `RunnerLoop.QueryRunner.RunMessages` is proved to
produce it, and the automaton in `RunnerProtocol` accepts it. The theorems about runs are proved of every trace
the automaton accepts, so they hold at every moment of a run, not only at its end.

Where the source does something a reader may not expect, the model does it too, and the exact condition is
proved:

- A text delta that begins with all text so far is taken for a repetition (`Folding.PlainConcatenationIff`);
  tool arguments have no such protection (`EventMapper.StreamedArgsComeOutTwice`), and once a delta has been
  mistaken, the repetitions of the Responses interface are added too (`EventMapper.SwallowedDeltaRepeatsText`).
- An item of the Responses interface that holds an image is read as the image alone, a tool call with one in its
  arguments included (`ResponsesEvents.ImagesAreCarried`).
- A tool call with a negative index is dropped without a word (`Folding.OrderedListsNonNegative`).
- The role of an input is passed through; only the role "tool" breaks the pairing of the history, and it always
  does (`RunnerTheorems.HistoriesStayPairedIff`).
- Permission updates of a decision that denies are applied all the same, before the denial is reported.
- Errors of the hooks behind a failed tool and behind the result are ignored; an output of theirs that is not
  supported ends the run all the same (`RunnerHooks.HooksStopRuns`).
- The count of user turns goes up even if the run fails, and a rewind does not lower it
  (`Checkpoints.TurnCountNeverDrops`).
- The policy is looked at once, before the permission callback is asked: what denies the tool later, while the
  callback is still asked, does not stop the call (`Policy.Executor.ExecuteWithSuggestions`).
- A rewind between storing the history and taking the snapshot makes a checkpoint of other messages
  (`Checkpoints.RewindSpoilsSnapshot`, `Checkpoints.SnapshotHoldsHistoryIff`).
- A tool server or a permission callback whose error is a denial is taken at its word: the call counts as denied,
  although its handler may have run, and the run ends if the denial asks to interrupt.
- A restore writes through a link to a directory, and a capture does not look behind it
  (`FileRoundTrip.LinkSwallowsFile`).
- A restore writes through hard links too: of two files that have become one, one content is lost
  (`FileRoundTrip.SharedFileTakesLast`).
- What a restore leaves where a file is to be absent above another entry depends on map order
  (`FileRoundTrip.EmptyTreeDiffers`, `FileRoundTrip.TwiceIsOnceIff`).
- A file checkpoint whose save fails is kept, and ends the run all the same.
- A policy file that cannot be read switches all policy files off for a new executor (`Policy.Store.LoadMerged`).
- A fork replaces a session that was opened under the name the fork gets (`Checkpoints.ForkCanReplace`).
- A cancellation before the first stream event makes the runner ask the fallback model, as any other silent
  failure does.
- A result reports no cost when its last turn reported none, even if earlier turns did.
- Errors behind a result, such as a failing stop hook, are swallowed by `ReceiveResponse`.
- `itoa` renders the smallest 64-bit integer as a bare minus sign (`Decimal.ItoaIsDecimalUnlessMinimum`).
- An event stream that ends without a blank line still delivers its last event, unlike section 9.2.6 of the
  WHATWG HTML Living Standard (`Sse.UnfinishedEventDelivered`).

## Model

| member | source | states |
|---|---|---|
| `RunnerTheorems.NoRunEndsSilently` | internal/runtime/query_runner.go:270-932 | A run that is over has emitted exactly one result, as its last message, or the last thing it did was to report a failure; no run ever emits two results. |
| `RunnerTheorems.RequestsStayBounded` | internal/runtime/query_runner.go:412-505 | At most two requests a turn and at most as many turns as the limit says, which is the option for turns, else the one for tool iterations, else eight, and that many before it is reported that they are used up; each turn first asks the model the options name when it begins, SetModel included, and the default model if they name none; a second request follows its first with nothing of the run in between, for the other model and the same history, and a run gives up in silence only if no other model is left; results count the turns. |
| `RunnerTheorems.TurnsComeFromOneAttempt` | internal/runtime/query_runner.go:1484-1582 | Text, images, calls, usage and cost of a turn are the folds of the events behind its last request and of no others; partial messages add up to the whole text and images whenever a call or the result is next. |
| `RunnerTheorems.BudgetsHold` | internal/runtime/query_runner.go:525-561 | No request is sent and no tool announced or run once the total exceeds the budget, where the total adds up, request by request, the last number its events report at any of the four places a cost is reported at; every cost and usage a result reports is exactly that; an exceeded budget was kept before the last turn. |
| `RunnerTheorems.ToolCallsKeepProtocol` | internal/runtime/query_runner.go:594-876 | At any time: calls go in index order, one at a time, each executed at most once, directly behind its announcement, a decision that does not deny, the hooks before its use and a look at the policy in force, whoever changed it last; a look denies exactly if the mode set last is not the bypass and the last word on the tool, of all updates granted and made from outside, is "deny"; a handler runs only if that look did not deny; a denial by a hook, and one at execution that asks to interrupt, whether by the callback or by the tool server itself, ends the run with nothing but its aftermath. |
| `RunnerTheorems.HandlerRunsForCallIff` | internal/runtime/query_runner.go:599-868 | One call of a turn, from its announcement to its answer or the end of the run, calls a handler exactly once if its hooks pass and do not deny, the tool is there, its server can be reached, the callback consents and the policy, with every change made from outside by then, does not deny it; and else never. That hooks which fail do not pass is `RunnerTheorems.FailedHookStopsRun`. |
| `RunnerTheorems.FailedHookStopsRun` | internal/runtime/query_runner.go:378-392 | In any run, behind an error of the hook before a message is taken, of the one asked for permission, or of the ones before and behind the use of a tool, the run does nothing more but report that error: no handler runs, no input is taken, no answer is shown. The same behind an output, of any hook, that is not supported. |
| `RunnerTheorems.AnswerOfCall` | internal/runtime/query_runner.go:699-868 | Once its hooks let a call pass, the gates decide on the arguments they left it with, in the policy in force; the answer shown and given to the model is the text of the outcome, marked as an error unless it is an answer; a denial that asks to interrupt ends the run with the text of the denial. |
| `RunnerTheorems.TurnsAreShown` | internal/runtime/query_runner.go:562-592 | With partial messages off, the text of a turn, trimmed, and its images are shown once, before its calls, its result and the next turn, if the text is not blank or there are images; and never otherwise. |
| `RunnerTheorems.CheckpointStores` | internal/runtime/query_runner.go:397-410 | What is stored behind a user message: history and snapshot under the key of the message, the files below the working directory if one is set, and which error ends the run. |
| `RunnerTheorems.HistoriesAreWhatWasSaid` | internal/runtime/query_runner.go:319-401 | Every history sent or stored consists of the messages found, the inputs the hooks let pass, and each turn as streamed with the answers as shown; every stored count of user turns is right; inputs with blocks other than text are taken only without the Responses interface. |
| `RunnerTheorems.HistoriesStayPairedIff` | internal/runtime/query_runner.go:352-396 | On a well-paired session, everything a run sends and stores is well paired exactly if no input has the role "tool". |
| `RunnerTheorems.StoredHistoryReadsBack` | sessions.go:58-118 | Reading a history any run stored back from the session file yields every text, image, call and answer in order; only the error flag is lost. |
| `RunnerTheorems.ShownInputReadsBack` | sessions.go:168-181 | The arguments read back for a call are the input its announcement showed. |
| `RunnerTheorems.ResponseOfRunIsWhole` | client_impl.go:192-237 | ReceiveResponse, once it has drained both channels, has handed on every message of the run, on every interleaving with errors. |
| `RunnerTheorems.FailuresReachConsumer` | client_impl.go:192-237 | A run that is over without a result is not silent: ReceiveResponse, once it has drained both channels, has handed on every failure the run reported, in order, and there is one. |
| `RunnerSafety.RunObeysProtocol` | internal/runtime/query_runner.go:270-932 | Every run in any surroundings, tool servers and callbacks that deny the call themselves included, is accepted by the protocol automaton, and ends where the automaton ends or still waits for its stream. |
| `RunnerSafety.TurnsFollow` | internal/runtime/query_runner.go:421-932 | The turn loop, started anywhere the protocol allows, obeys it to the end. |
| `RunnerSafety.StreamFollows` | internal/runtime/query_runner.go:1584-1632 | For every schedule the stream loop either completes, or breaks with a failure that may be reported, or, if it emitted nothing, leaves no trace, no usage and no cost. |
| `RunnerSafety.RunCallsFollow` | internal/runtime/query_runner.go:598-868 | The loop over the calls of a turn obeys the protocol and ends with one answer a call, unless a hook denies or a callback or server denies and interrupts. |
| `RunnerStreams.TransportErrorsWait` | internal/runtime/query_runner.go:1586-1626 | An error is only taken when the first poll found no event or the stream was closed, and every event available before it has been passed on. |
| `RunnerStreams.StreamsArePassedOn` | internal/runtime/query_runner.go:1584-1632 | The events of a request that are passed on are those its schedule delivers, in order and without a gap: all of them if the stream came to its end, and some from the first on if it broke off. |
| `RunnerGuarantees.TurnFoldsItsEvents` | internal/runtime/query_runner.go:1514-1578 | The turn folded event by event equals the separate folds of all text deltas, images and tool deltas behind the last request. |
| `RunnerGuarantees.TurnCostsItsEvents` | internal/runtime/query_runner.go:1736-1796 | Cost and usage of a turn are the last ones its events report, where a report is read off the event by itself: the places it may stand at and the fields it is made of. |
| `RunnerGuarantees.PartialsAddUpToTurn` | internal/runtime/query_runner.go:1514-1562 | With partial messages on, what was sent and what is still owed is always the whole turn so far. |
| `RunnerGuarantees.RequestsAreBounded` | internal/runtime/query_runner.go:421-505 | The same bounds, models and order of requests for every trace the protocol accepts. |
| `RunnerGuarantees.TurnsAreUsedUp` | internal/runtime/query_runner.go:412-423 | That the turns are used up is reported only behind as many turns as the limit allows. |
| `RunnerGuarantees.FallbackIsAlwaysAsked` | internal/runtime/query_runner.go:421-505 | A transport failure without a word of the model ends the run only if the fallback has been asked, or there is none, or it is the model asked. |
| `RunnerGuarantees.OneResultAtMost` | internal/runtime/query_runner.go:878-929 | Nothing is emitted behind a result, and an ended trace has a result or ends in a failure. |
| `RunnerGuarantees.BudgetIsKept` | internal/runtime/query_runner.go:486-561 | Budget and reported costs for every accepted trace. |
| `RunnerTools.ToolsKeepProtocol` | internal/runtime/query_runner.go:612-853 | Every look at the policy, grant, execution, answer, tool hook and interrupted result of an accepted trace stands behind the events it needs, with nothing of the run in between; an interrupted result carries the text of the denial before it. |
| `RunnerTools.CallsGoOneByOne` | internal/runtime/query_runner.go:594-872 | Calls are announced in index order, at most one is open, each is executed at most once and answered under its own id. |
| `RunnerTools.DenialIsFinal` | internal/runtime/query_runner.go:645-761 | Behind a denying hook decision, and behind an execution denied with an interrupt, only updates, the failure hook and the end of the run follow. |
| `RunnerTools.PolicyIsObeyed` | internal/tools/executor.go:63-202 | Every look at the policy sees the one left by all grants and by all changes from outside; a handler runs only behind a look that allowed it, and only a handler gives an answer. |
| `RunnerTools.LooksTellLastWord` | internal/tools/executor.go:171-241 | What a look at the policy finds, told from the updates and modes along the trace alone. |
| `RunnerHistories.HistoriesTellTheTruth` | internal/runtime/query_runner.go:563-572 | Histories sent and stored along an accepted trace equal the one rebuilt from what the trace shows. |
| `RunnerHistories.HistoriesArePaired` | internal/runtime/query_runner.go:594-918 | Along an accepted trace a history is well paired exactly if no input taken so far poses as a tool. |
| `RunnerHistories.InputsTakenAreFit` | internal/runtime/query_runner.go:355-371 | With the Responses interface no input is taken that has blocks which are not text. |
| `RunnerLoop.QueryRunner.RunMessages` | internal/runtime/query_runner.go:270-932 | The loops of the source, over a real session manager and executor, do exactly what the model of a run says, whatever the errors of callbacks and servers are; store, policy and model afterwards are what the trace makes of them. |
| `RunnerLoop.QueryRunner.LetOthersAct` | internal/runtime/query_runner.go:107-117 | What the client and other runs do to the executor and the options in the meantime, through the setters of the source, becomes part of the trace. |
| `RunnerLoop.QueryRunner.ConverseOn` | internal/runtime/query_runner.go:352-410 | The loop over the inputs. |
| `RunnerLoop.QueryRunner.RunTurns` | internal/runtime/query_runner.go:412-932 | The turns with history and total cost as variables, and the report that they are used up. |
| `RunnerLoop.QueryRunner.LoopOverTurns` | internal/runtime/query_runner.go:412-932 | The loop over the turns, up to the point where none is left. |
| `RunnerLoop.QueryRunner.AskModels` | internal/runtime/query_runner.go:421-505 | Picks the model the options name by now; the loop over the attempts of a turn and the costs they add up. |
| `RunnerLoop.QueryRunner.StreamTurn` | internal/runtime/query_runner.go:1464-1632 | The select loop over events, errors and cancellation. |
| `RunnerLoop.QueryRunner.ProcessEvent` | internal/runtime/query_runner.go:1484-1582 | What one event does to usage, cost, text, images and calls, and what it sends. |
| `RunnerLoop.QueryRunner.UseToolsInOrder` | internal/runtime/query_runner.go:598-868 | The loop over the calls of a turn. |
| `RunnerLoop.QueryRunner.UseTool` | internal/runtime/query_runner.go:599-868 | One call with its hooks, decision, execution and answer; an error of the execution that is a denial, wherever it comes from, is recognised as one. What its hooks, gates and answer come to is said by `RunnerTheorems.FailedHookStopsRun` and `RunnerTheorems.AnswerOfCall`. |
| `RunnerLoop.QueryRunner.PassThrough` | internal/tools/executor.go:63-168 | The gates of the executor leave in the trace the look at the policy, what was done to it meanwhile, the updates granted and the outcome, which keeps the kind of an error of callback or server. |
| `RunnerLoop.QueryRunner.TakeCheckpoint` | internal/runtime/query_runner.go:399-409 | The checkpoint behind a user message: history, snapshot, and the capture of the tree below the working directory, with the errors of a blank directory, a failing walk and a failing save. |
| `RunnerHooks.HooksPassIff` | internal/runtime/hook_outputs.go:8-34 | Hooks pass the check exactly if each of their outputs is supported. |
| `RunnerHooks.HooksStopRuns` | internal/runtime/hook_outputs.go:8-34 | Along every accepted trace: behind a hook that stops the run comes nothing of the run but the report, once and directly behind it, of the hook's error or else of the first unsupported field of the first unsupported output; and such reports stand nowhere else. |
| `RunnerTools.DenialIff` | internal/runtime/query_runner.go:1644-1676 | A decision denies exactly if some output denies, whatever the others say. |
| `RunnerTools.LastInputWins` | internal/runtime/query_runner.go:1665-1667 | The last output that gives an input decides it; with none the call keeps its own. |
| `RunnerTools.LastMessageWins` | internal/runtime/query_runner.go:1659-1661 | The last output that gives a message which is not empty decides the message. |
| `RunnerTools.LastInterruptWins` | internal/runtime/query_runner.go:1662-1664 | The last output that says whether to interrupt decides that. |
| `RunnerTools.LastUpdatesWin` | internal/runtime/query_runner.go:1668-1670 | The last output that gives permission updates decides them. |
| `RunnerTools.FinalTextsAreShown` | internal/runtime/query_runner.go:562-592 | When the whole text of a turn is shown, and what it says, for every accepted trace. |
| `RunnerLoop.PermissionDecision` | internal/runtime/query_runner.go:1644-1676 | The loop that adds hook outputs up to one decision. |
| `RunnerLoop.ValidateHookOutputs` | internal/runtime/hook_outputs.go:8-34 | The first hook output the backend does not support. |
| `Reachable.ReachableSound` | internal/session/manager.go:77-201 | However runs, rewinds at any time, forks, resumes and settings interleave, every session and checkpoint stays well paired, checkpoint numbers stay within the count of user turns, every run agrees with its session, and all runs go by the policy and the model they share. |
| `Reachable.ActionSound` | internal/session/manager.go:111-201 | Each single action keeps that. |
| `Checkpoints.SnapshotIsNew` | internal/runtime/query_runner.go:399-401 | The snapshot a run takes has a key no checkpoint of the session bears and holds the messages of the session; that is the history behind the user message exactly if the session still has it. |
| `Checkpoints.SnapshotHoldsHistoryIff` | internal/runtime/query_runner.go:399-401 | Whatever happens between storing the history and the snapshot, the snapshot holds the history stored exactly if the last rewind of the session in between, if any, went to a checkpoint with the same messages. |
| `Checkpoints.RewindSpoilsSnapshot` | internal/session/manager.go:155-189 | After a rewind in between, to a checkpoint with other messages, the snapshot holds those and not the history. |
| `Checkpoints.SpoiledSnapshotIsReached` | internal/session/manager.go:155-189 | A run of one input and a rewind with which that happens. |
| `Checkpoints.SnapshotEndsWithInput` | internal/runtime/query_runner.go:394-401 | That history ends with the user message just taken. |
| `Checkpoints.CheckpointKeptIff` | internal/session/manager.go:111-201 | No action changes a checkpoint, except exactly a fork that replaces the session by one without it. |
| `Checkpoints.ForkCanReplace` | internal/session/manager.go:111-152 | Such a fork exists: a session already bears the name the next fork gets. |
| `Checkpoints.RewindRestores` | internal/session/manager.go:171-189 | Whatever happened since a snapshot, rewinding to it brings back exactly the messages the session had when it was taken and touches nothing else. |
| `Checkpoints.KeysAreNeverReused` | internal/runtime/query_runner.go:361-362 | No two snapshots of a session bear the same key. |
| `Checkpoints.TurnCountNeverDrops` | internal/runtime/query_runner.go:361-362 | The count of user turns changes with user messages only, whatever becomes of the run. |
| `Checkpoints.RunsAreActions` | internal/runtime/query_runner.go:270-932 | Everything a run does by the protocol is such a sequence of actions, and the store becomes what its operations make of it. |
| `Checkpoints.RunLeavesStoreSound` | internal/runtime/query_runner.go:270-932 | A whole run, in any surroundings, leaves a store whose sessions and checkpoints are all well paired and numbered within their counts. |
| `Checkpoints.EveryRequestIsPaired` | internal/runtime/query_runner.go:433-474 | However everything interleaves, every history any run has sent to a model or stored is well paired. |
| `Checkpoints.LooksSeeSharedPolicy` | internal/tools/executor.go:171-241 | Every look at the policy sees the one all runs share at that moment, and every turn asks the model they share, whichever run or the client changed them last. |
| `SessionStore.Manager.GetOrCreate` | internal/session/manager.go:77-97 | Finds or creates a session; the store as a value makes the matching transition. |
| `SessionStore.Manager.CloneSession` | internal/session/manager.go:111-140 | A copy of its own under the target id, or nothing. |
| `SessionStore.Manager.NewForkID` | internal/session/manager.go:143-152 | Counts up, round from the largest 64-bit integer to the smallest, and renders the id of the next fork. |
| `SessionStore.Manager.TakeSnapshot` | internal/session/manager.go:155-168 | Stores the current messages under the key. |
| `SessionStore.Manager.Rewind` | internal/session/manager.go:171-189 | Succeeds exactly if session and checkpoint exist, and restores the messages. |
| `SessionStore.Manager.SetState` | internal/session/manager.go:192-201 | Replaces messages and count, creating the session if need be. |
| `SessionStore.Manager.SnapshotFiles` | internal/session/manager.go:222-243 | Keeps the captured files and says which error stopped it; when only the save fails, the files are kept and the error is returned. |
| `SessionStore.Manager.RewindFiles` | internal/session/manager.go:246-264 | On success the tree is the stored snapshot restored over what was there, in some order of its entries; without faults, and if no file to be absent has an entry below it, it succeeds exactly if there is room for every entry. |
| `SessionStore.Manager.ResumeAsFork` | client_impl.go:419-437 | Counts the fork and copies the session under its new id, or opens an empty one. |
| `SessionStore.ForkIdsDistinct` | internal/session/manager.go:143-152 | Among any 2^64 requests in a row, for any base ids, no fork id is handed out twice. |
| `SessionStore.SameForkIdIff` | internal/session/manager.go:143-152 | Two requests get the same id exactly if they are for the same base and the requests for it from one to the other are a multiple of 2^64. |
| `SessionStore.ForkIdOfIsNext` | internal/session/manager.go:143-152 | These ids are the ones the store hands out along the requests. |
| `SessionStore.OthersStay` | internal/session/manager.go:77-201 | No operation touches any session but its own, and none but a fork the counters. |
| `SessionStore.SessionsHoldWhatWasPut` | internal/session/manager.go:77-201 | What a session holds once it is opened, set, counted up or copied to, field by field. |
| `SessionStore.ForkIsACopy` | client_impl.go:419-437 | A fork gives, under the new id, a copy of all the base has, or what is there, or an empty session; the base and all others stay. |
| `SessionStore.CheckpointRoundTrip` | internal/session/manager.go:222-264 | Files captured for a checkpoint are what a capture finds after restoring it, exactly if none of them has become a special file or has come to lie behind a link, and no two with different contents have become one file. |
| `Decimal.Itoa` | internal/session/manager.go:508-525 | Fills a 20-byte buffer backwards without ever running out of it and returns the decimal rendering. |
| `Decimal.ItoaInjective` | internal/session/manager.go:508-525 | Different 64-bit integers are rendered differently, the smallest one included. |
| `Decimal.ItoaIsDecimalUnlessMinimum` | internal/session/manager.go:508-525 | The rendering is the decimal numeral exactly for every integer but the smallest. |
| `Decimal.DigitsDecode` | internal/session/manager.go:516-520 | The digits written read back as the number. |
| `Decimal.ForkIdInjective` | internal/session/manager.go:148-151 | A fork id is the base, "#fork-" and the rendered counter; equal ids come from the same base and the same counter value, for all 64-bit values. |
| `Decimal.AddInjective` | internal/session/manager.go:149 | Counting on from one value gives the same again exactly after a multiple of 2^64 steps. |
| `Decimal.UserKeyNumber` | internal/runtime/query_runner.go:361 | A checkpoint key is the session id, "-u" and the number in decimal, and the number can be read back from it. |
| `Disk.FileSystem.CaptureFiles` | internal/session/manager.go:344-384 | The walk yields the capture of the tree, which `FileRoundTrip.CaptureIs` tells path by path; a missing root is an error. |
| `Disk.FileSystem.RestoreFiles` | internal/session/manager.go:386-425 | Deletes what the snapshot does not know, then puts its entries in some order, a write reaching all names of the file; without faults it fails only where an entry of that order cannot be put, and, if no file to be absent has an entry below it, succeeds exactly if there is room for every entry at the start. |
| `Disk.FileSystem.RestoreOne` | internal/session/manager.go:407-422 | One entry: the path check, the target, the directories above it, then the write or the removal. |
| `Disk.FileSystem.MkdirAll` | internal/session/manager.go:412 | Creates exactly the missing directories on the way and passes links to directories. |
| `FileRestore.RestoreRewinds` | internal/session/manager.go:386-425 | Whatever the order of the entries was, the kind of entry at each place is afterwards as said for it: wanted files, files gone, directories above, links kept or removed with what was behind them, all else untouched. |
| `FileRestore.RestoreSucceedsIff` | internal/session/manager.go:407-423 | If no file to be absent has an entry below it: every order succeeds, exactly if there is room for all entries at the start and no file lies below another. |
| `FileRoundTrip.RestoreFills` | internal/session/manager.go:386-425 | A file that is there afterwards holds what was last written to it under any of its names, or what it held; one made where nothing or a removed link was holds what its own entry says and has one name. |
| `FileRoundTrip.NamesStillAgree` | internal/session/manager.go:386-425 | If all names of each file show the same content, they still do after a restore. |
| `FileRoundTrip.CaptureInOrderIff` | internal/session/manager.go:344-425 | For every order in which a restore succeeds: capturing again yields the wanted files exactly if each is outside .git and, if a link stood above it, the outermost one was removed before the file's turn, or else no special file stood there and the last write to the file, under any name, was the content wanted. |
| `FileRoundTrip.CaptureAfterRewind` | internal/session/manager.go:344-425 | Whatever the order: if every wanted file was outside .git, with no special file there and no link above, capturing again yields the wanted files exactly if those that are one file are wanted alike; where no removed link stood above a wanted file, both are needed. |
| `FileRoundTrip.RewindInvertsCapture` | internal/session/manager.go:344-425 | Capture, any change, restore, capture: the same snapshot, exactly if no captured file has become a special file or has come to lie behind a link, and no two with different contents have become one file. |
| `FileRoundTrip.LinkSwallowsFile` | internal/session/manager.go:407-421 | A directory that has become a link to a directory: the restore succeeds and a fresh capture lacks the file. |
| `FileRoundTrip.RemovedLinkMayTakeFile` | internal/session/manager.go:407-423 | A link to be removed above a wanted file: one order of the entries keeps the file, the other loses it. |
| `FileRoundTrip.StrandedFileComesBack` | internal/session/manager.go:407-423 | A wanted file behind a link that every successful restore brings back: another file behind the link is in its way until the link has gone. |
| `FileRoundTrip.SharedFileTakesLast` | internal/session/manager.go:407-423 | Two captured files of which one has become another name of the other: the order decides which content both end with, and no restore brings both back. |
| `FileRoundTrip.RewindTwiceIsOnce` | internal/session/manager.go:386-425 | Restoring twice leaves the tree of restoring once, if no file to be absent has an entry below it and names that have become one file are wanted alike. |
| `FileRoundTrip.TwiceOverTreeIff` | internal/session/manager.go:386-425 | For a snapshot without a file to be absent above an entry, and a tree with room for it: restoring twice always leaves the tree of restoring once exactly if names that have become one file are wanted alike. |
| `FileRoundTrip.TwiceIsOnceIff` | internal/session/manager.go:386-425 | Over all trees where names that are one file are wanted alike: restoring twice always leaves the tree of restoring once exactly for the snapshots without a file to be absent above an entry, and for those no two restores in a row can write. |
| `FileRoundTrip.EmptyTreeDiffers` | internal/session/manager.go:407-419 | A file to be absent above another one: two orders leave the empty tree different. |
| `FileRestore.RewoundIsRestorable` | internal/session/manager.go:386-425 | A restored tree can be restored again, if no file to be absent has an entry below it. |
| `FileRoundTrip.UncapturedEntriesStay` | internal/session/manager.go:364-374 | What a capture leaves out, special files, links and directories included, stays as it is, unless behind a link the snapshot wants to be gone; only a file with another name at a wanted place is given the content wanted there. |
| `FileRoundTrip.CaptureIs` | internal/session/manager.go:363-381 | A capture holds exactly the regular files with no link above them whose path does not begin with ".git", each with its content. |
| `FileRoundTrip.VersionControlIsLeftAlone` | internal/session/manager.go:363-425 | Restoring a capture leaves everything whose path begins with ".git" as it is, except a file that is another name of a restored one. |
| `FileTree.PathsNamePlaces` | internal/session/manager.go:407-413 | The place an entry goes to: a step upwards at the end leads to the directory above, and before the end, or above the root, it is refused. |
| `FileTree.EmptyStepsChangeNothing` | internal/session/manager.go:407-413 | Steps "" and "." in a path make no difference. |
| `FileRestore.CaptureIsRestorable` | internal/session/manager.go:344-425 | What capture yields can be restored over the same tree. |
| `Folding.PlainConcatenationIff` | internal/runtime/query_runner.go:1393-1404 | Folded text is the plain concatenation exactly if no delta begins with all the text before it. |
| `Folding.ShortDeltasAreKept` | internal/runtime/query_runner.go:1393-1404 | Once the text is longer than every delta to come, none is absorbed. |
| `Folding.PartialsAddUp` | internal/runtime/query_runner.go:1514-1537 | Text only grows at its end, and the partial messages add up to what is added. |
| `Folding.SnapshotsAddNothing` | internal/runtime/query_runner.go:1393-1404 | Repetitions of the whole text add nothing. |
| `Folding.GrowingSnapshots` | internal/runtime/query_runner.go:1393-1404 | A stream of growing snapshots ends with the last one. |
| `Folding.CallFromOwnDeltas` | internal/runtime/query_runner.go:1563-1578 | A call has the last id and name that are not empty and all argument pieces in order, from its own index only. |
| `Folding.InterleavingsAgree` | internal/runtime/query_runner.go:1563-1578 | Any interleaving of the same deltas by index assembles the same calls. |
| `Folding.OrderCalls` | internal/runtime/query_runner.go:1343-1360 | The scan for the largest index and the listing behind it, in any map order. |
| `Folding.OrderedListsNonNegative` | internal/runtime/query_runner.go:1343-1360 | Exactly the calls with an index of at least zero, in strictly ascending order. |
| `Folding.NewImages` | internal/runtime/query_runner.go:1438-1462 | The images of a batch that are new, in order. |
| `Folding.FirstByUrlKeeps` | internal/runtime/query_runner.go:1438-1462 | The images kept are exactly the first ones of their URLs, in order of arrival: they stand at the ascending list of all first places; their URLs are pairwise distinct, all that arrived except the empty one. |
| `Folding.BatchesKeepFirstArrivals` | internal/runtime/query_runner.go:1538-1562 | Batch by batch, what is kept over a stream is the first arrival of each URL. |
| `EventMapper.CollectImageDeltas` | internal/runtime/event_mapper.go:274-297 | In any map order each URL recognised in the tree and not seen before is returned exactly once, and the URLs seen grow by exactly those recognised. |
| `EventMapper.ParseImageDeltas` | internal/runtime/event_mapper.go:265-272 | From nothing seen: all recognised URLs, each once. |
| `EventMapper.ImagesHaveUrls` | internal/runtime/event_mapper.go:299-342 | A recognised image never has an empty URL. |
| `EventMapper.RecognisedIff` | internal/runtime/event_mapper.go:274-297 | A URL is recognised exactly if, however deep in lists and objects, some object is an image with it. |
| `ResponsesEvents.ImageFormsAreRead` | internal/runtime/event_mapper.go:299-365 | The forms of an image: a URL, directly or under image_url, with the media type given or else told from the URL, which is one of an image exactly by its beginning; base64 data, a PNG unless a type is given. |
| `ResponsesEvents.FirstFormCounts` | internal/runtime/event_mapper.go:299-331 | Of several forms in one object, image_url counts first, then a list of images, then base64 data. |
| `ResponsesEvents.MediaTypeIs` | internal/runtime/event_mapper.go:351-365 | The media type is the one given, else for a data URL the text between "data:" and ";base64", else none. |
| `ResponsesEvents.ImagesAreCarried` | internal/runtime/event_mapper.go:131-193 | An event, part or item that holds images yields exactly those, each URL recognised in it, and nothing else. |
| `ResponsesEvents.EventReadsBack` | internal/runtime/event_mapper.go:93-242 | Each kind of event of the Responses interface is read as what it says: texts and refusals, whole or in pieces, calls with index, id, name and arguments, the end and how it came, failures; all other kinds are passed over. |
| `ResponsesEvents.ErrorComesFirst` | internal/runtime/event_mapper.go:28-44 | An error inside an event comes before all else the event holds; choices that are no list are an error. |
| `ResponsesEvents.CallIsPutTogether` | internal/runtime/event_mapper.go:146-166 | A call announced by an item and streamed in pieces of arguments is put together under its id, call_id first, with its name and all pieces in order. |
| `EventMapper.CostIsLastReported` | internal/runtime/query_runner.go:1736-1796 | The cost behind an event is the number at the last of four places that has one: in usage, in the event, in the usage of the response, in the response; with none it is the one before. |
| `EventMapper.UsageIsLastReported` | internal/runtime/query_runner.go:1736-1796 | The usage behind an event is the one its response reports, else the one it reports itself, else the one before. |
| `EventMapper.UsageMeans` | internal/runtime/query_runner.go:1744-1777 | What a usage object reports: its token counts, under the names of either interface, with the nested details where the direct fields are zero; nothing if both counts are zero. |
| `EventMapper.TruncatesTowardZero` | internal/runtime/query_runner.go:1798-1811 | What is behind the decimal point of a count is cut off. |
| `EventMapper.StreamedTextComesOutOnceIff` | internal/runtime/event_mapper.go:93-206 | Text streamed as deltas and repeated by the text, part and item events comes out as sent exactly if what the deltas alone fold to begins it. |
| `EventMapper.SwallowedDeltaRepeatsText` | internal/runtime/event_mapper.go:93-206 | Three deltas of which one is taken for a repetition: the text comes out four times over. |
| `EventMapper.StreamedArgsComeOutTwice` | internal/runtime/event_mapper.go:146-166 | Arguments streamed in pieces and repeated by the done event always end up in the call twice. |
| `EventMapper.ParseChoices` | internal/runtime/event_mapper.go:45-90 | The loop over the choices of a chat event, and the one over their tool calls, yield the chunks the two chat rows below are about; what is no object is skipped. |
| `EventMapper.ChatEventReadsBack` | internal/runtime/event_mapper.go:28-91 | What is sent as the choices of a chat event is read back choice by choice: text, tool deltas, finish reason and the URLs of its images. |
| `EventMapper.ChatStreamYields` | internal/runtime/event_mapper.go:28-91 | A whole chat stream: its text is what was sent, put together, exactly if no piece begins with all before it; each call is made of the deltas sent for its index; the images kept are those sent, each URL once. |
| `EventMapper.ParsePartsText` | internal/runtime/event_mapper.go:240-262 | The loop over the parts of a message item yields the text the next two rows are about. |
| `EventMapper.PartsReadBack` | internal/runtime/event_mapper.go:235-262 | The text of a message item is its texts and refusals, in order. |
| `EventMapper.OtherPartsAddNothing` | internal/runtime/event_mapper.go:235-262 | Any other part, wherever it stands, adds nothing. |
| `Sse.ParseSse` | internal/util/sse.go:16-86 | The scan loop delivers what the line grammar says, cut short where a send finds the context cancelled, and at the end reports a read that failed, if there is room for the report. |
| `Basics.AsciiSpaces` | internal/util/sse.go:66-70 | The white space trimmed, among ASCII characters. |
| `Sse.UncancelledReading` | internal/util/sse.go:26-86 | Without cancellation every payload is delivered, parsed or as an error, in order, and a failed read is reported behind them exactly if no [DONE] event ended the reading and there is room. |
| `Sse.CancelledReadingIsPrefix` | internal/util/sse.go:25-55 | With cancellation what is delivered is a beginning of that. |
| `Sse.ReportComesLast` | internal/util/sse.go:76-85 | Whatever is cancelled, a failed read is reported at most once and behind everything else. |
| `Sse.LostReportsAreAll` | internal/util/sse.go:31-47 | Where cancellation is noticed only while an undecodable payload is reported, that report is all that is lost. |
| `Sse.RoundTrip` | internal/util/sse.go:25-75 | Payloads written as data lines, with comments, other fields and blank lines anywhere, are read back exactly. |
| `Sse.NothingAfterDone` | internal/util/sse.go:25-55 | Nothing behind the [DONE] event is read. |
| `Sse.UnfinishedEventDelivered` | internal/util/sse.go:73-75 | An event that ends with the input is delivered. |
| `Sse.LinesRoundTrip` | internal/util/sse.go:53-59 | Lines survive being written with either line ending and scanned. |
| `Sse.EventStreamReadsBack` | internal/util/sse.go:16-86 | From text to output in one: events written with any white space, comments, blank lines and line endings come out as their payloads, decoded, in order, then the report of a failed read unless [DONE] came; under cancellation, the first of their values. |
| `Policy.Executor.ApplyPermissionUpdates` | internal/tools/executor.go:204-241 | The in-memory policy makes one transition for each update that is present, and each file those addressed to it. |
| `Policy.ApplyUpdate` | internal/permission/store.go:112-151 | The separate code for policy files makes the same transition. |
| `Policy.Store.ApplyPersistentUpdate` | internal/permission/store.go:75-97 | Only the file the update is addressed to changes, and not if it cannot be read. |
| `Policy.Store.LoadMerged` | internal/permission/store.go:52-73 | Later layers override earlier ones; a file that cannot be read or parsed makes the whole load fail. |
| `Policy.Executor.EvaluatePolicy` | internal/tools/executor.go:171-195 | Denies exactly if the mode is not the bypass and the rule says deny. |
| `Policy.Executor.constructor` | internal/tools/executor.go:28-55 | The merged files decide mode and rules; if they cannot be loaded, the option decides the mode and there are no rules. |
| `Policy.Executor.ExecuteWithSuggestions` | internal/tools/executor.go:63-168 | The gates in their order, with the policy and outcome they lead to, whatever is done to the policy while the callback is asked; `Policy.OutcomeAtTheGates` says which outcome that is for every answer of registry, policy, callback and server. |
| `Policy.LastTouchDecides` | internal/tools/executor.go:204-241 | After any updates a tool's rule is what the last update touching it made it. |
| `Policy.UpdateMeans` | internal/permission/store.go:112-151 | What one update does to mode and rules, by the literal names of its type; a rule without a behaviour asks. |
| `Policy.MissingUpdatesAreSkipped` | internal/tools/executor.go:204-241 | Of a list of updates exactly the present ones are applied, in their order. |
| `Policy.OutsideChangesMean` | internal/tools/executor.go:197-241 | What the setter of the mode and permission updates from outside do to the policy; an empty mode changes nothing. |
| `Policy.InitialMode` | internal/tools/executor.go:28-55 | The mode of a new executor: that of the local file, else of the project's, else of the user's, else the option's; with a file that cannot be read, the option's. |
| `Policy.DeniedIff` | internal/tools/executor.go:171-195 | When a tool is denied, told from the updates alone. |
| `Policy.FileKeepsItsLayer` | internal/permission/store.go:75-97 | A file that can be read holds what the updates addressed to its layer make of it; one that cannot stays as it is. |
| `Policy.MergePriority` | internal/permission/store.go:52-73 | Local rules win over project rules, and those over user rules. |
| `Policy.ReloadedRule` | internal/permission/store.go:52-97 | The rule a reload after any updates finds; none at all if a file cannot be read. |
| `Policy.OneLayerStaysInSync` | internal/tools/executor.go:204-241 | From empty files, updates to one layer leave memory equal to what a reload rebuilds. |
| `Policy.InSyncIff` | internal/tools/executor.go:204-241 | When one update to one layer keeps memory and a reload in agreement about a tool, exactly, unreadable files included. |
| `Policy.HandlerRunsIff` | internal/tools/executor.go:63-195 | A handler runs exactly if tool, server, callback and the last word of all updates allow it. |
| `Policy.OutcomeAtTheGates` | internal/tools/executor.go:63-168 | The outcome of a call for every answer of registry, policy, callback and server: the handler is called with the input the callback puts in its place, else with the one given; the text and the wish to interrupt of every denial; every failure; and the policy afterwards. |
| `JsonScan.ExtractJsonObject` | scripts/example_verifier/main.go:239-280 | The scan with depth, string and escape flags yields what the scanner function says. |
| `JsonScan.JsonObjectExtracted` | scripts/example_verifier/main.go:239-280 | Any JSON object printed by sections 2 to 7 of RFC 8259, behind any text without an opening brace and before any text, is found exactly. |
| `JsonScan.ExtractedIff` | scripts/example_verifier/main.go:239-280 | A result is exactly the string-aware balanced segment at the first opening brace. |
| `JsonScan.SegmentsArePrefixFree` | scripts/example_verifier/main.go:239-280 | No shorter balanced segment starts there. |
| `History.PersistedSessionMessage` | sessions.go:58-118 | Decodes one stored message by its role. |
| `History.EncodeHistoryImages` | internal/runtime/query_runner.go:1421-1436 | The stored form of the images of a turn, in order. |
| `History.Normalize` | sessions.go:127-159 | Either form of list of objects, anything else left out. |
| `History.ReadBack` | sessions.go:58-181 | A stored entry reads back to its meaning, from memory or through the session file. |
| `History.StoredAsSent` | internal/runtime/query_runner.go:594-872 | The stored form of assistant messages and answers, key by key, as it is sent to the model. |
| `History.PairedAppend` | internal/runtime/query_runner.go:871-878 | Well-paired histories can be joined and cut freely. |
| `History.PairingPlaceByPlace` | internal/runtime/query_runner.go:594-872 | The pairing grammar said place by place: each call answered in its place, and no other tool message. |
| `History.InputPaired` | internal/runtime/query_runner.go:394-397 | An accepted input keeps the pairing exactly if its role is not "tool". |
| `Receive.ReceiveResponse` | client_impl.go:192-237 | For every schedule and every consumer: what is taken is what the schedule fires, message by message and error by error, up to where the consumer stops, the context ends or both channels are drained; it waits only with the schedule used up; and what is handed on is what that log comes to. |
| `Receive.ReceiveMessages` | client_impl.go:154-190 | The same without an end at the result. |
| `Receive.MessagesThroughResult` | client_impl.go:192-237 | The messages handed on are those taken up to and including the first result. |
| `Receive.ResponseInOrder` | client_impl.go:192-237 | ReceiveResponse hands on, in the order they were taken, the messages through the first result and the present errors taken before it, and nothing else but the context's end. |
| `Receive.CancellationIsTold` | client_impl.go:192-237 | The context's end is told exactly if it was taken. |
| `Receive.OnlyCancellationAfterResult` | client_impl.go:192-237 | Nothing follows a result except the context's end. |
| `Receive.DrainedResponseIsWhole` | client_impl.go:192-237 | A response that ends with its only result is handed on whole. |
| `Receive.StreamedMessages` | client_impl.go:154-190 | ReceiveMessages hands on every message taken. |
| `Receive.StreamInOrder` | client_impl.go:154-190 | ReceiveMessages hands on every message and every present error taken, in that order. |

## Left out

- SessionStore.Manager.SnapshotFiles: whether the save of the session file fails is an input; what is written to it is not modelled.
- FileRoundTrip.CaptureAfterRewind: where a removed link stands above a wanted file, the order of the entries decides (`FileRoundTrip.RemovedLinkMayTakeFile`, `FileRoundTrip.StrandedFileComesBack`); the exact condition there is the one of `FileRoundTrip.CaptureInOrderIff`, which names the order. These theorems are about paths that walking a tree can yield; `Disk.FileSystem.RestoreFiles` is not.
- Disk.FileSystem.RestoreFiles: a write to a special file or a link to a file is taken to leave the entry as it is and to go elsewhere; links lead out of the tree, and no two of them to the same place; a path that ends above the root is taken to fail.
- Disk.FileSystem.WriteFile: a system call either fails and changes nothing or succeeds; a half-written file is not modelled.
- RunnerLoop.QueryRunner.RunMessages: works on sessions one run at a time; unsynchronised runs on one session, and the iterator variant that feeds inputs from a goroutine, are not modelled.
- RunnerTheorems.ShownInputReadsBack: assumes that no blank text decodes to an object, which holds of the JSON decoder.
- Policy.Store.ApplyPersistentUpdate: a policy file that can be read can be written; the source ignores the error otherwise.
- Concurrent forks: a fork onto the name of a session in use by a run is excluded.
- HTTP transport, endpoints and request bodies: a stream is an arbitrary schedule of events, errors and closes.
- Tool servers, user callbacks and hook bodies: they answer anything, and their errors may be denials; what else an error may be is only its text.
- JSON encoding and decoding of Go values: a lossless pair; argument texts are decoded by an arbitrary partial function.
- Costs are real numbers; rounding of floating-point sums is not modelled.
- Time: durations, timeouts and backoff appear only as cancellation that may come at any send or select.
- Tracing, metrics, audit envelopes and structured output: no effect on the modelled state.
- The text of the budget result, which only prints two numbers.
- Option setters other than mode and model, request field copying, model lists and control-plane status: field copying only.
- The 2 MiB limit of a line in the event stream.
- Blocking of error sends on a full channel, and liveness of the input iterator behind a failed run.
