# relay-flow, verified

A Dafny model of the parts of relay-flow that must survive crashes, retries,
repeated messages and concurrent operators, with proofs of what they promise.
`dafny verify dfyconfig.toml` checks everything.

Code that works by changing things step by step is a method or a class here,
proved against functions and predicates; code made of expressions is functions.
Protocols whose steps interleave are state machines: a run is any sequence of
events, and each theorem holds for every run.

| part | files |
|---|---|
| the JSONC editor that installs the plugin: tokenizer, parser, splices, the edit | `Jsonc*.dfy` |
| a ticket's run: workflow graph, visits, reports, comments, retries | `Workflows`, `Markers`, `RunProtocol`, `RunInvariants`, `RunTrace`, `RunTheorems`, `RunSteps`, `RunPaths`, `RunReceive`, `RunChecks`, `RunEcho`, `Retry` |
| attempts, the lifecycle gate and cancellation | `Lifecycle*`, `Manager` |
| the SQL projection, and the Temporal timeline against it | `Projection`, `Timeline` |
| crash-safe files and the service above them | `Store`, `Service`, `Onboarding` |
| reconciling Herdr panes and Beads statuses | `Herdr`, `Beads`, `BeadsRuns` |
| configuration merging, on values and on map objects | `Merging`, `MergeHeap` |
| the report parser and its round trip | `Report*` |
| repo bindings and run identifiers | `Bindings`, `RunIds` |
| concrete inputs on which a promise fails | `Counterexamples`, `RunEcho` |

## What the proofs found

Each is a property that does not hold of the code on all inputs. The model keeps
the code as it is; the lemma named gives the exact condition or the input.

- A comment is skipped when an earlier comment on its mailbox already holds its
  marker as text. On a node that routes to itself, a summary that quotes the
  visit's feedback marker suppresses the feedback (`RunTheorems.CommentWritten`,
  `RunChecks.MissingIff`, `RunEcho.FeedbackSkipped`).
- A poll can create an execution for a run that is over. It reads the row, looks for
  a live execution and creates one, and cancellation and completion take no part in
  the gate. It happens exactly if a cancellation decides just before the creation, or
  the lookup finds nothing for a row that was read active and is over or decided
  since (`LifecycleSeal.OrphanExact`, `LifecycleRuns`).
- The cancellation marker is written twice exactly if two writers list the comments
  before either writes (`LifecycleNotes.SecondMarkerExact`), and a completed run can
  be left with one that gives no reason (`LifecycleRuns.MarkerWithoutReason`).
- Temporal's rebuilt timeline counts a step activity when it is scheduled, the SQL
  timeline when it runs. They differ exactly when cancellation arrives while the
  upsert that opens or closes a step has not run (`Timeline.ClosedTimelines`).
- A rollback that fails half way is forgotten by the next `Put` in the same
  process, which undoes itself to the half-rolled-back pair. A `Put` or `Remove`
  over a standing journal is safe exactly if it finds a whole pair
  (`Store.PutLandsIff`, `Store.RemoveLandsIff`, `Store.ForgottenTarget`).
- Restarting a Beads run blocks exactly when an earlier attempt's end
  configuration had closed the parent before that attempt was canceled
  (`BeadsRuns.ConflictsIff`, `BeadsRuns.RestartStuck`).
- A printed report does not parse back when the first line of a text ends in white
  space or has a carriage return or a Unicode line separator inside, or a later line
  reads as a label (`ReportRoundTrip.RoundTrip`).
- Merging is not associative where a scope puts a non-map between two maps
  (`Merging.RegroupExact`), and `Merge` shares exactly the map objects that lists of
  the merged value lead to (`MergeHeap.Merge`, `MergeHeap.SharedInList`).
- The attempt marker is not escaped in run identifiers, so a ticket may be named
  like a restart of another (`RunIds.ExecutionIdIff`); a cancellation marker also
  answers for the same ticket of a repo whose escaped name ends the canceled one's
  (`RunIds.CancellationContains`).

## Model

| member | source | states |
|---|---|---|
| `JsoncLexer.LexIff` | internal/harness/opencode/repo_setup.go:249-317 | a text is read as a sequence of lexemes exactly if the lexemes spell the text, each is one the tokenizer makes, and each may follow the one before it |
| `JsoncLexer.Tokenize` | internal/harness/opencode/repo_setup.go:249-317 | the loop over the bytes yields the tokens of that reading with their offsets, or its error |
| `JsoncParser.Parser.ParseValue` | internal/harness/opencode/repo_setup.go:319-336 | the recursive descent with a cursor finds the value that the token grammar gives, and moves the cursor just past it |
| `JsoncParser.Parser.ParseObject` | internal/harness/opencode/repo_setup.go:338-373 | the same for an object: members in order, a comma between them, a trailing one allowed and recorded |
| `JsoncParser.Parser.ParseArray` | internal/harness/opencode/repo_setup.go:375-401 | the same for an array |
| `JsoncParser.RelocateValue` | internal/harness/opencode/repo_setup.go:319-401 | a value parses to the same tree wherever its tokens stand |
| `JsoncSplice.SortDownSpec` | internal/harness/opencode/repo_setup.go:234-247 | the exchange sort leaves a descending permutation, and keeps a list already in order, ties included |
| `JsoncSplice.ApplyTextEdits` | internal/harness/opencode/repo_setup.go:234-247 | sorting in place and splicing from the back equals applying the edits one by one |
| `JsoncSplice.SpliceIsSubst` | internal/harness/opencode/repo_setup.go:234-247 | edits at token boundaries of a text are the substitution of lexemes in its reading |
| `JsoncDocument.SubstWellFormed` | internal/harness/opencode/repo_setup.go:129-317 | after such a substitution the text still reads as the substituted lexemes: no token fuses with its neighbour |
| `JsoncUpdate.FindComma` | internal/harness/opencode/repo_setup.go:225-232 | the comma between two tokens if there is one |
| `JsoncUpdate.FindPlugin` | internal/harness/opencode/repo_setup.go:143-159 | the plugin property is absent, present once, or an error |
| `JsoncUpdate.FindRelays` | internal/harness/opencode/repo_setup.go:160-174 | the first relay-flow entry and all later ones, and an error at an entry that is not a string |
| `JsoncUpdate.UpdateOpenCodeConfig` | internal/harness/opencode/repo_setup.go:129-192 | the imperative editor computes the update that the theorems below are about |
| `JsoncTheorem.UpdateAccepts` | internal/harness/opencode/repo_setup.go:129-192 | a document is edited exactly when it reads as one object with at most one plugin property, and that one an array of strings |
| `JsoncTheorem.UpdateMeaning` | internal/harness/opencode/repo_setup.go:129-401 | reading the output gives the same members in the same order and the same comments, but for the plugin array, which is pinned |
| `JsoncLocal.UpdateLocal` | internal/harness/opencode/repo_setup.go:160-247 | every byte of the document outside the brackets of the plugin array is kept, or, without such a property, every byte outside the gap before the closing brace |
| `JsoncLocal.UpdateSubst` | internal/harness/opencode/repo_setup.go:160-247 | inside it tokens are exchanged and nothing else: every white space and comment stays between the tokens it stood between |
| `JsoncTheorem.PinSpec` | internal/harness/opencode/repo_setup.go:160-191 | pinning keeps every other plugin in order, leaves exactly one relay-flow entry, equal to the pinned one, and is idempotent |
| `JsoncPinned.UpdatePins` | internal/harness/opencode/repo_setup.go:160-191 | the edited document has one plugin property; in its array the first entry that is the bare name, or the name, an at sign and any version, is exchanged for the pinned one where it stands, later ones are gone, without any the pinned one is added at the end, and every other entry stays in order |
| `JsoncPinned.OneLeft` | internal/harness/opencode/repo_setup.go:160-191 | so exactly one entry names the plugin, in any version, and that one is `relay-flow-plugin@0.3.14-alpha` |
| `JsoncTheorem.SettledDocument` | internal/harness/opencode/repo_setup.go:129-192 | a document already pinned comes back byte for byte |
| `JsoncTheorem.UpdateIdempotent` | internal/harness/opencode/repo_setup.go:129-192 | a second application returns identical bytes |
| `Workflows.BuildAdjacency` | internal/workflow/workflow.go:298-304 | the adjacency map lists exactly the edges of the graph |
| `Workflows.ReachFrom` | internal/workflow/workflow.go:305-315 | the worklist terminates with a set that holds start, is closed under edges and holds only reachable nodes |
| `Workflows.ValidateReachability` | internal/workflow/workflow.go:298-322 | accepts exactly when every node has a path of edges from start, and otherwise names one that has none |
| `Workflows.MatchesIff` | internal/workflow/workflow.go:94 | the name pattern matches exactly a lower-case letter followed by letters and digits |
| `Workflows.NodeFaultIff` | internal/workflow/workflow.go:228-287 | the ordered checks of start, end and work nodes accept exactly the sound ones |
| `Workflows.FaultBlames` | internal/workflow/workflow.go:228-287 | each of their errors is true of the node |
| `Workflows.Validate` | internal/workflow/workflow.go:174-294 | accepts exactly the valid definitions, and every error it gives is true of the definition |
| `Workflows.StartLeads` | internal/workflow/workflow.go:325-334 | the start edge of a valid workflow leads to a work node or end |
| `Workflows.AcceptsIff` | internal/workflow/report.go:46-95 | a report is accepted exactly if the node exists, no field is empty, the next step is the target of a success route for a success and of a failure route for a failure, a failure does not go to end, and with end next all feedback reads None |
| `Workflows.RefusalTrue` | internal/workflow/report.go:46-95 | each refusal is true of the report |
| `Workflows.ReportLeads` | internal/workflow/report.go:46-95 | in a valid workflow an accepted report leads to a node that exists, never to start, and to end only on success without feedback |
| `Markers.MarkersDistinct` | internal/execution/goworkflows/interpreter.go:418-449 | a visit's marker contains another only if it is the same visit and kind |
| `Markers.MarkedContains` | internal/task/beads/beads.go:1058-1071 | a marked comment contains a marker exactly when its body or its own marker does |
| `RunInvariants.Revalidates` | internal/execution/goworkflows/interpreter.go:384-388 | whatever report reaches the waiting visit passes the validation inside the workflow, because submission validated it for the same node |
| `RunTheorems.VisitsWalk` | internal/execution/goworkflows/interpreter.go:207-388 | the visits of any run walk over work nodes, the first on the start route and each next one on a route of the outcome reported before it, and the workflow never rejects an accepted report |
| `RunTheorems.FinishesAtEnd` | internal/execution/goworkflows/interpreter.go:471-534 | a run that finishes was led to end by its last report, a success along a success route and without feedback, or by the start route |
| `RunTheorems.ReportsOnce` | internal/execution/goworkflows/interpreter.go:345-394 | every visit but the last took exactly one report, sent to that visit and valid for its node; no report ID answers two visits |
| `RunTheorems.EffectsOrdered` | internal/execution/goworkflows/interpreter.go:207-545 | under any repetition and crash, activities and comments take effect in program order |
| `RunSteps.ActsInOrder` | internal/execution/goworkflows/interpreter.go:207-545 | when an activity takes effect for a visit, every activity the program puts before it has, for this visit and all earlier ones: the visit is published before its terminal is launched and shown after, a report is recorded before it is answered, the end comes after every visit |
| `RunSteps.ActsComplete` | internal/execution/goworkflows/interpreter.go:207-545 | no activity is left out for a visit the run has left, nor for the end of a finished run |
| `RunSteps.WaitingAdmits` | internal/execution/goworkflows/engine.go:352-413 | while a visit waits unclaimed, submission lets in exactly the reports that are new to the run and valid for the waiting node |
| `RunSteps.RecordedRefused` | internal/execution/goworkflows/engine.go:352-413 | and never again the report of a visit the run has left |
| `RunSteps.DoneRefuses` | internal/execution/goworkflows/engine.go:385-390 | a finished run lets no report in |
| `RunSteps.ClaimFixes` | internal/execution/projection/projection.go:391-405 | once a cancellation has claimed the run, no visit is published on its row |
| `RunSteps.CancelStops` | internal/execution/goworkflows/interpreter.go:345-383 | a canceled run takes no report and does nothing to the world any more, unless it was finished |
| `RunPaths.WalksExact` | internal/execution/goworkflows/interpreter.go:176-545 | the visits of finished runs are exactly the legal walks: each run is one, and for each walk from start to end with acceptable reports some run takes it |
| `RunTheorems.CommentPlaced` | internal/execution/goworkflows/interpreter.go:416-454 | each comment is written at most once: the summary on the mailbox of the visit's node, the feedback on that of the reported next step, none when that is end, each with the rendering of its kind, the visit ID and the tag in its marker |
| `RunTheorems.CommentWritten` | internal/task/beads/beads.go:1039-1071 | every comment the run went past is there, exactly unless its marker was quoted before on that mailbox |
| `RunChecks.MissingIff` | internal/task/beads/beads.go:1039-1071 | and whatever people write: it is missing exactly if its activity found the marker before it had written the comment |
| `RunEcho.FeedbackSkipped` | internal/task/beads/beads.go:1058-1071 | for a node that routes to itself, a run in which the summary quotes the feedback marker and the feedback is never written |
| `RunReceive.AwaitReport` | internal/execution/goworkflows/interpreter.go:345-379 | the signal loop takes the first unseen report for this visit and marks every ID it met |
| `RunReceive.UnseenTaken` | internal/execution/goworkflows/interpreter.go:352-379 | an unseen report of the waiting visit in the channel is consumed unless another for that visit stands before it, whatever else interleaves |
| `RunReceive.WaitingTakes` | internal/execution/goworkflows/interpreter.go:352-379 | as soon as enough signals were received, the first that counts is the one taken, and it stays |
| `Retry.RetryLoop` | internal/execution/goworkflows/interpreter.go:559-604 | what the run's row shows after any failures, claims and lost writes: blocked once a conflict was written, waiting and without retry status after success, untouched once canceling or final; and when a lost write ends the loop |
| `Projection.TerminalAbsorbs` | internal/execution/projection/projection.go:279-345 | no unconditional state write changes a terminal row; after canceling only a terminal state follows, and the reason stays the first one |
| `Projection.UpsertTwice` | internal/execution/projection/projection.go:448-504 | repeating a step upsert changes nothing |
| `Projection.RowKept` | internal/execution/projection/projection.go:241-376 | through any sequence of statements a retained row keeps its start, and its state once final: inserting again changes nothing |
| `Projection.ClaimKept` | internal/execution/projection/projection.go:241-426 | a claimed row keeps its reason through any further inserts, claims, visits and ordinary state updates |
| `Projection.Database.BeginCancellation` | internal/execution/projection/projection.go:268-277 | an active row becomes canceling with the reason and is otherwise kept; any other is left alone |
| `Projection.Database.UpdateStateCAS` | internal/execution/projection/projection.go:279-376 | changes the row exactly when its guard admits it, and then the latest live step of that run only |
| `Projection.Database.UpdateNode` | internal/execution/projection/projection.go:391-426 | unless the run is canceling or terminal, its row gets the state, the node and the visit and keeps error, start and finish, and the node's runtime gets the visit and keeps its session |
| `Projection.NodeKept` | internal/execution/projection/projection.go:241-426 | through any statements a row shows the node and visit of the last entry that met it neither claimed nor over |
| `Projection.RuntimeKept` | internal/execution/projection/projection.go:661-672 | after any statements a node's runtime is at the visit it was last moved to, and a move keeps its session |
| `Projection.Database.UpsertStep` | internal/execution/projection/projection.go:448-504 | merges one step of one run |
| `Projection.ReceiptKept` | internal/execution/projection/projection.go:729-735 | a report ID belongs to the visit that first recorded it, whatever is recorded later |
| `Projection.SessionKept` | internal/execution/projection/projection.go:674-719 | at any later time a session is accepted exactly while the visit it was first seen at is the current one |
| `Projection.Database.RegisterNodeSession` | internal/execution/projection/projection.go:674-719 | a session is accepted exactly for the visit during which it was first seen |
| `Projection.Database.SweepRetention` | internal/execution/projection/projection.go:896-949 | terminal rows finished before the cutoff go with everything recorded about them, and nothing else |
| `Timeline.SameLattice` | internal/execution/temporal/operations.go:380-431 | the rank comparison and the SQL expression are the same lattice |
| `Timeline.ApplyState` | internal/execution/temporal/operations.go:433-474 | a run state reaches the latest live step, or none |
| `Timeline.StepsFromHistory` | internal/execution/temporal/operations.go:480-532 | the rebuild is the fold over the scheduled activities |
| `Timeline.FoldUnique` | internal/execution/temporal/operations.go:480-532 | that fold depends on the history alone |
| `Timeline.TraceAgrees` | internal/execution/temporal/interpreter.go:261-835 | at every point of every history the interpreter can produce, both timelines agree on the finished steps and how the open one stands |
| `Timeline.ClosedTimelines` | internal/execution/temporal/operations.go:433-532 | for every closed history the rebuilt and the kept timelines are equal, exactly unless an opening or closing upsert was still to run at cancellation |
| `Timeline.RebuildAgrees` | internal/execution/temporal/operations.go:480-532 | so whatever the rebuild returns for a closed history is the timeline kept in SQL, under that same condition |
| `Timeline.CompletedTimelines` | internal/execution/temporal/operations.go:433-532 | for every history without cancellation both agree and every step is over |
| `Timeline.CompletedHistory` | internal/execution/temporal/interpreter.go:261-835 | such histories exist for any outcomes of any number of steps, with lost and repeated activities |
| `Timeline.CanceledHistory` | internal/execution/temporal/interpreter.go:261-835 | and canceled ones, with the cancellation at every place |
| `LifecycleTheorems.OneUnfinished` | internal/run/manager.go:70-404 | at most one attempt is unfinished, it is the newest, and while it is, the stored definition is present and the one its execution runs |
| `LifecycleTheorems.TerminalMeans` | internal/execution/goworkflows/engine.go:478-719 | a completed run was completed by an execution without a cancel event in its history; a canceled one has the marker on its parent |
| `LifecycleTheorems.CompleterClean` | internal/execution/goworkflows/engine.go:667-719 | nor does that execution get a cancel event later |
| `LifecycleNotes.MarkerReason` | internal/execution/goworkflows/engine.go:607-663 | every marker carries the reason of the first successful cancel, or the empty one that a cleanup loaded from a completed row |
| `LifecycleNotes.FirstReason` | internal/execution/goworkflows/interpreter.go:79-94 | the first of these always, while no step overtakes the attempt |
| `LifecycleNotes.MarkerOnce` | internal/task/beads/beads.go:1058-1071 | the marker is written at most once while no two writers have both listed the comments and found none |
| `LifecycleNotes.SecondMarkerExact` | internal/task/beads/beads.go:1058-1071 | such a list, and no other step, makes a second marker possible: the exact condition |
| `LifecycleRuns.MarkerTwice` | internal/execution/goworkflows/engine.go:580-663 | two cancels of a run without an execution write it twice |
| `LifecycleRuns.MarkerWithoutReason` | internal/execution/goworkflows/interpreter.go:79-94 | a completed run with a marker that gives no reason, whatever the reason of its claim |
| `LifecycleTheorems.TerminalFinal` | internal/execution/projection/projection.go:268-376 | completed and canceled are final, and canceling keeps its reason until one of them |
| `LifecycleTheorems.PollsStaySilent` | internal/run/manager.go:163-237 | a poll that begins once the run is canceled, completed or being canceled begins no other execution, even after the rows were swept |
| `LifecycleTheorems.RestartExceeds` | internal/run/manager.go:305-404 | a restart needs a canceled run with nothing unfinished, and its number exceeds every retained one |
| `LifecycleTheorems.CreatedActive` | internal/execution/goworkflows/engine.go:272-344 | an execution is created only by an operation that read its run active, or inserted it, and held the gate since |
| `LifecycleSeal.SettledSealed` | internal/execution/goworkflows/engine.go:272-344 | unless a step overtakes the attempt: once its row is canceled or completed, a live execution of it is the one that was canceled or that completed it, and none is about to be created |
| `LifecycleSeal.OrphanExact` | internal/execution/goworkflows/engine.go:301-318 | two steps, and no other, make a run possible that is over and has an execution at work nothing canceled: a cancellation that decides while the gated operation is about to create, and the operation's lookup that finds none for a row, read active, that is over or decided since |
| `LifecycleRuns.CanceledYetWorking` | internal/execution/goworkflows/engine.go:580-602 | the first step happens, for every definition and reason |
| `LifecycleRuns.CanceledBehindPoll` | internal/execution/goworkflows/engine.go:301-318 | so does the second, for a canceled run |
| `LifecycleRuns.CompletedYetWorking` | internal/execution/goworkflows/engine.go:301-318 | and for a completed one |
| `LifecycleLive.CancelCanEnd` | internal/execution/goworkflows/engine.go:478-719 | from every reachable state in which a run is being canceled, startup reconciliation and the execution's cleanup can bring it to an end, whatever crashed before |
| `LifecycleLive.ActiveCanComplete` | internal/execution/goworkflows/engine.go:272-344 | from every reachable state in which a run is active, a poll can get it back to work and it can be shown waiting and be completed |
| `LifecycleLive.CanceledCanRestart` | internal/run/manager.go:305-404 | from every reachable state whose newest attempt is canceled, with its workflow there, a restart can get the next attempt to work |
| `LifecycleLive.SweptExact` | internal/execution/projection/projection.go:896-949 | a row goes only in a sweep, exactly if it is over and finished before the cutoff, and its execution with it |
| `Manager.PickAttempts` | internal/run/manager.go:169-187 | the loop finds the newest row and the newest active one |
| `Manager.AllocateAttempt` | internal/run/manager.go:363-379 | the number is the largest retained plus one, refused exactly at the largest 64-bit number |
| `Manager.PollDecision` | internal/run/manager.go:169-203 | the loop's result decides the poll whatever the ties |
| `Store.RecoverSafe` | internal/workflow/store.go:369-396 | recovery interrupted anywhere leaves a state it can start from again |
| `Store.ReplaceSafe` | internal/workflow/store.go:402-461 | every state on the way is recoverable; success leaves the new pair, failure the old pair or the journal |
| `Store.RecoveryEnds` | internal/workflow/store.go:335-396 | a recovery that finishes, after any number of crashed ones, leaves no journal and a complete pair |
| `Store.PutCrash` | internal/workflow/store.go:402-426 | whatever journal stands when `Put` begins, a crash at any point of it and any crashes in recovery end without a journal, at the new pair, the files found, or a pair of that journal |
| `Store.RemoveCrash` | internal/workflow/store.go:437-461 | the same for `Remove` |
| `Store.StandingKept` | internal/workflow/store.go:286-400 | rollback and recovery keep, at every moment, that files under a journal are a mix of its two pairs; the two lemmas above say it of `Put` and `Remove` |
| `Store.PutLandsIff` | internal/workflow/store.go:402-433 | for all outcomes and crashes a `Put` ends at a whole pair exactly if the files it finds are one, or are the new pair already |
| `Store.RemoveLandsIff` | internal/workflow/store.go:437-461 | a `Remove` exactly if the files it finds are one, or there is no definition |
| `Store.PutSucceeds` | internal/workflow/store.go:402-433 | `Put` succeeds exactly if its five steps on files do |
| `Store.RemoveSucceeds` | internal/workflow/store.go:437-461 | likewise `Remove`, where there is a definition |
| `Store.StartupSucceeds` | internal/workflow/store.go:335-396 | recovery at startup succeeds exactly if its two steps do for files that are a whole pair, and its four otherwise |
| `Store.RestorePairSucceeds` | internal/workflow/store.go:286-312 | and a rollback exactly if its five do |
| `Store.RestorePairSafe` | internal/workflow/store.go:286-312 | every state of a rollback is recoverable, and success leaves the requested pair |
| `Store.RollbackEnds` | internal/workflow/store.go:286-312 | a rollback whose journal reached the disk ends at its target, whatever crashes |
| `Store.ForgottenTarget` | internal/workflow/store.go:286-433 | a history that gets there: a rollback that stops half way, then a failing `Put` that ends at neither pair, without a journal |
| `Store.Directory.PutDefinition` | internal/workflow/store.go:402-426 | the program computes the sequence of disk states the crash theorems are about |
| `Store.Directory.RemoveDefinition` | internal/workflow/store.go:437-461 | likewise |
| `Store.Directory.RestoreDefinition` | internal/workflow/store.go:286-312 | likewise |
| `Store.Directory.RecoverTransaction` | internal/workflow/store.go:369-396 | likewise |
| `Store.Directory.RecoverAtStartup` | internal/workflow/store.go:335-367 | likewise |
| `Service.Workflows.Submit` | internal/workflow/service.go:68-136 | which outcome is given, exactly, by the answers of the checks, the file operations and the rebuilds; accepted: disk, registry and bindings are new; rolled back: disk and registry equal their values before the call, and so do the bindings if they were those of the registry, which every outcome but a failed rollback keeps |
| `Service.Workflows.Remove` | internal/workflow/service.go:140-181 | the same for removal; a failed store operation leaves the files or its journal |
| `Onboarding.Home.RemoveArtifacts` | cmd/relay-flow/onboarding.go:168-195 | removes the files and the database's side files one by one and the marker last, so every state in between is recoverable |
| `Onboarding.Home.Commit` | cmd/relay-flow/onboarding.go:91-155 | publishes everything or reports failure, which it does only if an operation on a file failed or one of the files was there before; then it changes nothing |
| `Onboarding.Home.Recover` | cmd/relay-flow/onboarding.go:210-250 | finishes a complete publication and removes any other |
| `Onboarding.Home.Survive` | cmd/relay-flow/onboarding.go:91-250 | a first run and recoveries that die at any moment end with everything, with nothing, or with what was there before, and no marker |
| `Herdr.Adapter.FindTerminal` | internal/runner/herdr/herdr.go:333-383 | a handle is found only if its pane is there with a live foreground process, missed only if at some moment it was not, and fails only if Herdr does not answer; nothing is changed |
| `Herdr.Adapter.RecoverTerminal` | internal/runner/herdr/herdr.go:480-518 | finds a pane of the title if and only if the workspace has one, although tabs and panes are listed at different moments |
| `Herdr.Adapter.StartNode` | internal/runner/herdr/herdr.go:409-421 | success leaves the title's pane with the command submitted |
| `Herdr.Adapter.CreateTerminal` | internal/runner/herdr/herdr.go:386-404 | creates a pane only where the title owns none |
| `Herdr.Adapter.CloseTerminal` | internal/runner/herdr/herdr.go:533-550 | afterwards the pane is gone |
| `Herdr.Adapter.EnsureTerminal` | internal/runner/herdr/herdr.go:425-475 | a handle it returns is the title's only pane in the workspace, live or labelled with the command just submitted; only panes seen without an agent are closed or restarted, a tab is opened only where the title has none, and where the title's agent runs all the while and Herdr answers, its handle is returned and it is left alone |
| `Herdr.AliveReturned` | internal/runner/herdr/herdr.go:425-475 | that last part, for the stored handle and for a recovered one |
| `Herdr.HasLiveForegroundProcess` | internal/runner/herdr/herdr.go:373-383 | some foreground process is not the pane's shell |
| `Herdr.Adapter.Launches` | internal/runner/herdr/herdr.go:386-518 | any number of launches, each of which may die after any call, never leave two panes of one title |
| `Herdr.QuietGood` | internal/runner/herdr/herdr.go:425-518 | a step in which no title gains a pane keeps every title's panes single |
| `Herdr.CreatedGood` | internal/runner/herdr/herdr.go:386-396 | a new tab keeps them single if its title owned no pane |
| `Herdr.Candidate` | internal/runner/herdr/herdr.go:484-513 | the candidates of the two listings are exactly the panes the title owns |
| `Beads.Tracker.ReconcileIssue` | internal/task/beads/beads.go:991-1018 | at most one update, none where nothing has to change and none on a status outside the expected set, which is a conflict; it fails only for an unknown issue or where Beads does |
| `Beads.Applied` | internal/task/beads/beads.go:939-985 | an applied configuration gave the mailbox its status and assignee and the parent its status where one is configured, each from a status expected there, and touched nothing else |
| `Beads.Completed` | internal/task/beads/beads.go:1024-1029 | a completed mailbox was in progress, or closed already, and is closed |
| `Beads.Reopened` | internal/task/beads/beads.go:1121-1129 | after a prepared restart every mailbox is open, coming from open, in progress or closed, and nothing else changed |
| `Beads.Tracker.ApplyTaskConfig` | internal/task/beads/beads.go:939-957 | the mailbox first and then the parent, up to the first call that does not apply |
| `Beads.Tracker.CompleteMailbox` | internal/task/beads/beads.go:1024-1029 | closes the mailbox from in_progress only |
| `Beads.Tracker.PrepareRestart` | internal/task/beads/beads.go:1121-1129 | reopens the mailboxes in order and touches nothing else |
| `Beads.Guarded` | internal/task/beads/beads.go:986-1018 | a status changes only from the declared sources to the target |
| `Beads.HumanStatusKept` | internal/task/beads/beads.go:959-1018 | a status only a person sets is never changed by any call, whatever is configured |
| `Beads.ActivitiesKeepHuman` | internal/task/beads/beads.go:939-1129 | so no activity of the adapter, finished, failed or stuck, changes such a status |
| `BeadsRuns.ConflictsIff` | internal/task/beads/beads.go:939-1129 | on any walk of any run with default configuration and nobody else changing statuses, no conflict arises, except exactly at the start of a restart whose parent an earlier attempt had closed |
| `BeadsRuns.BlockedIff` | internal/task/beads/beads.go:1079-1129 | in every reachable state the next call is refused exactly in that case |
| `BeadsRuns.StuckAfter` | internal/task/beads/beads.go:1116-1129 | every run that has applied its end configuration goes on, by cancel and restart, to a new attempt that is stuck at its start |
| `BeadsRuns.RestartStuck` | internal/task/beads/beads.go:1116-1129 | every setting has such a run |
| `Merging.CoveredIff` | internal/config/config.go:27-40 | a value takes nothing over from another exactly when it covers its maps |
| `Merging.RegroupExact` | internal/execution/goworkflows/activities.go:123-145 | merging defaults with the merge of workflow and node equals merging in order exactly when, wherever the middle scope is not a map, the outer map adds nothing |
| `Merging.RegroupPlain` | internal/execution/goworkflows/activities.go:594-599 | in particular when no key path is a map, a non-map and a map |
| `MergeHeap.MergeInto` | internal/config/config.go:27-40 | changes only the destination and objects made since, never the source |
| `MergeHeap.Merge` | internal/config/config.go:19-25 | the result is the merge in order, its map objects at every depth are new, no argument changes, and an object there before is reachable from the result exactly if a list of the merged value leads to it |
| `MergeHeap.NothingListed` | internal/config/config.go:27-51 | so with no map object inside a list of any argument, nothing is shared |
| `MergeHeap.SharedInList` | internal/config/config.go:27-51 | an argument whose list holds a map object, and the result that reaches it |
| `ReportText.ParseReport` | plugin/index.ts:95-165 | the loop over the lines computes the parse the round trip is about |
| `ReportGrammar.MatchLabelIff` | plugin/index.ts:79-93 | the matcher finds a heading and a value exactly if the line meets the label pattern with them |
| `ReportGrammar.ParsedIff` | plugin/index.ts:95-165 | a text parses to a report if and only if it consists of blank lines and four sections, in any order, each a label line and lines that are no label line nor, outside summary and feedback, a heading, whose trimmed texts are the fields, the status in any case |
| `ReportTidy.ParsedTidy` | plugin/index.ts:105-131 | no later line of a parsed text reads as a label |
| `ReportPrint.KeptExact` | plugin/index.ts:105-119 | a value comes back as it was exactly when its first line ends without white space |
| `ReportRoundTrip.RoundTrip` | plugin/index.ts:79-165 | printing in any of the 24 label orders and parsing gives the report back exactly when both texts can stand behind a label, end their first line cleanly and hold no label line; other headings are kept |
| `ReportRoundTrip.Refused` | plugin/index.ts:105-140 | a hidden head or a repeated label makes the text no report |
| `Bindings.BindOne` | internal/repo/repo.go:140-216 | a workflow's repos in order, up to the first that fails |
| `Bindings.DropWorkflow` | internal/repo/repo.go:217-232 | takes a failed workflow out of every repo, by identity |
| `Bindings.BindWorkflows` | internal/repo/repo.go:128-249 | strict: any failure is the first one's error and changes nothing; otherwise each repo's bindings are replaced by the expected ones sorted by name, and exactly the failing workflows are blocked |
| `Bindings.PublishedIff` | internal/repo/repo.go:136-232 | a repo's bindings are those of the routable workflows that list it and compile in every repo they list, each with the repo's filter and its ownership matcher |
| `Bindings.FaultTrue` | internal/repo/repo.go:140-216 | each fault is true of the repo and the workflow |
| `Bindings.FirstFaultIs` | internal/repo/repo.go:140-216 | the reason given is the fault at the first listed repo that fails |
| `Bindings.Isolated` | internal/repo/repo.go:140-232 | a failing workflow is bound nowhere and has exactly one issue |
| `Bindings.BoundOnce` | internal/repo/repo.go:136-232 | workflows of different names that list no repo twice are bound at most once in a repo |
| `Bindings.Determined` | internal/repo/repo.go:234-248 | then the published lists are determined, order and all |
| `RunIds.EscapeRoundTrip` | internal/identity/identity.go:26-32 | path escaping can be undone, for all bytes |
| `RunIds.RunIdInjective` | internal/identity/identity.go:26-32 | a run ID determines repo, workflow and ticket |
| `RunIds.LogicalUndoes` | internal/identity/identity.go:37-53 | `LogicalRunID` undoes `NewAttemptRunID` for every restart, and for a first attempt exactly when the ID does not hold the marker |
| `RunIds.MarkerInComponents` | internal/identity/identity.go:26-53 | an ID holds the marker exactly when a component does |
| `RunIds.LogicalOfExecution` | internal/identity/identity.go:47-53 | so the logical ID of an execution is its run's, exactly unless it is a first attempt with the marker in a component |
| `RunIds.ExecutionIdIff` | internal/identity/identity.go:26-42 | two executions share an ID exactly when they are the same or a ticket is named like a restart of the other |
| `RunIds.CancellationContains` | internal/run/manager.go:20-22 | when a cancellation marker also answers for another run |
| `Counterexamples.MergeOrderShows` | internal/config/config.go:27-40 | a map, a scalar and a map at one key |
| `Counterexamples.TrailingSpaceLost` | plugin/index.ts:105-119 | a first line that ends in a space |
| `Counterexamples.CarriageReturnRefused` | plugin/index.ts:79-93 | a carriage return inside the first line |
| `Counterexamples.LabelLineRefused` | plugin/index.ts:105-121 | a label line inside a summary |
| `Counterexamples.TicketPosesAsRestart` | internal/identity/identity.go:37-42 | ticket `t~attempt~2` and the second attempt of `t` |
| `Counterexamples.CancellationAnswersTwice` | internal/run/manager.go:20-22 | repos `team-a` and `a` |
| `Counterexamples.TimelinesDiffer` | internal/execution/temporal/operations.go:480-532 | cancellation before the first step's upsert ran |

## Assumptions

- The clock does not go back, one server process runs at a time, and labels are
  only added to tickets.
- The startup sweep removes a run's row together with its finished executions, runs
  before any poll or request, and does not meet a run that is over while an
  execution of it is still at work.
- Each file write or removal is one step that happens or not, a SQL statement is
  one atomic step, and Herdr does not give out an ID twice.
- Go's string decoding and `json.Valid` are left uninterpreted, except that the two
  literals the editor writes, the quoted plugin name and `"plugin"`, decode to
  themselves.
- Visit IDs are 32 hexadecimal digits and fresh.
- Encoding a journal or a definition and decoding it again is the identity.

## Left out

- `RunTheorems.CommentWritten`: weaker than "each finished visit leaves exactly one comment of each kind": that fails when the marker was quoted before. With a person's comment that holds the marker it gives an alternative, since that may come before or after the check; `RunChecks.MissingIff` is exact for every run.
- `RunTheorems.ReportsOnce`: a report whose ID was first met at another visit is marked as seen there and never consumed, as the code does. The run protocol is that of one execution; another execution of the same attempt starts over.
- `RunSteps.ActsInOrder`: what comes before the start edge is one phase, and an activity is one effect but for the comments, which are a list and a write.
- `RunPaths.WalksExact`: takes the visit and report IDs as given; that fresh ones can be drawn is assumed.
- `LifecycleLive.ActiveCanComplete`: says that relay-flow can get there, not that it will: retries and polls are events that may come.
- `LifecycleTheorems.OneUnfinished`: speaks of one logical run, other runs of a workflow only make its replacement refused more often; and of rows, `LifecycleSeal.OrphanExact` says when an execution is left beside a row that is over.
- `LifecycleNotes.MarkerReason`: speaks of the reason a writer loaded; for an empty one the two writers put their own default text.
- `LifecycleTheorems.PollsStaySilent`: says nothing of a poll already under way, which `LifecycleSeal.OrphanExact` is about. Repo registration and ticket ownership checks that come before the attempt logic only make a poll do less, and are not modelled.
- `Manager.PickAttempts`: rows with an empty run ID, which the code skips as active candidates, do not occur.
- `Service.Workflows.Submit`: one workflow name; the checks of the definition, the repos and the task configuration are one answer, and the registry's other names are untouched.
- `Herdr.Adapter.EnsureTerminal`: titles and workspace IDs are not empty, one launch per title at a time, and no person gives a node's title a pane: neither by labelling one nor by splitting a pane inside a node's tab, which the code would count as the node's.
- `Herdr.Adapter.Launches`: the same.
- `Herdr.Adapter.RecoverTerminal`: an unknown workspace is one without panes; sorting the candidates is choosing the first by ID.
- `BeadsRuns.ConflictsIff`: the read and the write of one reconciliation are one step, a race the code accepts; calls still in flight after a cancellation end before the restart.
- `Beads.Tracker.ReconcileIssue`: an issue key of white space only counts as one that Beads does not know.
- `Timeline.ClosedTimelines`: statuses only; messages, durations and routes of steps are display data.
- `MergeHeap.Merge`: one kind of map object; the source's named map type behaves the same.
- `ReportRoundTrip.RoundTrip`: text is a sequence of Unicode scalars, and lower-casing is the ASCII one, which decides the status words alike.
- `Bindings.BindWorkflows`: one rebuild at a time; the registry does not change while it runs. Compiled matchers are values.
- `RunIds.ExecutionIdIff`: attempt numbers are unbounded, and attempt 0, which the code treats as 1, is not an execution of its own.
- `Retry.RetryLoop`: delays, jitter and log lines.
- `Onboarding.Home.Recover`: a marker file that cannot be decoded, which the code treats as an incomplete publication.
- `Bindings.DropWorkflow`: filters into a new sequence; the code reuses the slice's own array, which nothing else shares.
- `JsoncLexer.Tokenize`: a character stands for a byte; reading and writing the file, and the second configuration file edited the same way, are left out.
- Temporal's own report and cancel path, Jira, Orca, git and every subprocess: only the state they read and write.
- The HTTP server and client, command line, forms, logging and rendering of prompts and templates.
- Poll timers, backoff arithmetic and the router's lookup: easy next to the rest.
- `handleIdle` and `deliverReport` of the plugins, and the host callbacks around them.
- `CloseTerminals` and `CleanupRun` of the runners, `ResetForRecovery` and `EnsureMailboxes` of Beads, beyond the statuses they set.
