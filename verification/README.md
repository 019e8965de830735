# Verification model of the IronClaw agent core

IronClaw is a personal assistant: a loop that calls an LLM, runs the tools it asks for, asks its user for approval,
keeps conversations with undo, and watches its own cost. This project models seven parts of that core in Dafny and
proves what they keep over every run. LLM, tools, hooks, approval policy, workspace and the order in which
tasks finish are oracles: functions of an environment datatype or arbitrary choices, so each theorem holds for all of
their behaviours. Code that changes state step by step is modelled by methods and classes with the same branches, and
concurrent code by transition systems with one step per lock section.

| part | modules | main results |
|---|---|---|
| tool calls and approvals | `Llm`, `Protocol`, `RetryCompaction`, `ToolRound`, `Pending`, `Dispatcher`, `LoopRuns`, `Approval`, `Stories`, `LoopLaws`, `ApprovalRaces`, `Audit` | every LLM call of a turn, with any chain of approvals, parallel or lost tasks and emergency compaction, gets a well-formed context; the contracts of the loop and of a turn determine their runs; each request is for a call that no hook rejected and that needs approval; a message of n calls is asked about at most n times; a request runs at most once |
| history | `Session`, `Undo`, `ContextMonitor`, `Compaction`, `History` | thread and undo manager refine a bounded past/present/future history, each request amounting to exactly its operations; turns and messages print and parse to each other; k undos take back the last k turns, and k redos cancel them |
| registry | `Registry`, `RegistryRaces`, `RegistryKeys`, `RegistryRefines` | the exact condition for each thread a key resolves to; channel isolation and stability of keys over every run of operations; in every interleaving one session per user and only live threads mapped, and the exact lock sections that can break isolation, a key's thread or a manager |
| scheduler | `Scheduler`, `SchedulerLaws`, `SchedulerCallers` | capacity bound and no leaked slot in every interleaving; the exact steps that leave a worker untracked; the limit on running workers in every interleaving of the source's own callers |
| cost guard | `CostGuard`, `CostLaws`, `CostRuns`, `CostJump` | the price token by token, which determines it; daily and hourly bounds in every interleaving of checks and records, with the exact condition; conservation of costs |
| settings | `Json`, `Merge`, `Paths`, `SettingsTree`, `SettingsRoundTrip`, `SettingsLaws`, `Settings` | merge is a monoid; save-and-load is the identity exactly on rebuildable trees without dots in keys, for every map order |
| UTF-8 cutting | `Utf8` | both cuts find the greatest character boundary; truncated events stay valid UTF-8 |

## Where the code and what it promises part

Each of these is stated as an equivalence or with a concrete run. The model follows the code.

- Audit trail. Comments at src/agent/dispatcher.rs:642-644 and src/agent/thread_ops.rs:1023-1024 say each tool result
  is recorded. Results go to the last recorded call only, so the trail of a message is faithful exactly when the message
  has at most one call (`Audit.TrailFaithfulIffSingleCall`).
- Wrong-id answer. Alone it puts the thread back; what happens between its two lock sections survives exactly when it
  left the thread waiting and nothing pending (`ApprovalRaces.WindowSurvivesIff`, `ApprovalRaces.InterruptLost`).
- Hydration. src/agent/thread_ops.rs:30-36 promises that a later resolve finds the hydrated thread. It does exactly when
  the client sent the canonical text of the UUID (`Registry.HydrateThenResolve`).
- Pruning drops the undo manager of a surviving key exactly when that thread id also lives in a pruned session
  (`Registry.StepKeepsManaged`, with a run in `Registry.PruneTakesManager`).
- Races in `resolve_thread` and hydration. Two hydrations can make two keys share a thread, two first messages on one key
  can leave a call on a thread the key does not map, and a manager handed out early can be replaced
  (`RegistryKeys.SharingHappens`, `LostThreadHappens`, `LostManagerHappens`). The exact lock sections that do it are
  given by `RegistryRaces.StepKeepsIsolation`, `RegistryKeys.StepKeepsKeys` and `RegistryRaces.StepKeepsManagers`, and
  runs without such a section are proved safe. Schedules in which no two calls for one key overlap and no hydration is
  for a mapped key have no overwriting section (`RegistryKeys.ApartOverwritesNothing`).
- Scheduler. A cleanup task removes by job id what it read earlier, so it can evict a job that was scheduled again in
  between. A second schedule of a job succeeds only while it is stuck. The two callers of the source never meet a stuck job,
  in any interleaving, so with them the limit on running workers holds (`SchedulerCallers.NeverOnStuck`,
  `SchedulerCallers.CallersAreBounded`); one direct call of the public `schedule` on a stuck job breaks every limit
  (`SchedulerCallers.EvictionBreaksLimit`). A stopped worker runs on until its abort lands, beside the limit
  (`Scheduler.StepKeepsTracked`, `Scheduler.RunningIsBounded`).
- Rescheduling. src/agent/commands.rs:282-293 recovers a stuck job and then reschedules it. The recovery already moved
  the job to in-progress, so, whatever happens between the two, the schedule is refused unless an old entry is still in
  the map, and starts no worker (`SchedulerCallers.HelpNeverReschedules`).
- Cost guard. An amount of 2^64 cents or more reads as zero cents. The daily bound holds in every run exactly when one
  call cannot jump from below the limit over that range (`CostJump.BoundedIffNoJump`). A raised flag
  does not come down with a new day, only with an allowed call recorded on it, and `CostRuns.ReopensIff` says exactly
  when some legal run can still get there. The comment at
  src/agent/cost_guard.rs:105-106 names `record_action`; the function is `record_llm_call`.
- Settings. A stored text whose default is unset is parsed as JSON first, so "12345", "true" or "null" does not come
  back as text (`SettingsRoundTrip.UnsetTextSurvivesIffNoOtherJson`). A map key with a dot, which `wasm_channel_owner_ids`
  accepts, never comes back (`SettingsRoundTrip.DottedIsLost`).
- Undo. src/agent/undo.rs:47-49 says only checkpoint and clear change the total of both stacks; `restore` changes it
  too (`History.StepTotals`).

## Model

| member | source | states |
|---|---|---|
| Protocol.WellFormedIffAnsweredEverywhere | src/agent/dispatcher.rs:354-357 | the front-to-back reading of the tool-use rule equals the position-by-position one: every request is followed at once by one result per call, same ids and order, and no result stands elsewhere |
| Protocol.WellFormedAppend | src/agent/dispatcher.rs:354-357 | well-formed contexts concatenate |
| Protocol.WellFormedSplit | src/agent/dispatcher.rs:990-991 | a well-formed context can be cut at any message that is no tool result |
| Protocol.RoundAdvances | src/agent/dispatcher.rs:759-763 | a matching result moves an open round on by one call |
| Protocol.RoundCloses | src/agent/thread_ops.rs:846-848 | once the last call is answered the whole context is well formed again |
| RetryCompaction.CompactMessagesForRetry | src/agent/dispatcher.rs:964-1008 | the in-place loops compute the compaction the lemmas below are about |
| RetryCompaction.FindLastUser | src/agent/dispatcher.rs:969-970 | the backward search finds the last user message, if there is one |
| RetryCompaction.CompactionKeepsWellFormed | src/agent/dispatcher.rs:964-1008 | compaction never separates a tool result from its call |
| RetryCompaction.CompactionKeepsExchange | src/agent/dispatcher.rs:972-991 | the whole suffix from the last user message survives unchanged and is still the last exchange |
| RetryCompaction.CompactionKeepsSystems | src/agent/dispatcher.rs:972-991 | every system message survives once and in order, with at most one note added |
| RetryCompaction.CompactionWithoutUser | src/agent/dispatcher.rs:992-1005 | without a user message nothing is lost: first the system messages and then the others, both in order; a second compaction changes nothing |
| RetryCompaction.CompactionTwice | src/agent/dispatcher.rs:964-1008 | a second compaction changes nothing but one more note |
| ToolRound.Preflight | src/agent/dispatcher.rs:395-510 | stops at the first call that no hook rejected and whose final arguments need approval, and asks about just that; before it every rejected call keeps the hook's reason and every other one is to run with the hook's arguments, unasked |
| ToolRound.RunInParallel | src/agent/dispatcher.rs:555-621 | whatever order tasks finish in, each surviving task fills its own slot and no other |
| ToolRound.FillLost | src/agent/dispatcher.rs:623-639 | exactly the empty runnable slots get an error |
| ToolRound.Execute | src/agent/dispatcher.rs:512-639 | slots hold the results of each call run on its own, errors where tasks were lost |
| ToolRound.PostFlight | src/agent/dispatcher.rs:641-766 | one reply per slot in the original order; the auth return waits for all of them |
| ToolRound.ReplyTo | src/agent/dispatcher.rs:647-764 | one slot's result message, and the first instructions for a token so far |
| ToolRound.RunRound | src/agent/dispatcher.rs:395-790 | parallel execution with any completion order and losses equals in-order execution up to the first approval: each rejected call is answered with the hook's reason, each other one with its sanitized output or its error, none of them needed approval, and the call asked about was not rejected and does |
| ToolRound.RoundMeans | src/agent/dispatcher.rs:395-790 | the in-order reference says just that of hooks, approval policy, tools and losses, and its auth instructions are the first that any answered call yields |
| ToolRound.InOrderAnswers | src/agent/thread_ops.rs:863-1087 | the emitted results answer exactly the calls dealt with, ids in order, for fresh and deferred rounds |
| ToolRound.RoundExtends | src/agent/thread_ops.rs:846-892 | a round moves the open message on by exactly the calls it dealt with |
| ToolRound.RunnablePositionsAre | src/agent/dispatcher.rs:505-510 | the runnable list holds exactly the positions no hook rejected |
| Dispatcher.CallLlm | src/agent/dispatcher.rs:255-295 | one call, or two with the second on the compacted context, both well formed |
| Dispatcher.HandleToolCalls | src/agent/dispatcher.rs:347-790 | the tool branch closes its round or suspends it at one call with the rest deferred |
| Dispatcher.Ask | src/agent/dispatcher.rs:189-295 | the wrap-up nudge falls on its one iteration and the call sequence stays the exact trace |
| Dispatcher.React | src/agent/dispatcher.rs:320-790 | the loop goes on exactly for a due nudge (text not yet forced, tools offered, fewer than two nudges, announced intent) or a whole round without auth instructions; else the result is the text, the instructions, or the request, in this order |
| Dispatcher.Iterate | src/agent/dispatcher.rs:154-790 | one iteration keeps the call history, the nudge bound and the link between log and replies |
| Dispatcher.RunAgenticLoop | src/agent/dispatcher.rs:37-792 | every context sent is well formed; calls form the linked trace, none past an interrupt or a spent budget; the last call is that of the last iteration, or of the one before when a guard ended the run, each guard exactly when its condition held; at most max+1 iterations with two calls each; with text when forced it ends within max(1, max) iterations; never three nudges in a row; an approval suspends one message at one call |
| LoopRuns.RunIsDetermined | src/agent/dispatcher.rs:154-792 | the contract of the loop leaves nothing open: calls, result, iterations and log are the same for any two runs in the same surroundings |
| LoopRuns.NotOutlasted | src/agent/dispatcher.rs:154-187 | no run goes on past the iteration in which another one in the same surroundings ended |
| LoopRuns.CallIn | src/agent/dispatcher.rs:154-164 | every iteration up to that of the last call made one |
| Dispatcher.TraceGrows | src/agent/dispatcher.rs:255-295 | linked calls extend the trace and keep all contexts well formed |
| Dispatcher.LogGrows | src/agent/dispatcher.rs:322-351 | nudges between tool rounds never exceed two in a row |
| Dispatcher.CheckGuards | src/agent/dispatcher.rs:155-187 | the ceiling, an interrupt or the cost guard stops an iteration, in this order, and nothing else does |
| Dispatcher.ForcedText | src/agent/dispatcher.rs:145-149 | when forced text is text, no iteration from the forced one on goes on |
| LoopLaws.NudgesAreDue | src/agent/dispatcher.rs:322-351 | an iteration that the run goes on from nudged exactly when text announced an action, tools were offered, text was not yet forced and the two iterations before had not both nudged; it ran a round exactly when the reply was tool calls |
| LoopLaws.TextEndsRun | src/agent/dispatcher.rs:322-346 | a run whose last reply is text returns that text, and no nudge was due |
| LoopLaws.WrapUpComesOnce | src/agent/dispatcher.rs:189-205 | the wrap-up note is one system message before the last iteration that may use tools, and nothing else is put before a call |
| LoopLaws.ContextGrows | src/agent/dispatcher.rs:347-351 | from one iteration's call to the next the context only grows: by the LLM's own message and the nudge or the round's results, and by the note where it is due |
| LoopLaws.RoundsAreWhole | src/agent/dispatcher.rs:347-790 | a round that the loop goes on from answered every call, without auth instructions |
| LoopLaws.ToolCallsEndRun | src/agent/dispatcher.rs:741-790 | tool calls end a run with the first auth instructions, or else with a request for the first call that no hook rejected and that needs approval, on the results so far |
| Approval.ReplayTail | src/agent/thread_ops.rs:825-1139 | the context is the approved result and the tail's replies in order, up to the next approval; auth is the tail's first instructions; the further request is for exactly the next call, or the context is well formed |
| Approval.ProcessApproved | src/agent/thread_ops.rs:736-1139 | the turn ends exactly when the approved call or the tail yields auth instructions; else it asks again, strictly further on, exactly when a call of the tail needs approval; else the loop runs on exactly the replayed, well-formed context |
| LoopLaws.RunAsksAboutDue | src/agent/dispatcher.rs:439-510 | a request that a run makes is about a call that no hook rejected, with its final arguments, which need approval; all calls before it are answered and needed none |
| LoopLaws.AnswerAsksAboutDue | src/agent/thread_ops.rs:863-892 | a request that an answer leads to is about the first call of the deferred tail that needs approval, as the LLM made it |
| LoopLaws.AnswerRunsPending | src/agent/thread_ops.rs:736-860 | an approval runs exactly the call that was asked about, puts its result first and the tail's behind it, and resumes only with every call answered |
| Approval.RunTurn | src/agent/thread_ops.rs:661-1190 | the whole story of a turn: the first run starts on the initial context, each answer is given to the open request, each later run follows the answer that resumed it on its replayed context; the calls are those of the runs in order, all well formed; answers are taken until none is left or nothing is open |
| Stories.TurnIsDetermined | src/agent/thread_ops.rs:661-1190 | the surroundings, the first context and the answers determine the whole story of a turn and its LLM calls |
| Stories.NotLongerTurn | src/agent/thread_ops.rs:661-1190 | a turn that has ended, or waits without an answer, is not outlasted by another in the same surroundings |
| Approval.UserTurn | src/agent/thread_ops.rs:265-290 | the same for the messages of a thread, without any precondition |
| Approval.PrintIsWellFormed | src/agent/session.rs:320-329 | the messages of a thread are a well-formed context |
| Approval.TakeAnswer | src/agent/thread_ops.rs:661-1190 | one answer continues the story by what it leads to |
| Approval.StoryWellFormed | src/agent/thread_ops.rs:846-848 | every LLM call of every story gets a well-formed context |
| Approval.StoryFormsChain | src/agent/thread_ops.rs:1095-1105 | in every story the requests about one message suspend that message, each strictly further on |
| Approval.StoryPartition | src/agent/dispatcher.rs:774-790 | in every story the results emitted, the pending call and the deferred tail are exactly the calls of the message |
| LoopLaws.StoryAsksAboutDue | src/agent/dispatcher.rs:439-510 | in every story each request is about a call that needs approval as it will run, and that no hook rejected |
| Approval.AgainSuspended | src/agent/thread_ops.rs:866-892 | an answer that asks again suspends the same message strictly further on |
| Approval.AskedOncePerCall | src/agent/thread_ops.rs:866-892 | in every story a message is asked about at most once per call, with a strictly shorter deferred tail each time |
| Approval.SuspendedIsPartition | src/agent/dispatcher.rs:774-790 | a request that suspends a message cuts its call list into results emitted, pending call and deferred tail |
| Approval.ChainIsShort | src/agent/thread_ops.rs:866-892 | along a chain of requests the deferred tail shrinks, so n calls need at most n approvals |
| ApprovalRaces.StepKeepsOnePlace | src/agent/thread_ops.rs:670-734 | each request is pending, held by one handler, or executed, never two of these |
| ApprovalRaces.ExecutedAtMostOnce | src/agent/thread_ops.rs:670-760 | in every interleaving of answers, interrupts and new turns a request runs at most once |
| ApprovalRaces.OthersLeaveHeld | src/agent/thread_ops.rs:688-701 | no other step takes a held request from its handler |
| ApprovalRaces.AnswerTakes | src/agent/thread_ops.rs:670-701 | an answer takes the request that waits, and nothing from a thread that does not wait |
| ApprovalRaces.AnswerMeans | src/agent/thread_ops.rs:717-760 | an approval runs exactly that request, a refusal ends it unexecuted and leaves the thread idle |
| ApprovalRaces.EmptyHanded | src/agent/thread_ops.rs:670-734 | a handler without a request changes nothing |
| ApprovalRaces.AskAndInterrupt | src/agent/thread_ops.rs:581-599 | a new request waits, and an interrupt shows exactly in a thread that is processing or waiting |
| ApprovalRaces.WrongIdAnswer | src/agent/thread_ops.rs:702-715 | alone it restores the thread; with others in its window it overwrites their state and request |
| ApprovalRaces.WindowSurvivesIff | src/agent/thread_ops.rs:702-715 | what other steps did in the window survives exactly when they left the thread waiting and nothing pending |
| ApprovalRaces.RunKeepsOnePlace | src/agent/thread_ops.rs:670-734 | the one-place invariant from any state that has it |
| ApprovalRaces.InterruptLost | src/agent/thread_ops.rs:581-599 | a run from the start in which an interrupt is lost to a wrong-id answer |
| Audit.RecordCallsAppends | src/agent/dispatcher.rs:372-393 | all calls of a message are recorded, in order, before any result |
| Audit.OutcomesTouchLastOnly | src/agent/session.rs:458-470 | recorded outcomes only ever change the last recorded call |
| Audit.TrailFaithfulIffSingleCall | src/agent/dispatcher.rs:641-705 | the trail shows each call its own outcome exactly when the message has at most one call |
| Session.Thread.constructor | src/agent/session.rs:196-210 | an idle thread without turns |
| Session.Thread.StartTurn | src/agent/session.rs:243-251 | one more turn, numbered by position, thread processing |
| Session.Thread.CompleteTurn | src/agent/session.rs:254-260 | the last turn, if any, gets the response; thread idle |
| Session.Thread.FailTurn | src/agent/session.rs:263-269 | the last turn, if any, gets the error; thread idle |
| Session.Thread.Interrupt | src/agent/session.rs:303-309 | the last turn is interrupted and so is the thread |
| Session.Thread.AwaitApproval | src/agent/session.rs:272-276 | the request is stored and the thread waits |
| Session.Thread.TakePendingApproval | src/agent/session.rs:279-281 | hands the request out and leaves none |
| Session.Thread.AnswerWithWrongId | src/agent/thread_ops.rs:670-715 | an answer naming another request leaves the thread exactly as it was |
| Session.Thread.Messages | src/agent/session.rs:320-329 | prints the turns as the function the round-trip lemmas are about |
| Session.Thread.TruncateTurns | src/agent/session.rs:332-341 | the last turns, renumbered from zero, in place |
| Session.Thread.RestoreFromMessages | src/agent/session.rs:347-375 | the two-index loop is the parser the round-trip lemmas are about; thread idle |
| Session.ParsePrint | src/agent/session.rs:320-375 | restoring printed turns gives the same number of turns, the same inputs and responses, numbered in order |
| Session.PrintParse | src/agent/session.rs:347-375 | printing a restored list is the identity exactly on user messages each followed by at most one assistant message |
| Session.ParseCounts | src/agent/session.rs:347-375 | on every list each user message becomes one turn |
| Session.ParseReads | src/agent/session.rs:347-375 | on every list the turn of a user message has its text, the assistant message right behind it as response if there is one, and its number by the user messages before it |
| Session.PrintIsPrinted | src/agent/session.rs:320-329 | printing yields such a list with one user message per turn |
| Session.NormalFormIdempotent | src/agent/session.rs:347-375 | restore-then-print is an idempotent normal form |
| Session.PrintDeterminedByExchanges | src/agent/session.rs:320-329 | two threads print alike exactly when their inputs and responses agree |
| Session.PrintSplit | src/agent/session.rs:320-329 | printing distributes over concatenation of turns |
| ContextMonitor.Analyze | src/agent/context_monitor.rs:161-184 | the counters of the loop are the per-role sums and add up to the estimate |
| ContextMonitor.EstimateAppend | src/agent/context_monitor.rs:70-72 | the estimate is additive over contexts |
| ContextMonitor.TokensOfMessage | src/agent/context_monitor.rs:126-145 | what a message costs in tokens, by its words |
| ContextMonitor.WordsAdd | src/agent/context_monitor.rs:137-145 | words separated by white space add up |
| ContextMonitor.OneWord | src/agent/context_monitor.rs:137-145 | text without white space is one word |
| ContextMonitor.SuggestedBy | src/agent/context_monitor.rs:88-106 | nothing below the threshold, then truncation to 3 above 95 percent, a summary keeping 5 above 85, else the workspace |
| Compaction.Compact | src/agent/compaction.rs:47-190 | exactly a failed summary leaves the thread untouched; else a renumbered suffix of the turns remains, removed plus remaining is before, and the token total never rises |
| Compaction.CompactTruncate | src/agent/compaction.rs:135-145 | keeps the recent turns and counts the rest |
| Compaction.TruncateTwice | src/agent/session.rs:332-341 | truncating to a and then b is truncating once to the smaller |
| Compaction.RenumberPrints | src/agent/session.rs:332-341 | renumbering does not show in the messages |
| Compaction.RecentShrinks | src/agent/compaction.rs:135-145 | what remains is a suffix of the printed conversation and costs no more tokens |
| Undo.UndoManager.constructor | src/agent/undo.rs:61-74 | both stacks empty |
| Undo.UndoManager.PushUndo | src/agent/undo.rs:77-84 | the pushed checkpoint is the last one, and the stack is the end of the old one with it, as long as the limit allows |
| Undo.UndoManager.TakeCheckpoint | src/agent/undo.rs:87-105 | pushes and empties the redo stack |
| Undo.UndoManager.Undo | src/agent/undo.rs:108-128 | moves the current state to redo and hands out the last checkpoint |
| Undo.UndoManager.Redo | src/agent/undo.rs:142-160 | moves the current state to undo and hands out the next one |
| Undo.UndoManager.Clear | src/agent/undo.rs:198-201 | both stacks empty |
| Undo.UndoManager.Restore | src/agent/undo.rs:206-220 | finds the first checkpoint with the id and drops it and all later ones |
| Undo.Position | src/agent/undo.rs:206-208 | the first checkpoint with the id, or none |
| History.StepKeepsBound | src/agent/undo.rs:77-160 | undo plus redo count stays within the limit and every document is a printed one |
| History.RunKeepsBound | src/agent/undo.rs:142-160 | over every run of operations, so a redo never trims the undo stack |
| History.StepTotals | src/agent/undo.rs:47-49 | which operations change the total of both stacks, and to what |
| History.UndosThenRedos | src/agent/undo.rs:108-160 | k undos then k redos give back the same history, for every k up to the undo count |
| History.RedosThenUndos | src/agent/undo.rs:108-160 | and k redos then k undos |
| History.TurnThenUndo | src/agent/undo.rs:77-128 | a turn, answered or not, and one undo give back the messages before it, whatever the limit dropped |
| History.PastOfTurns | src/agent/undo.rs:77-105 | after any turns the undo steps lead, latest first, to before the last turn, the turn before it, and so on |
| History.TurnsThenUndos | src/agent/undo.rs:77-128 | k undos after any number of turns give back the messages before the last k of them, for every k up to the limit |
| History.StacksAgreeUpToIds | src/agent/undo.rs:18-41 | equal documents mean equal checkpoints up to ids and descriptions |
| History.Conversation.constructor | src/agent/session_manager.rs:254-273 | a new conversation is the empty history |
| History.Conversation.ProcessUndo | src/agent/thread_ops.rs:511-547 | refines one abstract undo; checkpoints keep turn number 1 + user messages |
| History.Conversation.ProcessRedo | src/agent/thread_ops.rs:549-579 | refines one abstract redo and trims nothing |
| History.Conversation.UndoAndRedo | src/agent/thread_ops.rs:511-579 | on the thread itself k undos and k redos give back the messages and, up to ids and descriptions, both stacks |
| History.Conversation.UndoTimes | src/agent/thread_ops.rs:511-547 | k undo requests refine k abstract undos |
| History.Conversation.RedoTimes | src/agent/thread_ops.rs:549-579 | k redo requests refine k abstract redos |
| History.Conversation.ProcessResume | src/agent/thread_ops.rs:1447-1470 | refines going back to the first checkpoint with the id, or nothing |
| History.Conversation.ProcessClear | src/agent/thread_ops.rs:640-658 | refines the empty history |
| History.Conversation.ProcessCompact | src/agent/thread_ops.rs:601-638 | refines keeping exactly what the suggested strategy keeps, by default the last five turns; nothing exactly when the summary fails, or nothing is suggested and it was not asked for |
| History.Conversation.ProcessUserInput | src/agent/thread_ops.rs:118-269 | refused, with the thread untouched, exactly outside idle and interrupted or when the input is blocked; else exactly the due compaction and then the new turn |
| History.Conversation.InputThenUndo | src/agent/thread_ops.rs:243-547 | an accepted input without compaction and an undo leave the thread's messages as they were |
| History.CompactMeans | src/agent/thread_ops.rs:186-240 | when a thread is compacted and to how many turns, told from token count, limit, threshold, summary and workspace |
| History.RequestsMean | src/agent/thread_ops.rs:243-658 | what each request makes of the document and of both stacks |
| History.ResumesFirst | src/agent/undo.rs:206-220 | resuming goes back to the first checkpoint with the id, and does nothing exactly when there is none |
| History.Conversation.CheckpointAndStart | src/agent/thread_ops.rs:243-269 | the checkpoint is the document before the turn |
| History.Conversation.FinishTurn | src/agent/thread_ops.rs:290-384 | a response shows in the document, an error does not |
| History.Conversation.ProcessInterrupt | src/agent/thread_ops.rs:581-599 | never shows in the document |
| History.Conversation.Serve | src/agent/thread_ops.rs:511-658 | each request amounts to exactly the operations that the moment it is served at gives it, and fixes the thread's state and the ids that can be resumed from |
| History.Conversation.Run | src/agent/thread_ops.rs:243-658 | over every sequence of requests each moment is what serving the next request made of the one before, the whole run is the abstract history's, and it stays within the bound |
| Registry.StepKeepsIsolation | src/agent/session_manager.rs:105-251 | every operation keeps: a mapping points to a live thread of its own user, and no two keys of a user share one |
| Registry.RunKeepsIsolation | src/agent/session_manager.rs:105-372 | and so does every run of operations |
| Registry.StepKeepsKey | src/agent/session_manager.rs:105-372 | an operation that does not touch a key leaves its thread |
| Registry.RunKeepsKey | src/agent/session_manager.rs:105-372 | and so does every run without a touching remove, prune or hydration |
| Registry.ResolvesToSameThread | src/agent/session_manager.rs:105-134 | resolving again after such a run gives the same thread |
| Registry.ResolvesTo | src/agent/session_manager.rs:105-190 | a key resolves to its live mapping, else to the live thread of its user that its text names and no key maps, and only else to a new one |
| Registry.NewThreadThenResolve | src/agent/session_manager.rs:136-165 | a thread the user made is found by its UUID text on a key that is not mapped yet |
| Registry.ResolveMeans | src/agent/session_manager.rs:105-190 | resolving maps the key to the result, alive for its user, and leaves every other key alone |
| Registry.ResolveLeaves | src/agent/session_manager.rs:105-190 | and every other user's session; the key's user gains the result, which becomes active exactly if it was not there |
| Registry.HydrateThenResolve | src/agent/thread_ops.rs:36-109 | a resolve after hydration finds the hydrated thread exactly for the canonical UUID text |
| Registry.StepKeepsManaged | src/agent/session_manager.rs:278-372 | every mapped thread keeps an undo manager, with the exact prune that breaks it |
| Registry.PruneTakesManager | src/agent/session_manager.rs:278-372 | from the empty manager two users hydrate one UUID, one is pruned, and the other's key has lost its manager |
| Registry.SessionManager.GetOrCreateSession | src/agent/session_manager.rs:53-99 | an existing session is kept, a missing one added |
| Registry.SessionManager.ResolveThread | src/agent/session_manager.rs:105-190 | mapped, adopted or created as `Registry.ResolvesTo` says in terms of the maps; the key then maps to the result and isolation holds |
| Registry.SessionManager.MaybeHydrateThread | src/agent/thread_ops.rs:36-109 | adds and registers the thread under the canonical key unless it is known; isolation holds |
| Registry.SessionManager.RemoveThread | src/agent/session_manager.rs:229-251 | no key and no manager keeps the thread |
| Registry.SessionManager.PruneStaleSessions | src/agent/session_manager.rs:278-372 | drops the sessions, keys and managers of the stale users; isolation holds |
| RegistryRaces.RunKeepsSessions | src/agent/session_manager.rs:53-99 | every returned session is the one in the map, in every interleaving |
| RegistryRaces.StepGrowsSessions | src/agent/session_manager.rs:53-99 | no lock section replaces a user's session |
| RegistryRaces.OneSessionPerUser | src/agent/session_manager.rs:53-99 | concurrent calls for one user return one session |
| RegistryRaces.StepKeepsManagers | src/agent/session_manager.rs:254-273 | handed-out managers stay current, except exactly when the insert after a creation replaces one in use |
| RegistryRaces.RunKeepsManagers | src/agent/session_manager.rs:254-273 | in every interleaving without such a replacement |
| RegistryRaces.OneManagerPerThread | src/agent/session_manager.rs:254-273 | concurrent calls for one thread then return one manager |
| RegistryRefines.SessionInOneGo | src/agent/session_manager.rs:53-99 | both lock sections of a session call run alone keep or make the user's session, as the whole operation does |
| RegistryRefines.ManagerInOneGo | src/agent/session_manager.rs:254-273 | both lock sections of a manager call run alone keep or make the thread's manager |
| RegistryRefines.ResolveInOneGo | src/agent/session_manager.rs:105-190 | all lock sections of a resolution run alone find, adopt or create exactly the thread of the whole operation and leave its maps |
| RegistryRefines.HydrateInOneGo | src/agent/thread_ops.rs:36-109 | the lock sections of a hydration run alone add, register and manage the thread exactly when it is not known |
| RegistryRaces.AdoptionMapsUnmapped | src/agent/session_manager.rs:136-165 | the re-check under the write lock: an adoption writes only an unmapped UUID, else goes on to create |
| RegistryRaces.StepKeepsIsolation | src/agent/session_manager.rs:136-220 | every lock section keeps channel isolation, except exactly a hydration that registers a UUID already mapped for its user |
| RegistryRaces.StepKeepsCreationsPrivate | src/agent/session_manager.rs:167-190 | a thread under creation is known to no key and no other call |
| RegistryRaces.RunKeepsIsolation | src/agent/session_manager.rs:105-220 | channel isolation in every interleaving without such a registration |
| RegistryRaces.HydrationRace | src/agent/thread_ops.rs:52-109 | two hydrations past their check end with two keys on one thread |
| RegistryRaces.HydrationRaceReachable | src/agent/thread_ops.rs:52-109 | and that state is reached from the empty manager |
| RegistryRaces.CreationRace | src/agent/session_manager.rs:167-190 | two creations for one key leave one caller on an unmapped thread |
| RegistryRaces.CreationRaceReachable | src/agent/session_manager.rs:167-190 | and that state is reached |
| RegistryRaces.ManagerRace | src/agent/session_manager.rs:180-190 | a manager handed out between mapping and insert is replaced |
| RegistryRaces.ManagerRaceReachable | src/agent/session_manager.rs:180-190 | and that state is reached |
| RegistryKeys.KeyKeptIffNotOverwritten | src/agent/session_manager.rs:136-205 | in one lock section a mapped key keeps its thread exactly when the section does not write another one to it |
| RegistryKeys.StepKeepsKeys | src/agent/session_manager.rs:105-205 | every call has the thread its key maps, except exactly after a section that overwrites a key some call has a thread for |
| RegistryKeys.RunKeepsKeys | src/agent/session_manager.rs:105-205 | and so in every interleaving without such a section |
| RegistryKeys.OneThreadPerKey | src/agent/session_manager.rs:105-190 | two calls resolved for one key then hold one thread, the mapped one |
| RegistryKeys.StepKeepsAlone | src/agent/session_manager.rs:105-205 | calls at work stay at work on unmapped keys, each on its own, when no call sets out for a key at work or hydrates a mapped one |
| RegistryKeys.ApartOverwritesNothing | src/agent/session_manager.rs:105-205 | in every schedule without overlapping calls for one key and hydrations of mapped keys no section overwrites, so every call has the thread its key maps |
| RegistryKeys.StepKeepsLive | src/agent/session_manager.rs:105-220 | every lock section maps only threads alive in the session of the key's user |
| RegistryKeys.RunKeepsLive | src/agent/session_manager.rs:105-220 | in every interleaving each mapped thread is alive in its own user's session |
| RegistryKeys.SharingHappens | src/agent/thread_ops.rs:52-109 | some interleaving from the empty manager makes two keys share a thread |
| RegistryKeys.LostThreadHappens | src/agent/session_manager.rs:167-190 | some interleaving leaves a call on a thread its key does not map |
| RegistryKeys.LostManagerHappens | src/agent/session_manager.rs:180-190 | some interleaving replaces a manager that a call was given |
| Scheduler.StepKeepsInv | src/agent/scheduler.rs:191-283 | every step keeps the capacity bound and each entry's own cleanup task |
| Scheduler.RunKeepsInv | src/agent/scheduler.rs:191-283 | and so does every interleaving |
| Scheduler.FailedScheduleUnchanged | src/agent/scheduler.rs:198-225 | a schedule changes nothing exactly when it is refused or the job is already there |
| Scheduler.TurnAdvances | src/agent/scheduler.rs:262-280 | once its worker is done, each turn of a job's cleanup task moves it on and no other step moves it back |
| Scheduler.FinishedSlotIsFreed | src/agent/scheduler.rs:259-280 | three turns of its own cleanup task free a finished job's slot in every interleaving |
| Scheduler.StepKeepsTracked | src/agent/scheduler.rs:262-280 | every running worker stays in the map, except exactly after a stop of it or the eviction of a newer entry by an older cleanup task |
| Scheduler.StepKeepsTrackedOrStopping | src/agent/scheduler.rs:525-541 | stopped workers aside, exactly after such an eviction |
| Scheduler.RunKeepsTracked | src/agent/scheduler.rs:191-283 | in every interleaving without an eviction each running worker has its entry or is being stopped |
| Scheduler.RunningIsBounded | src/agent/scheduler.rs:205-209 | then no more workers run than the limit and those being stopped |
| SchedulerLaws.MovesByTarget | src/context/state.rs:38-55 | which states lead to each state; exactly three lead nowhere |
| SchedulerLaws.ScheduleOutcome | src/agent/scheduler.rs:196-223 | a free slot and a pending or stuck job are all a schedule takes, and a full map is reported before a job that cannot start |
| SchedulerLaws.ScheduleStarts | src/agent/scheduler.rs:196-256 | it starts this job on this handle, in progress, with its cleanup task to be spawned, and changes nothing else |
| SchedulerLaws.CallerSchedules | src/agent/scheduler.rs:150-184 | a caller's schedule is the direct one, after which the call has nothing left to do |
| SchedulerLaws.DispatchCreates | src/agent/scheduler.rs:150-184 | a dispatch creates a pending job that its call is about to schedule |
| SchedulerLaws.HelpRecovers | src/agent/commands.rs:273-293 | a help request recovers a stuck job and nothing else |
| SchedulerLaws.MoveHappens | src/context/state.rs:38-55 | a legal move of a job happens, an illegal one does not |
| SchedulerLaws.WorkerMarksStuck | src/context/state.rs:38-55 | the running worker of a job in progress can mark it stuck |
| SchedulerLaws.PollDecides | src/agent/scheduler.rs:259-277 | a polling task goes on to its remove exactly when its job has no entry or a finished worker |
| SchedulerLaws.StoppedTaskEnds | src/agent/scheduler.rs:259-277 | the cleanup task of a stopped job ends by itself and touches no entry |
| SchedulerLaws.StopMeans | src/agent/scheduler.rs:525-579 | a stop takes the job's own entry out, aborts its own worker, and cancels the job exactly if it was pending, in progress or stuck |
| SchedulerLaws.RemovalMeans | src/agent/scheduler.rs:620-655 | the remove takes out whatever entry its job has by then, the sweep exactly the finished entries |
| SchedulerCallers.StepKeepsDiscipline | src/agent/scheduler.rs:211-225 | with the two callers alone each job has at most one worker, a stuck job was marked by it, and no schedule meets a stuck job |
| SchedulerCallers.NotMarkedAgain | src/agent/worker.rs:1207-1215 | the worker of a job that a call is about to schedule has marked it already |
| SchedulerCallers.NeverOnStuck | src/agent/commands.rs:282-293 | no schedule of the two callers meets a stuck job, in any interleaving |
| SchedulerCallers.StepKeepsOneHandle | src/agent/scheduler.rs:259-280 | so an entry is always that of its job's one worker, and no cleanup task evicts a live one |
| SchedulerCallers.CallersAreBounded | src/agent/scheduler.rs:205-209 | so no more workers than the limit run, stopped ones aside, in every interleaving |
| SchedulerCallers.HelpNeverReschedules | src/agent/commands.rs:282-293 | whatever happens between the recovery and the schedule of a help request, the schedule starts nothing, and succeeds exactly where an old entry is there |
| SchedulerCallers.EvictionBreaksLimit | src/agent/scheduler.rs:186-283 | for every limit a run with one direct schedule of a stuck job in which one worker more than the limit runs, none being stopped |
| Scheduler.Scheduler.ScheduleWithContext | src/agent/scheduler.rs:191-283 | check, transition and insert as one step; an error leaves all state unchanged |
| Scheduler.Scheduler.PollRead | src/agent/scheduler.rs:264-270 | the cleanup task decides to remove exactly when its job has no entry or a finished worker |
| Scheduler.Scheduler.PollRemove | src/agent/scheduler.rs:272-275 | the later remove drops whatever entry the job id has by then |
| Scheduler.Scheduler.StopJob | src/agent/scheduler.rs:525-577 | the entry leaves, its worker is told to abort but may still run, and the job is cancelled if it may be |
| Scheduler.Scheduler.RemoveFinished | src/agent/scheduler.rs:620-637 | collect-then-remove drops exactly the finished entries |
| Scheduler.WithoutFinished | src/agent/scheduler.rs:622-636 | the collecting and removing loops leave exactly the unfinished entries |
| Scheduler.Scheduler.StopAll | src/agent/scheduler.rs:657-662 | every job of the snapshot is stopped, each worker once |
| CostGuard.CentsTestIsExact | src/agent/cost_guard.rs:277-280 | truncated cents reach the limit exactly when the amount does, up to 2^64 cents where the conversion gives zero |
| CostGuard.DrainedIsUnexpired | src/agent/cost_guard.rs:132-139 | draining the front of a sorted window removes exactly the expired entries |
| CostGuard.CostNonNegative | src/agent/cost_guard.rs:174-193 | non-negative rates give non-negative costs |
| CostGuard.CacheIsCheaperIff | src/agent/cost_guard.rs:177-193 | a cache makes a call cheaper exactly when the surcharge on its writes stays below the discount on its reads |
| CostLaws.NoTokensNoCost | src/agent/cost_guard.rs:174-193 | no tokens cost nothing |
| CostLaws.OutputPrice | src/agent/cost_guard.rs:190-193 | n output tokens more cost n times the output rate more |
| CostLaws.InputPrice | src/agent/cost_guard.rs:178-193 | one input token more costs the input rate if no cache accounts for it, else nothing |
| CostLaws.CacheReadPrice | src/agent/cost_guard.rs:178-193 | one token more read from the cache costs the input rate over the discount, a zero discount counting as one, less the input rate while there is an uncached token it replaces |
| CostLaws.CacheWritePrice | src/agent/cost_guard.rs:178-193 | one token more written to the cache costs the input rate times the multiplier, less the input rate while there is an uncached token it replaces |
| CostLaws.CostPricesTokens | src/agent/cost_guard.rs:174-193 | these laws hold on every usage |
| CostLaws.PriceIsDetermined | src/agent/cost_guard.rs:174-193 | and at most one price obeys them on 32-bit usages |
| CostLaws.CentsFit | src/agent/cost_guard.rs:277-280 | cents are as many whole cents as fit, up to 2^64, and zero for any other amount |
| CostLaws.UnexpiredMeans | src/agent/cost_guard.rs:133-136 | the window keeps exactly what is at most 3600 seconds old, as often as it was there |
| CostLaws.CheckMeans | src/agent/cost_guard.rs:107-149 | a call passes exactly when the flag is down, the budget is not reached and fewer actions than the limit are unexpired; which error else, and what is left behind |
| CostLaws.RecordMeans | src/agent/cost_guard.rs:195-243 | a record starts a new day from zero with the flag down, raises the flag exactly when the budget is reached, and adds to its own model's entry alone |
| CostLaws.TokensConserved | src/agent/cost_guard.rs:236-243 | over any records each model's input tokens, output tokens and cost grow by the sums over its own records |
| CostLaws.SpentOnOneDay | src/agent/cost_guard.rs:246-256 | records of one day are all spent on that day and nothing on any other |
| CostGuard.LastReset | src/agent/cost_guard.rs:198-204 | the last record on which the day changed |
| CostGuard.TotalSinceReset | src/agent/cost_guard.rs:195-205 | over any records the daily total is the sum of the costs since the last reset |
| CostGuard.RecordAddsToModels | src/agent/cost_guard.rs:237-244 | a record adds its cost to the sum over all models |
| CostGuard.ModelCostsConserved | src/agent/cost_guard.rs:237-246 | per-model costs sum to the costs of all calls ever recorded |
| CostGuard.CostGuard.constructor | src/agent/cost_guard.rs:90-101 | nothing spent, nothing blocked |
| CostGuard.CostGuard.Drain | src/agent/cost_guard.rs:132-136 | the loop drops expired entries from the front |
| CostGuard.CostGuard.CheckAllowed | src/agent/cost_guard.rs:107-149 | flag, budget and rate in this order, with their errors and side effects |
| CostGuard.CostGuard.RecordLlmCall | src/agent/cost_guard.rs:163-243 | the cost, priced as the laws of the tokens in `CostLaws` determine it, goes to the daily total, the window, the flag and the model's entry as `CostLaws.RecordMeans` says, and to the log; the per-model costs still sum to all costs |
| CostGuard.CostGuard.DailySpend | src/agent/cost_guard.rs:250-258 | the costs recorded today since the last other day, and with dates in order all costs recorded today |
| CostGuard.DayCostsAreSpentOn | src/agent/cost_guard.rs:195-205 | with dates in order the records since the last reset are all records of the day |
| CostGuard.CostGuard.ActionsThisHour | src/agent/cost_guard.rs:261-268 | counts exactly the unexpired actions |
| CostRuns.RecordSection | src/agent/cost_guard.rs:195-227 | one record keeps: an open guard has spent less than the limit |
| CostRuns.StepKeepsDaily | src/agent/cost_guard.rs:107-235 | each lock section keeps total plus outstanding worth below the limit plus k calls |
| CostRuns.DailyTotalBounded | src/agent/cost_guard.rs:107-235 | in every interleaving the daily total stays below limit + k*C, with truncation and day changes; zero under a zero limit |
| CostRuns.StepKeepsHourly | src/agent/cost_guard.rs:130-146 | each section keeps the window sorted and within limit + k - 1 with the outstanding calls |
| CostRuns.ActionsBounded | src/agent/cost_guard.rs:130-146 | at any moment at most limit + k - 1 actions are unexpired |
| CostRuns.StepOpensIff | src/agent/cost_guard.rs:195-212 | a raised flag comes down in a step exactly when an allowed call is recorded on another day with cents below the limit |
| CostRuns.ReopensIff | src/agent/cost_guard.rs:107-212 | some legal run, with a clock that never goes back and at most k calls outstanding, brings a raised flag down exactly when the limit is not zero and a call is past its check or can still pass it |
| CostRuns.ClosedForever | src/agent/cost_guard.rs:107-116 | with no call under way the guard stays closed on every later day and its total unchanged |
| CostRuns.CheckInOneGo | src/agent/cost_guard.rs:107-149 | the three sections of a check run together are the check |
| CostRuns.RecordInOneGo | src/agent/cost_guard.rs:195-235 | the two sections of a record run together are the record |
| CostJump.JumpRun | src/agent/cost_guard.rs:277-280 | a run of single calls that all pass beyond 2^64 cents |
| CostJump.BoundedIffNoJump | src/agent/cost_guard.rs:107-280 | the daily bound holds in every run exactly when limit + 100*C stays within 2^64 cents |
| Merge.MergeDefaults | src/settings.rs:724-749 | merging the defaults changes nothing, on all trees |
| Merge.MergeSelf | src/settings.rs:935-961 | merging a tree into itself changes nothing |
| Merge.MergeIdempotent | src/settings.rs:935-961 | merging twice is merging once, on all trees |
| Merge.SetStaysSet | src/settings.rs:724-729 | a value that differs from the default never falls back to it |
| Merge.DefaultsAreLeftIdentity | src/settings.rs:935-961 | the defaults are a left identity exactly on trees that cover them |
| Merge.MergeConforms | src/settings.rs:730-749 | the settings' shape is kept |
| Merge.MergeAssociative | src/settings.rs:935-961 | merging is associative on trees of the settings' shape |
| Merge.MergePrefersOther | src/settings.rs:724-729 | at every position the overlay wins where it is set, else the base |
| Merge.OverlayWins | src/settings.rs:724-729 | a position that the overlay sets to something other than the default takes its value, any other keeps the base's |
| Merge.DefaultsConform | src/settings.rs:730-749 | the defaults have the settings' shape |
| Merge.LeavesAreSlots | src/settings.rs:935-961 | and each of their leaves is such a position |
| Merge.FreshThenStored | src/settings.rs:1286-1327 | load the database, apply step 1 again: step 1, then database, at every position |
| Merge.NothingSetIsDefault | src/settings.rs:724-729 | and the default where neither is set |
| Merge.MergeInto | src/settings.rs:935-961 | the loop in any key order computes the merge |
| Paths.SplitJoin | src/settings.rs:777-780 | keys come back from their dotted path, so paths are injective |
| Paths.JoinSplit | src/settings.rs:777-780 | every string is the path of its split |
| Paths.PathTextIsJoin | src/settings.rs:882-886 | the prefix rule of the flattening builds the joined path, whatever the keys hold, unless the first one is empty |
| Paths.SplitIsLonger | src/settings.rs:777 | dots inside keys only add parts to the split |
| Paths.SplitIsDotFree | src/settings.rs:777 | no part of a split holds a dot |
| SettingsTree.SetThenGet | src/settings.rs:773-847 | a set value is read back at its path |
| SettingsTree.SetFrame | src/settings.rs:773-847 | positions not on the path's line keep their values |
| SettingsTree.SetsCommute | src/settings.rs:773-847 | sets at positions not on one line commute, errors included |
| SettingsRoundTrip.LeafPathsAreLeaves | src/settings.rs:874-894 | every value that is no object is among the leaf paths |
| SettingsRoundTrip.LeafPathsExtend | src/settings.rs:874-894 | and every leaf path leads to such a value |
| SettingsRoundTrip.LeafPathsPrefixFree | src/settings.rs:874-894 | no leaf path is a prefix of another |
| SettingsRoundTrip.ApplyLaysOver | src/settings.rs:617-641 | applying one leaf's entry lays exactly that leaf over the tree |
| SettingsRoundTrip.AnyOrder | src/settings.rs:608-645 | whatever the order, the entries so far lie over the defaults |
| SettingsRoundTrip.OverlayAll | src/settings.rs:608-645 | all leaves laid over give the original exactly on rebuildable trees |
| SettingsRoundTrip.DottedIsLost | src/settings.rs:608-657 | a tree with a dot in any key, colliding texts included, is not rebuilt by any order |
| SettingsRoundTrip.RebuildsIffRebuildable | src/settings.rs:608-657 | rebuilding from the flat map is the identity exactly on trees without dots in keys that are rebuildable, in every order |
| SettingsRoundTrip.UnsetTextSurvivesIffNoOtherJson | src/settings.rs:824-828 | text over an unset default comes back exactly when it is not JSON for something else |
| SettingsRoundTrip.TextOverTextSurvives | src/settings.rs:833 | text over a text default always comes back, and so does an option left unset |
| SettingsLaws.ReadMeans | src/settings.rs:795-841 | a text is read as a value exactly of the kind it replaces, as that kind's parser has it, and fails exactly when that parser does |
| SettingsLaws.SameKindSurvives | src/settings.rs:797-841 | over a default of the same kind every boolean, number, array and text comes back whose own text its parser reads back |
| SettingsLaws.UnsetSurvives | src/settings.rs:824-840 | so does every value that is no text over an unset option or a missing key, if its JSON reads as itself |
| SettingsLaws.IntegersSurvive | src/settings.rs:803-815 | an unsigned value comes back over a negative default, but a negative value is lost over an unsigned one |
| SettingsLaws.UnsetIsLost | src/settings.rs:622 | an unset option comes back exactly when its default is unset, since null is not stored |
| SettingsLaws.ShapeIsRebuildable | src/settings.rs:608-657 | every tree of the defaults' shape whose leaves read back is rebuildable |
| Settings.CollectSettings | src/settings.rs:874-894 | the recursive loop in any key order stores exactly the texts of the leaves, each with the value of a leaf of that text, for any keys |
| Settings.Settings.Get | src/settings.rs:752-770 | the text at the path, or nothing |
| Settings.WalkToParent | src/settings.rs:783-793 | finds the value at the parent path exactly when there is one, with all objects on the way |
| Settings.SetPathByParent | src/settings.rs:773-847 | the recursive set is the walk to the parent, the read, the insert and the way back |
| Settings.SetFails | src/settings.rs:783-841 | a set fails for a missing path exactly when nothing is at the parent, for its parent exactly when that is no object, and for its value exactly when the old value's kind cannot be read from the text |
| Settings.SetStores | src/settings.rs:795-847 | under an object it stores what the text reads as, in the form the settings give it, unless they refuse it |
| Settings.Settings.Set | src/settings.rs:773-847 | the error is exactly that of `Settings.SetFails`, and an error changes nothing; on success the value that the text reads as by `SettingsLaws.ReadMeans`, as admitted, is read back at the path, and off the path's line every position keeps its value |
| Settings.Settings.MergeFrom | src/settings.rs:730-749 | the merge; doing it again changes nothing; the defaults change nothing |
| Settings.Settings.ToDbMap | src/settings.rs:648-657 | one entry per text of a leaf, with the value of such a leaf, for any keys |
| Settings.Settings.FromDbMap | src/settings.rs:608-645 | the defaults with every entry applied once in some order |
| Settings.Settings.SaveAndLoad | src/settings.rs:608-657 | saving and loading gives back the tree exactly when no key holds a dot and it is rebuildable; so every tree of the defaults' shape without dots in keys |
| Utf8.BoundaryByByte | src/tracing_fmt.rs:88-99 | a position in valid text is a boundary exactly when it is the end or holds no continuation byte |
| Utf8.EncodesIffScalar | src/tracing_fmt.rs:88-99 | a code point up to 21 bits is encoded as a well-formed character exactly when it is no surrogate and at most U+10FFFF (section 3 of RFC 3629), and decodes to itself |
| Utf8.CharIsEncoding | src/tracing_fmt.rs:88-99 | every well-formed character is the encoding of the one code point it stands for |
| Utf8.BoundaryWithinThree | src/tracing_fmt.rs:88-99 | a boundary is at most three bytes back |
| Utf8.CutIsValid | src/tracing_fmt.rs:108-114 | cutting at a boundary leaves valid UTF-8 on both sides |
| Utf8.StopsAtFloor | src/tracing_fmt.rs:93-99 | where the backward walk stops is the greatest boundary |
| Utf8.Utf8Floor | src/tracing_fmt.rs:93-99 | greatest boundary not above the position, at most three bytes lower, valid prefix |
| Utf8.FloorCharBoundary | src/util.rs:8-17 | the same greatest boundary inside the text, the end beyond it |
| Utf8.FloorIsUnique | src/util.rs:8-17 | so the two cuts agree inside the text |
| Utf8.TrimIsValid | src/tracing_fmt.rs:117-124 | dropping the trailing newline keeps the text valid |
| Utf8.TrimmedMeans | src/tracing_fmt.rs:117-124 | one newline at the end goes, and nothing else |
| Utf8.DigitsRead | src/tracing_fmt.rs:114 | the digits read as the number, without a leading zero |
| Utf8.SuffixReads | src/tracing_fmt.rs:114 | the suffix is three dots, a bracket, the number of bytes, "B total]" and a newline |
| Utf8.EventBuffer.Write | src/tracing_fmt.rs:77-86 | appends all of the data and keeps valid text valid |
| Utf8.EventBuffer.Drop | src/tracing_fmt.rs:103-145 | short events unchanged; long ones cut at the floor, trimmed and suffixed; the output is valid UTF-8 |

## Left out

- Channels, status updates, SSE, the web gateway, the REPL and logging: no effect on the modelled state.
- Database, workspace, secrets and credential calls: only success or failure, as an oracle.
- Message texts, prompts, argument redaction and display fields: messages are role, ids, calls and opaque content; fixed texts such as the nudges, the compaction note and hook error prefixes are abridged.
- The safety layer (whether it blocks an input is a parameter), command parsing (src/agent/submission.rs, src/agent/router.rs) and the auth-token flow beyond the early return it causes.
- Timestamps and the idle clock: which sessions are stale is a parameter of pruning, and none of them is locked while it is pruned.
- Turns, checkpoints and JSON trees are values: the source owns them through one reference, so aliasing is not captured.
- `Registry`: sessions are values; that callers share one object is the subject of `RegistryRaces`, where sessions and managers have identities.
- `RegistryRaces`: removal and pruning are not interleaved there; `Registry` covers them as whole operations.
- Uniqueness of thread ids across users: two users can hydrate one UUID, so isolation is stated per user.
- Deadlock freedom: undo locks the manager before the session, user input the session before the manager.
- ApprovalRaces.ExecutedAtMostOnce: counts the execution of a request, not what the executed tool does.
- `ApprovalRaces` gives the effects of undo, clear and resume on a thread's state as one reset step.
- src/agent/session.rs:106-115 and src/agent/thread_ops.rs:1426-1445 (switching threads): only the active-thread pointer changes.
- The scheduler's subtask map, `spawn_subtask` and `spawn_batch`: the same cleanup scheme without a capacity bound, and results collected by position.
- Job contexts: only the job state and its legal transitions are modelled; only its running worker marks a job stuck, once, and any other legal move may happen at any time.
- Scheduler.Scheduler.StopAll: states the effect of the call run alone; interleaved with others it is a series of stop steps.
- Context monitor ratios are exact fractions rounded down instead of floating point, and words are separated by ASCII white space.
- Cost amounts are exact reals: no rounding and no range limit of the decimal type; token counters do not wrap.
- CostRuns.DailyTotalBounded: the flag is read and written in one global order, not with relaxed atomics.
- Settings.Settings.MergeFrom: deserialising the merged tree is taken to succeed and to give that tree back.
- SettingsRoundTrip.RebuildsIffRebuildable: the fields of the settings struct have names, so the root has no empty key, and the defaults have no key with a dot.
- SettingsTree.SetPath: deserialisation is judged by path and inserted value, since the fields of the settings type are read independently.
- Settings loading from files, TOML, `reset` and `list`: file access and a second flattening of the same shape.
- src/agent/routine_engine.rs: its counter is raised inside the spawned task, so its limit is no invariant.
