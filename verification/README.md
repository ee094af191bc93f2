# Verified model of the agent runtime

This project models the parts of the agent runtime whose correctness is not visible from one function: the event
protocol of a turn, the streaming decoders, the session store and its history, and four self-contained algorithms.
It proves properties of these models with Dafny 4.11. `dafny verify dfyconfig.toml` checks everything.

## The turn

`Integrity` is the state machine over turn, text and tool phases, `Bus` the queues, `Emitter` the class around both:
every call publishes and moves on, or leaves the emitter as it was. `TurnGrammar` defines the words a turn may publish
without reference to the emitter and proves that the emitter publishes exactly these words. `Projection` is the
consumer at the other end of the queue, `Delivery` joins emitter, bus and consumer over whole runs. `ModelProjection`
turns a model stream into events, `ToolIds` names the tool calls of a turn, `TurnSteps` are the steps of a running turn,
`Calls` takes one call from its request to its result, `RoundReading` reads a stream, `Actions` offers its calls to the
host, `AgentLoop` runs the rounds, `TurnService` the whole turn, and its commit to the store that other callers use
meanwhile. `Compaction` and `BuildPrompt` choose the turns that survive.

The model stream, the tools, the permissions, the actions and the cancellation belong to the host (`Hosts`). Its
answers are arbitrary, and it remembers what it was asked and what it answered. `Conduct` is the law of one call: what
may be published, asked and recorded, given the host's answers about it, whatever the loop does. `Ledger` is the
balance of a turn: what the model was shown, what it said and called for, against what the client sees and the history
keeps; and the reason of every error. `AgentLoop.Run` obeys both.

The client may leave before any step of the loop (`ModelProjection.Wait`) and does not come back. A step is then
refused, and the turn ends with an error that cannot be published any more. While the client listens, no step is
refused except the result of an abandoned call (`agent_loop.rs:285-303`, `integrity.rs:272`), which ends the turn with
`turn_failed`.

## The streams

`Utf8` and `Frames` decode bytes into frame events; what a line means is an arbitrary stateful step. `SnapshotDelta`
follows the accepted text over all attempts of a turn. `Reasoning` and `Protocol` recognise markers in the text.
Both are stated for any set of markers with the few properties the proofs need, and the markers of the program are
shown to have them.

## The sessions

`Text`, `Numerals`, `Json`, `History` and `HistoryRecovery` are the two views of a conversation and what is recovered
from the text form, `HistoryDialects` the text forms of older sessions. `Store` is a write-through cache over atomic
files with a lock file for each turn, `BusyLock` the text of such a file and its judgement, `LockFiles` the acquiring
of locks on these texts, `SessionList` the listing. A world in `Store` is the store together with the turns that
callers hold; runs are sequences of operations in which writing may fail anywhere.

## The algorithms

`Calendar` (dates and time stamps), `Glob` (globs compiled to regular expressions), `Shell` (commands and their
normal form).

## Where the code does not do what one would expect

Each of these is stated with the exact condition under which the code is right. Where a single value shows the
failure, a lemma with that value stands beside the condition.

- A suffix withheld when reasoning detection ends comes out after the later text: `Reasoning.TextIsKeptExactlyWhen`,
  `Reasoning.AngleBracketComesLast`.
- A plain text whose end begins a marker loses that end at the final flush:
  `Protocol.ProgramShowsPlainInputExactlyWhen`, `Protocol.TrailingBracketIsLost`.
- A byte stream with more than one malformed sequence is decoded differently in different chunks:
  `Utf8.ChunksDoNotMatterExactlyWhen`, `Utf8.NonEmptyChunksDoNotMatterExactlyWhen`,
  `Utf8.SecondMalformedDependsOnChunks`.
- No single event shows the marker of a tool result, but a marker cut at a chunk boundary comes out in pieces:
  `Protocol.CutResultShowsExactlyWhen`, `Protocol.ResultCutInTwoIsShown`.
- A call in front of the marker of a result, in the same piece of text, is shown as text:
  `Protocol.CallBeforeResultIsShown`.
- A result line that does not name its call counts as a success even if it states a failure, and the results of two
  calls of one tool are taken for each other's: `HistoryDialects.NamelessResultLineReads`,
  `HistoryDialects.FailureIsReadAsSuccess`, `HistoryDialects.NamelessResultsAreSwapped`.
- An entry pushed after a tuple hides the tuple from readers until the next commit:
  `HistoryRecovery.VisibleIsCompleteWhen`, `HistoryRecovery.EntryHidesEarlierTuple`. A fence line that is not completed
  swallows two lines: `HistoryRecovery.AssistantTextSurvives`, `HistoryRecovery.OpenFenceLosesLines`. A tool call whose
  arguments use up the nesting limit is written and cannot be read: `HistoryRecovery.ToolCallComesBack`.
- Closing or deleting a session while one of its turns is outstanding breaks the exclusion of its turns, until all of
  them have ended: `Store.ExclusiveExactlyWhenSettled`, `Store.CloseIsSafeExactlyWhen`, `Store.DeleteIsSafeExactlyWhen`,
  `Store.ClosingLetsAnOldTurnCommit`.
- Where the start time of a process cannot be read, its locks count as stale at once:
  `BusyLock.OwnLockHoldsExactlyWhen`, `LockFiles.SecondAcquireIsBusyExactlyWhen`.
- The end of a line separates commands only if something other than white space follows, but the lexer itself knows
  three blanks only: a line of another white space becomes an argument of the command before it: `Shell.LineEndMeans`,
  `Shell.BlankLineBecomesArgument`.
- A shell command does not come back from its normal form if a word needs quotes: `Shell.ComesBackExactlyWhenPlain`.
- `**` is documented to match anything, but the compiled dot does not match a newline:
  `Glob.MeaningIsPreservedExactlyWithoutDoubleStar`, `Glob.DoubleStarAlone`.
- Time stamps sort in the order of time only up to the year 9999: `Calendar.StampWidth`,
  `Calendar.YearTenThousandSortsFirst`.
- A turn that never began cannot be given a terminal event: `TurnService.RunStarted` says when this happens.

## Model

| member | source | states |
|---|---|---|
| `Integrity.TurnIntegrity.TurnStarted` | `crates/agent-runtime/src/events/integrity.rs:100-109` | accepted exactly in the phase before the turn; a refused call changes nothing |
| `Integrity.TurnIntegrity.AssistantStarted` | `crates/agent-runtime/src/events/integrity.rs:110-124` | accepted exactly in an active turn with no text scope open; it counts as work |
| `Integrity.TurnIntegrity.AssistantDelta` | `crates/agent-runtime/src/events/integrity.rs:125-139` | accepted exactly while the assistant speaks and is not thinking |
| `Integrity.TurnIntegrity.AssistantCompleted` | `crates/agent-runtime/src/events/integrity.rs:140-155` | closes the assistant scope, only when thinking is over |
| `Integrity.TurnIntegrity.AssistantYieldsToAction` | `crates/agent-runtime/src/events/integrity.rs:156-171` | closes the assistant scope in favour of a tool call |
| `Integrity.TurnIntegrity.ThinkingStarted` | `crates/agent-runtime/src/events/integrity.rs:172-185` | opens thinking inside an assistant scope only |
| `Integrity.TurnIntegrity.ThinkingDelta` | `crates/agent-runtime/src/events/integrity.rs:186-195` | accepted exactly while thinking |
| `Integrity.TurnIntegrity.ThinkingCompleted` | `crates/agent-runtime/src/events/integrity.rs:196-206` | closes thinking and nothing else |
| `Integrity.TurnIntegrity.ToolCallRequested` | `crates/agent-runtime/src/events/integrity.rs:207-228` | accepts a new non-empty identity, outside text scopes |
| `Integrity.TurnIntegrity.PermissionRequested` | `crates/agent-runtime/src/events/integrity.rs:229-244` | accepts only a tool that was just requested |
| `Integrity.TurnIntegrity.ToolExecutionStarted` | `crates/agent-runtime/src/events/integrity.rs:245-260` | accepts a requested tool or one whose permission was asked for |
| `Integrity.TurnIntegrity.ToolResultReceived` | `crates/agent-runtime/src/events/integrity.rs:261-283` | accepts an executing tool or one whose permission was asked for, never a merely requested one |
| `Integrity.TurnIntegrity.AbortOpenTools` | `crates/agent-runtime/src/events/integrity.rs:284-304` | closes every open tool for the given reason, whatever the order in which the loop meets them, and no other tool |
| `Integrity.TurnIntegrity.FinishTerminalAfterScopes` | `crates/agent-runtime/src/events/integrity.rs:313-331` | accepted exactly with no scope and no tool open, and completion only after some work |
| `Emitter.EmitKeepsSound` | `crates/agent-runtime/src/events/emitter.rs:36-551` | every call, accepted or refused, keeps identities, bindings, integrity phases and numbering in agreement |
| `Emitter.TurnEventEmitter.Publish` | `crates/agent-runtime/src/events/emitter.rs:104-128` | what reaches the bus and whether the event counts as published, for mandatory and optional transports |
| `Emitter.TurnEventEmitter.BindToolIdentity` | `crates/agent-runtime/src/events/emitter.rs:130-143` | an identity is bound at most once in a turn |
| `Emitter.TurnEventEmitter.EnsureTurnStarted` | `crates/agent-runtime/src/events/emitter.rs:66-73` | starts a turn that has not begun, otherwise only tells whether it is active |
| `Emitter.TurnEventEmitter.TurnStarted` | `crates/agent-runtime/src/events/emitter.rs:157-178` | publishes and moves on, or leaves the emitter exactly as it was |
| `Emitter.TurnEventEmitter.AssistantStarted` | `crates/agent-runtime/src/events/emitter.rs:179-200` | the same for the start of the assistant scope |
| `Emitter.TurnEventEmitter.AssistantDelta` | `crates/agent-runtime/src/events/emitter.rs:201-220` | the same for assistant text |
| `Emitter.TurnEventEmitter.AssistantCompleted` | `crates/agent-runtime/src/events/emitter.rs:221-242` | the same for the end of the assistant scope |
| `Emitter.TurnEventEmitter.AssistantYieldsToAction` | `crates/agent-runtime/src/events/emitter.rs:243-255` | closes the scope without publishing anything or using a number |
| `Emitter.TurnEventEmitter.ThinkingStarted` | `crates/agent-runtime/src/events/emitter.rs:256-277` | the same for the start of thinking |
| `Emitter.TurnEventEmitter.ThinkingDelta` | `crates/agent-runtime/src/events/emitter.rs:278-297` | the same for thinking text |
| `Emitter.TurnEventEmitter.ThinkingCompleted` | `crates/agent-runtime/src/events/emitter.rs:298-319` | the same for the end of thinking |
| `Emitter.TurnEventEmitter.ReserveTool` | `crates/agent-runtime/src/events/emitter.rs:328-350` | a refused reservation leaves no trace of the identity |
| `Emitter.TurnEventEmitter.ToolCallRequested` | `crates/agent-runtime/src/events/emitter.rs:320-371` | the identity is bound only if the request was published |
| `Emitter.TurnEventEmitter.PermissionRequested` | `crates/agent-runtime/src/events/emitter.rs:372-403` | permission is asked only for a bound identity |
| `Emitter.TurnEventEmitter.ToolExecutionStarted` | `crates/agent-runtime/src/events/emitter.rs:404-444` | execution starts only for a bound identity |
| `Emitter.TurnEventEmitter.ToolResultReceived` | `crates/agent-runtime/src/events/emitter.rs:445-491` | a published result releases the binding, the identity stays used |
| `Emitter.TurnEventEmitter.TerminalCandidate` | `crates/agent-runtime/src/events/emitter.rs:493-529` | the state after a terminal event is computed on a copy, with open scopes closed unless the turn completed |
| `Emitter.TurnEventEmitter.FinishTerminal` | `crates/agent-runtime/src/events/emitter.rs:493-551` | a terminal event closes the turn, or leaves everything as it was |
| `Bus.EventBus.PublishTurn` | `crates/agent-runtime/src/events/bus.rs:61-93` | appends to the queue of the turn, or drops a sender whose receiver is gone |
| `Bus.EventBus.SubscribeTurn` | `crates/agent-runtime/src/events/bus.rs:108-113` | a new queue replaces the old sender of the turn |
| `Bus.EventBus.CloseTurn` | `crates/agent-runtime/src/events/bus.rs:115-118` | removes the sender and keeps what was delivered |
| `Bus.PublishReachesOwnQueueOnly` | `crates/agent-runtime/src/events/bus.rs:61-119` | a publish appends to the queue of its own turn and touches no other |
| `TurnGrammar.EmitterPublishesTurnWords` | `crates/agent-runtime/src/events/emitter.rs:130-551` | every sequence of calls over any transport behaviour publishes a word of the turn grammar |
| `TurnGrammar.TurnWordsArePublished` | `crates/agent-runtime/src/events/integrity.rs:100-340` | every word of the grammar is published by some sequence of calls |
| `TurnGrammar.EmitterLanguageIsTurnGrammar` | `crates/agent-runtime/src/events/emitter.rs:130-551` | the published words are exactly the words of the grammar |
| `TurnGrammar.TurnIsFramed` | `crates/agent-runtime/src/events/integrity.rs:100-340` | TurnStarted is the first event and only the first; a terminal event is the last one |
| `TurnGrammar.RequestIsFirst` | `crates/agent-runtime/src/events/integrity.rs:207-228` | a tool is requested once, under a non-empty identity, before anything else happens to it |
| `TurnGrammar.ResultIsEarned` | `crates/agent-runtime/src/events/integrity.rs:261-283` | a tool gets at most one result, after its execution or an explicit permission request |
| `TurnGrammar.RequestIsSettled` | `crates/agent-runtime/src/events/integrity.rs:313-331` | in a completed turn every requested tool has its result before the end |
| `Projection.SequenceTracker.Observe` | `crates/acp-adaptor/src/prompt/projection.rs:62-74` | accepts exactly the next number |
| `Projection.ProjectEvents` | `crates/acp-adaptor/src/prompt/projection.rs:155-205` | the outcome, the notifications and the cancellation as functions of the first event that does not fit |
| `Projection.StampedWordIsAccepted` | `crates/acp-adaptor/src/prompt/projection.rs:111-205` | every finished turn word is accepted to its terminal event, and shown in order |
| `Projection.TamperingIsCaught` | `crates/acp-adaptor/src/prompt/projection.rs:62-74` | the consumer stops at the first wrong number and has shown exactly what came before |
| `Projection.DeletionIsRefused` | `crates/acp-adaptor/src/prompt/projection.rs:155-205` | a lost event is noticed at its place |
| `Projection.DuplicationIsRefused` | `crates/acp-adaptor/src/prompt/projection.rs:155-205` | an event delivered twice is noticed at the second copy |
| `Projection.SwapIsRefused` | `crates/acp-adaptor/src/prompt/projection.rs:155-205` | two exchanged events are noticed at the earlier place |
| `Projection.ClientIsShownText` | `crates/acp-adaptor/src/prompt/projection.rs:111-143` | the notifications of text and of reasoning carry exactly the text and the reasoning of the word, each as its own kind |
| `Projection.ClientIsShownTools` | `crates/acp-adaptor/src/prompt/projection.rs:111-143` | each tool event with a card is shown under its identity, a request as a new call, everything later as an update of it |
| `Delivery.EmitterCalls` | `crates/agent-runtime/src/events/emitter.rs:104-128` | a call of the emitter does to the bus and to itself what the model of whole runs says |
| `Delivery.TrafficCarries` | `crates/agent-runtime/src/events/bus.rs:61-119` | the subscriptions, publishes, closings and departures of other turns leave the queue of a turn alone |
| `Delivery.CallCarries` | `crates/agent-runtime/src/events/emitter.rs:86-128` | after every call of the emitter its queue holds exactly the published word, numbered from zero |
| `Delivery.EveryRunIsDelivered` | `crates/acp-adaptor/src/prompt/projection.rs:155-205` | over every run of emitter calls and other traffic, whenever the client leaves: the queue carries the published word, numbered 0, 1, 2, and so on; the consumer reports the end exactly if a terminal event was published, and has shown all events before it, in order |
| `Delivery.ClientHasSeenEverything` | `crates/acp-adaptor/src/prompt/projection.rs:155-205` | at the end of a turn the client has been shown the assistant's text and its reasoning completely and in order |
| `ModelProjection.ProjectReasoning` | `crates/agent-runtime/src/events/model_projection.rs:77-98` | one reasoning delta opens what is not open and is published; if the client leaves, a beginning of these events is |
| `ModelProjection.ProjectText` | `crates/agent-runtime/src/events/model_projection.rs:99-119` | one text delta ends the thinking before it and is published; if the client leaves, a beginning of these events is |
| `ModelProjection.StreamIsHeard` | `crates/agent-runtime/src/events/model_projection.rs:52-76` | a stream is heard up to its end, its first failure or its first cancellation, whatever comes after that |
| `ModelProjection.TextIsJoined` | `crates/agent-runtime/src/events/model_projection.rs:77-119` | the text of a stream is that of its text deltas, joined; its reasoning likewise |
| `ModelProjection.CallsAreCollected` | `crates/agent-runtime/src/events/model_projection.rs:120-130` | every call of a stream is collected with its identity, name and arguments, in order, and nothing else |
| `ModelProjection.ProjectedShows` | `crates/agent-runtime/src/events/model_projection.rs:77-119` | the text deltas published for a stream make up its text, the thinking deltas its reasoning; the assistant starts once |
| `ModelProjection.RoundShows` | `crates/agent-runtime/src/events/model_projection.rs:77-152` | the same with the closing events and behind any word: what was said since the assistant last started is the text of the stream |
| `ModelProjection.AnswerCompletesExactlyWhen` | `crates/agent-runtime/src/events/model_projection.rs:135-151` | the client sees the assistant complete exactly at the end of a round that said something and calls no tool |
| `ModelProjection.CloseActiveScopes` | `crates/agent-runtime/src/events/model_projection.rs:169-188` | closes what is open; if the client leaves, a beginning of the closing events is published, and after it has left nothing |
| `ModelProjection.CloseRound` | `crates/agent-runtime/src/events/model_projection.rs:135-152` | closes thinking, then closes the assistant or lets it yield silently to pending calls; refused only if the client has left |
| `ModelProjection.ReceiveStream` | `crates/agent-runtime/src/events/model_projection.rs:45-158` | a round that succeeds, or during which the client stays, is decided by the stream alone: result and published events; otherwise a beginning of what the stream calls for was published |
| `ModelProjection.ConsumeModelStream` | `crates/agent-runtime/src/events/model_projection.rs:32-158` | the same with the turn start and the early cancellation; text, calls and event count are those of the stream |
| `ToolIds.CountedNamesDiffer` | `crates/agent-runtime/src/execution/agent_loop.rs:511-518` | renamings with different counters differ |
| `ToolIds.FindUnused` | `crates/agent-runtime/src/execution/agent_loop.rs:512-518` | the search for an unused name ends, at the first one, because the used names are finitely many |
| `ToolIds.SemanticId` | `crates/agent-runtime/src/execution/agent_loop.rs:510-520` | an identity keeps its name if it is new, otherwise takes the first free renaming |
| `ToolIds.CanonicalizeToolCalls` | `crates/agent-runtime/src/execution/agent_loop.rs:486-523` | refused exactly for a blank identity, a blank name or a repeated identity; otherwise non-empty names, different from each other and from all earlier ones |
| `ToolIds.RoundsAreDistinct` | `crates/agent-runtime/src/execution/agent_loop.rs:486-523` | over any number of rounds the names are not empty, new, and different from each other |
| `TurnSteps.EndTurn` | `crates/agent-runtime/src/execution/agent_loop.rs:525-534` | the failure or cancellation of an active turn is refused only if the client has left, and then nothing changes |
| `TurnSteps.ResultTooEarly` | `crates/agent-runtime/src/events/integrity.rs:261-283` | a result straight after the request is refused and changes nothing |
| `TurnSteps.CompleteTurn` | `crates/agent-runtime/src/execution/agent_loop.rs:327-337` | a turn at rest that has worked is completed, unless the client has left |
| `Conduct.Course.IsLawful` | `crates/agent-runtime/src/execution/agent_loop.rs:363-465` | every course a call may take, with every answer of the host, keeps the law of one call |
| `Conduct.LawfulSnoc` | `crates/agent-runtime/src/execution/agent_loop.rs:362-465` | a call that was dealt with lawfully leaves all others as they were |
| `Conduct.RefusedCallDoesNotRun` | `crates/agent-runtime/src/execution/agent_loop.rs:388-412` | a call whose permission was refused is never executed and no tool sees it; every result of it, published or recorded, is the refusal |
| `Conduct.ToolNeedsLeave` | `crates/agent-runtime/src/execution/agent_loop.rs:377-449` | a tool is asked only if tools are enabled and the call needs no permission or has it; every result of the call is then the tool's answer |
| `Conduct.NothingRunsUnasked` | `crates/agent-runtime/src/execution/agent_loop.rs:377-465` | no call is executed and none is answered before the host said that it needs no permission, or gave it, or refused it |
| `Ledger.OwesLater` | `crates/agent-runtime/src/execution/agent_loop.rs:278-361` | whatever is said, published and recorded moves the balance of the turn accordingly |
| `Ledger.GoodRead` | `crates/agent-runtime/src/execution/agent_loop.rs:220-226` | reading a stream to its end shows the client all of it and leaves its calls and its text to be dealt with |
| `Ledger.KeepsLater` | `crates/agent-runtime/src/execution/agent_loop.rs:187-469` | a turn that stops anywhere has shown and recorded nothing that was not said, and in order |
| `Ledger.TriedSnoc` | `crates/agent-runtime/src/execution/agent_loop.rs:187-218` | each stream is opened on a compacted history that records everything said before and a result for every call, after a round that went well or one refusal |
| `Calls.EnsureNotCancelled` | `crates/agent-runtime/src/execution/agent_loop.rs:525-534` | a cancelled turn ends with the cancellation event, or goes on unheard if the client has left |
| `Calls.ObtainPermit` | `crates/agent-runtime/src/execution/agent_loop.rs:369-419` | permission is asked only where it is needed; the permit is the host's answer, in what it was asked and in what is published |
| `Calls.ToolResult` | `crates/agent-runtime/src/execution/agent_loop.rs:425-449` | a tool is asked exactly if tools are enabled and there are any; otherwise the answer says that they are not |
| `Calls.DeliverAnswer` | `crates/agent-runtime/src/execution/agent_loop.rs:450-464` | the result of a call is published, or the turn was cancelled, or the client has left |
| `Calls.ExecuteCall` | `crates/agent-runtime/src/execution/agent_loop.rs:363-465` | one call runs from its request to exactly one result, along the course that the host's answers give it; only a cancellation or a client that leaves stops it |
| `Calls.PassageIsDealt` | `crates/agent-runtime/src/execution/agent_loop.rs:363-465` | however far a call comes, what was said and published about it is about no other call and lawful |
| `Calls.ExecuteCalls` | `crates/agent-runtime/src/execution/agent_loop.rs:362-465` | the calls of a round run in order; each shows once as a call and once as a result, in the events and in the history, and is dealt with lawfully |
| `Calls.PushRound` | `crates/agent-runtime/src/execution/agent_loop.rs:351-360` | the text of a round and its calls with their arguments are recorded before any of them runs |
| `RoundReading.ConsumeStream` | `crates/agent-runtime/src/execution/agent_loop.rs:583-607` | a stream leaves the tools alone and is shown whole, or ends the turn with the event that fits its error, a beginning of it shown |
| `RoundReading.ReadRound` | `crates/agent-runtime/src/execution/agent_loop.rs:220-233` | the text and the calls of the round, within the limits; otherwise a turn that stopped for the reason the stream gives |
| `Actions.AskActions` | `crates/agent-runtime/src/execution/agent_loop.rs:235-276` | the calls left to execute are those that no action consumed, in order; the action that ends the round is the last one consumed; a failing action ends the turn |
| `Actions.OfferingNext` | `crates/agent-runtime/src/execution/agent_loop.rs:246-262` | a call that an action took is not due any more; what the action has the user say is |
| `Actions.AbandonCall` | `crates/agent-runtime/src/execution/agent_loop.rs:286-303` | reporting an abandoned call never succeeds: the turn fails, unless the client has left |
| `Actions.AbandonCalls` | `crates/agent-runtime/src/execution/agent_loop.rs:278-320` | a terminal action fails the turn exactly when it leaves calls behind; otherwise what the user is to say is recorded |
| `AgentLoop.Compact` | `crates/agent-runtime/src/execution/agent_loop.rs:539-582` | entries of the running turn survive compaction while they span fewer than ten turns |
| `AgentLoop.CompleteRound` | `crates/agent-runtime/src/execution/agent_loop.rs:322-338` | a round without calls completes the turn with its text, or stops it: for a blank text, a cancellation, or a client that left |
| `AgentLoop.ExecuteRound` | `crates/agent-runtime/src/execution/agent_loop.rs:340-465` | the budget of calls holds after every round, and a turn that spends it says by how much |
| `AgentLoop.BalancedAfter` | `crates/agent-runtime/src/execution/agent_loop.rs:340-465` | after a round, calls and results pair one to one by identity, in the events and in the history |
| `AgentLoop.StreamRefused` | `crates/agent-runtime/src/execution/agent_loop.rs:205-217` | a refusal of the model ends the turn, or is answered by one emergency compaction if the context was too large and the last stream was not refused |
| `AgentLoop.RunRound` | `crates/agent-runtime/src/execution/agent_loop.rs:188-465` | every round leaves the turn balanced, completed, stopped, resting after an invalid call, or unheard by a client that has left; every call of it was dealt with lawfully and nothing is due |
| `AgentLoop.Run` | `crates/agent-runtime/src/execution/agent_loop.rs:163-469` | whatever the host answers and whenever the client leaves: a completed turn pairs every call with one result, within the budget, returns what the last stream said and the client saw last, and has recorded or given to an action everything that the model said and called for; every call was dealt with lawfully; an error has the reason that it names; while the client listens, a turn that began ends with the terminal event that fits the result, and an event is rejected exactly when a terminal action leaves calls behind |
| `TurnService.CancelAtOnce` | `crates/agent-runtime/src/execution/turn_service.rs:100-124` | a turn cancelled before it runs is started and cancelled, unless the client has left; one that had begun is left alone |
| `TurnService.Finish` | `crates/agent-runtime/src/execution/turn_service.rs:168-175` | the turn ends in the store, after whatever other callers did with it meanwhile |
| `TurnService.Settle` | `crates/agent-runtime/src/execution/turn_service.rs:124-165` | commit and read back after a run that succeeded, end of the turn after one that failed; the result tells exactly whether the session was persisted and found |
| `TurnService.RunAndTerminalize` | `crates/agent-runtime/src/execution/turn_service.rs:122-156` | the run and the terminal event of its error |
| `TurnService.ToldLater` | `crates/agent-runtime/src/execution/turn_service.rs:130-156` | the terminal event of an error changes nothing in what the story of the turn tells |
| `TurnService.RunTurn` | `crates/agent-runtime/src/execution/turn_service.rs:69-156` | the events of the service: refused configuration, early cancellation, or the run |
| `TurnService.RunStarted` | `crates/agent-runtime/src/execution/turn_service.rs:53-165` | while the client listens, exactly when the turn is terminal afterwards; whenever it is, the event that ended it fits the result; whatever happens, the turn is ended in the store and the result tells whether that persisted it |
| `TurnService.BegunTurnIsHeld` | `crates/agent-runtime/src/state/mod.rs:23-59` | a turn that the store handed out is still outstanding when the service ends it, unless somebody else ended it |
| `TurnService.EndedIsSound` | `crates/agent-runtime/src/execution/turn_service.rs:168-175` | ending the turn keeps the store sound and releases the lock, whether or not it persisted the session |
| `TurnService.SettledTurnCommitsExactlyWhen` | `crates/agent-runtime/src/state/mod.rs:83-148` | whatever other callers do meanwhile: a turn of a session that nobody closed or deleted under it commits exactly if its file can be written |
| `TurnService.CommittedTurnIsOnDisk` | `crates/agent-runtime/src/state/mod.rs:114-148` | what a committed turn appended is at the end of the session's file, in order, if its entries can be recovered from text and span fewer than ten user messages |
| `Compaction.SplitTurns` | `crates/agent-runtime/src/execution/agent_loop.rs:543-553` | the messages cut before every user message but the first |
| `Compaction.SplitIsUnique` | `crates/agent-runtime/src/execution/agent_loop.rs:543-553` | there is only one such cut |
| `Compaction.ChooseEvicted` | `crates/agent-runtime/src/execution/agent_loop.rs:561-574` | the largest older turns are chosen, earlier ones first among equals, as few as reach the target, or all of them; the remaining size never underflows |
| `Compaction.EvictTurns` | `crates/agent-runtime/src/execution/agent_loop.rs:561-581` | exactly the chosen turns go, the others stay in order |
| `Compaction.CompactMessages` | `crates/agent-runtime/src/execution/agent_loop.rs:539-582` | whole turns are dropped, in order, never one of the last ten |
| `Compaction.LargestOutweigh` | `crates/agent-runtime/src/execution/agent_loop.rs:565-574` | the largest turns outweigh any choice of as many or fewer, so no smaller choice reaches the target |
| `Compaction.RecentTurnsStay` | `crates/agent-runtime/src/execution/agent_loop.rs:561-581` | the last ten turns are untouched |
| `Compaction.RecentMessagesStay` | `crates/agent-runtime/src/execution/agent_loop.rs:539-582` | an end of the history that spans fewer than ten user messages survives |
| `Compaction.CompactedIsSmall` | `crates/agent-runtime/src/execution/agent_loop.rs:539-582` | a compaction reaches its target, unless only the last ten turns are left |
| `Compaction.SmallStays` | `crates/agent-runtime/src/execution/agent_loop.rs:554-560` | what is within the target, or has no older turns, stays as it is |
| `Compaction.SecondRunChangesNothing` | `crates/agent-runtime/src/execution/agent_loop.rs:539-582` | compacting again with the same target changes nothing |
| `BuildPrompt.SearchStart` | `crates/acp-adaptor/src/prompt/build.rs:72-86` | binary search finds the earliest start within the budget, or the last one |
| `BuildPrompt.TotalsDecide` | `crates/acp-adaptor/src/prompt/build.rs:54-78` | the running totals tell exactly which suffixes fit |
| `BuildPrompt.BuildPrompt` | `crates/acp-adaptor/src/prompt/build.rs:36-90` | the prompt is the system text and the history from the earliest of the last twelve turns that fits, or the last turn |
| `BuildPrompt.PromptIsDetermined` | `crates/acp-adaptor/src/prompt/build.rs:36-90` | this description leaves one prompt: no other choice of turns meets it |
| `BuildPrompt.EntryShowsSubstance` | `crates/acp-adaptor/src/prompt/build.rs:12-34` | an entry shows its content, a call its name, identity and arguments, a result its content and whether it is one of success |
| `BuildPrompt.PromptShowsEntries` | `crates/acp-adaptor/src/prompt/build.rs:87-89` | every entry from the chosen turn on is in the prompt, in order |
| `BuildPrompt.LastTurnIsShown` | `crates/acp-adaptor/src/prompt/build.rs:58-89` | the entries of the last turn are always in the prompt |
| `Json.NumberScans` | `crates/agent-runtime/src/prompt.rs:24-49` | a number of the JSON grammar is read to its end exactly as it was written |
| `Json.NumberIsKept` | `crates/agent-runtime/src/state/history.rs:350` | whatever is read as a number is written again as it was |
| `Json.ParseInvertsPrint` | `crates/agent-runtime/src/prompt.rs:24-49` | a printed value reads back as itself exactly within the nesting limit, otherwise it is refused |
| `Json.ParsedComesBack` | `crates/agent-runtime/src/state/history.rs:350` | a value read from any text prints to a text from which it is read again |
| `Json.PrintIsOneLine` | `crates/agent-runtime/src/prompt.rs:24-37` | a printed value has no newline, so the fence stays three lines |
| `Json.UnicodeEscapeReads` | `crates/agent-runtime/src/state/history.rs:350` | every character may be written by its number, as a pair above 0xFFFF (section 7 of RFC 8259), and is read as this character |
| `History.NormalizeAssistant` | `crates/agent-runtime/src/state/history.rs:198-241` | one assistant text read line by line |
| `History.NormalizeTool` | `crates/agent-runtime/src/state/history.rs:242-269` | a result without an identity takes the last pending call of its tool |
| `History.NormalizeLegacyEntries` | `crates/agent-runtime/src/state/history.rs:189-272` | the whole list read in order |
| `History.History.PushTuple` | `crates/agent-runtime/src/state/history.rs:72-77` | a tuple goes to the legacy list only and marks the canonical one as behind |
| `History.History.PushCanonical` | `crates/agent-runtime/src/state/history.rs:183-187` | an entry goes to both lists and clears the mark, even if the canonical list is behind |
| `History.History.Entries` | `crates/agent-runtime/src/state/history.rs:164-171` | what a reader sees |
| `History.History.NormalizeLegacy` | `crates/agent-runtime/src/state/history.rs:178-181` | the canonical list is computed anew from the legacy one |
| `History.History.Replace` | `crates/agent-runtime/src/state/history.rs:172-176` | both lists show the new entries |
| `HistoryRecovery.AssistantTextSurvives` | `crates/agent-runtime/src/state/history.rs:198-241` | an assistant text survives exactly when it is stable under splitting into lines and free of markers |
| `HistoryRecovery.OpenFenceLosesLines` | `crates/agent-runtime/src/state/history.rs:336-358` | a fence line that is not completed drops the two lines after it |
| `HistoryRecovery.ToolCallComesBack` | `crates/agent-runtime/src/state/history.rs:336-358` | a printed call is read back exactly if it has an identity and a name and its arguments nest no deeper than the envelope allows; otherwise only its opening line is left |
| `HistoryRecovery.CallLineReads` | `crates/agent-runtime/src/state/history.rs:360-376` | a line of the older dialect is read as a call exactly if its arguments parse |
| `HistoryRecovery.NumberLineBecomesCall` | `crates/agent-runtime/src/state/history.rs:360-376` | such a line with any number as its arguments, fraction and exponent included, becomes a call unless the number is out of range |
| `HistoryRecovery.FractionIsReadAsCall` | `crates/agent-runtime/src/state/history.rs:360-376` | the smallest case of a fraction |
| `HistoryRecovery.ResultReads` | `crates/agent-runtime/src/state/history.rs:378-412` | a printed result is read back whatever its content |
| `HistoryDialects.NamedResultLineReads` | `crates/agent-runtime/src/state/history.rs:399-411` | an older result line that names its call: the first word is the tool, the first `id=` the call, and it is a failure exactly if the first `status=` after it says so |
| `HistoryDialects.NamelessResultLineReads` | `crates/agent-runtime/src/state/history.rs:399-411` | one that does not name its call counts as a success whatever status it states |
| `HistoryDialects.FailureIsReadAsSuccess` | `crates/agent-runtime/src/state/history.rs:399-411` | the smallest failure that is read as a success |
| `HistoryDialects.OtherToolTextIsKept` | `crates/agent-runtime/src/state/history.rs:242-246` | a tool text in neither form is kept as it is |
| `HistoryDialects.ResultTakesLastCall` | `crates/agent-runtime/src/state/history.rs:247-260` | a result without a call takes the last pending call of its tool, and that call alone |
| `HistoryDialects.ResultTakesNoCall` | `crates/agent-runtime/src/state/history.rs:247-267` | a result that names its call, or whose tool has no pending call, takes none |
| `HistoryDialects.NamelessResultIsPaired` | `crates/agent-runtime/src/state/history.rs:189-272` | a call, any messages of the user and a result without identity: the result gets the call's |
| `HistoryDialects.NamelessResultsAreSwapped` | `crates/agent-runtime/src/state/history.rs:247-260` | with two pending calls of one tool, results without identities are taken for each other's |
| `HistoryDialects.CallAmongLines` | `crates/agent-runtime/src/state/history.rs:198-241` | text, a call in either form, and more text come out in this order |
| `HistoryDialects.FencedCallAmongLines` | `crates/agent-runtime/src/state/history.rs:198-241` | the same for a printed call |
| `HistoryDialects.CallLineAmongLines` | `crates/agent-runtime/src/state/history.rs:198-241` | the same for a call on one line |
| `HistoryRecovery.NormalizeInvertsLegacy` | `crates/agent-runtime/src/state/history.rs:318-334` | normalizing the legacy form of recoverable entries gives these entries |
| `HistoryRecovery.LaterEntriesComeBack` | `crates/agent-runtime/src/state/history.rs:189-272` | recoverable entries at the end of a history come back whatever stands before them |
| `HistoryRecovery.CommitLosesNothing` | `crates/agent-runtime/src/state/history.rs:178-272` | after any mix of appends, normalizing recovers every entry in order |
| `HistoryRecovery.VisibleIsCompleteWhen` | `crates/agent-runtime/src/state/history.rs:164-187` | what is shown before a commit is complete exactly if the last append was a tuple or none was |
| `HistoryRecovery.EntryHidesEarlierTuple` | `crates/agent-runtime/src/state/history.rs:183-187` | the smallest history that shows less than was appended |
| `Utf8.EncodedHead` | `crates/llm-provider/src/client/stream.rs:59-80` | decoding reads every character as section 3 of RFC 3629 writes it |
| `Utf8.ScanReencodes` | `crates/llm-provider/src/client/stream.rs:59-80` | decoding invents nothing: text and rest are the bytes again |
| `Utf8.AcceptsExactlyEncodings` | `crates/llm-provider/src/client/stream.rs:59-80` | nothing is left over exactly for the encodings of texts |
| `Utf8.IncrementalUtf8.Push` | `crates/llm-provider/src/client/stream.rs:59-80` | text up to the first malformed sequence; that sequence is skipped, everything after it is kept |
| `Utf8.IncrementalUtf8.Finish` | `crates/llm-provider/src/client/stream.rs:84-88` | the rest is decoded with replacement characters and dropped |
| `Utf8.DecodingIgnoresChunkBoundaries` | `crates/llm-provider/src/client/stream.rs:59-88` | for a valid stream in any chunks: the pieces make up the text, the residual has at most three bytes, nothing is left at the end |
| `Utf8.OneMalformedIsSkipped` | `crates/llm-provider/src/client/stream.rs:59-88` | a single malformed sequence is left out of the text, wherever the stream was cut |
| `Utf8.ChunksDoNotMatterExactlyWhen` | `crates/llm-provider/src/client/stream.rs:59-88` | with empty chunks allowed, the text of a stream is independent of its chunks exactly if at most one sequence in it is malformed |
| `Utf8.NonEmptyChunksDoNotMatterExactlyWhen` | `crates/llm-provider/src/client/stream.rs:59-88` | for chunks of at least one byte: exactly if at most one sequence is malformed or only the last byte shows that any is |
| `Utf8.LastByteShowsTwo` | `crates/llm-provider/src/client/stream.rs:59-88` | a concrete stream of the second kind |
| `Utf8.MalformedByteHoldsBack` | `crates/llm-provider/src/client/stream.rs:59-80` | a malformed byte leaves everything behind it undecoded until the next chunk, however long it is |
| `Utf8.SecondMalformedDependsOnChunks` | `crates/llm-provider/src/client/stream.rs:59-88` | a concrete stream that is decoded differently in one chunk and byte by byte |
| `Frames.GeminiFrameDecoder.Feed` | `crates/llm-provider/src/core/frames.rs:62-82` | the complete lines are decoded in order, the rest is kept; only an oversized unterminated line is dropped |
| `Frames.GeminiFrameDecoder.Finish` | `crates/llm-provider/src/core/frames.rs:84-91` | the rest is decoded as a last line |
| `Frames.TrimIgnoresNewlines` | `crates/llm-provider/src/core/frames.rs:79-95` | cutting line ends before trimming makes no difference |
| `Frames.DrainAppend` | `crates/llm-provider/src/core/frames.rs:62-82` | text that arrives later is decoded as if it had been there from the start |
| `Frames.DrainFolds` | `crates/llm-provider/src/core/frames.rs:62-106` | draining and finishing is folding over the lines of the whole text |
| `Frames.FramelessLinesAreSkipped` | `crates/llm-provider/src/core/frames.rs:93-97` | blank lines and the prefix line make no difference wherever they stand |
| `Frames.FramesAreRead` | `crates/llm-provider/src/core/frames.rs:93-106` | every other line is read once, trimmed, in its turn |
| `Frames.FeedDecodedText` | `crates/llm-provider/src/client/stream.rs:108-118` | refused exactly when the pending line and the new text exceed the frame limit |
| `Frames.ReadStream` | `crates/llm-provider/src/client/stream.rs:287-343` | from bytes to frame events independently of the chunks; no line beyond the size limit is ever decoded, and only such a one stops the reading |
| `Frames.ValidStreamIsItsText` | `crates/llm-provider/src/client/stream.rs:59-88` | a valid stream is read as the text it encodes, wherever it was cut |
| `SnapshotDelta.DeltasMakeText` | `crates/llm-provider/src/client/stream.rs:509-531` | the deltas of the accepted snapshots make up the accepted text |
| `SnapshotDelta.TextsAreDeltas` | `crates/llm-provider/src/client/stream.rs:523-530` | what is sent as text are these deltas, cleaned, in order |
| `SnapshotDelta.AllTextArrives` | `crates/llm-provider/src/client/stream.rs:509-531` | where cleaning changes nothing the sent text is the accepted text |
| `SnapshotDelta.ToolsAreSentOnce` | `crates/llm-provider/src/client/stream.rs:532-546` | over all attempts every tool identity that is told is sent once, and no other |
| `SnapshotDelta.FirstToolIsSent` | `crates/llm-provider/src/client/stream.rs:532-546` | it is sent with the name and the arguments under which it was first seen |
| `SnapshotDelta.NotesAreSent` | `crates/llm-provider/src/client/stream.rs:547-551` | metadata and reports are all sent, in order |
| `SnapshotDelta.DeltaStream.EmitText` | `crates/llm-provider/src/client/stream.rs:509-531` | a snapshot that extends the accepted text is accepted and its delta sent; any other is remembered as divergence |
| `SnapshotDelta.DeltaStream.Emit` | `crates/llm-provider/src/client/stream.rs:501-554` | one frame adds exactly what it calls for, or the receiver has left |
| `SnapshotDelta.FineFramesPass` | `crates/llm-provider/src/client/stream.rs:133-163` | frames without trouble are all emitted, whatever follows |
| `SnapshotDelta.FirstTroubleDecides` | `crates/llm-provider/src/client/stream.rs:133-163` | the first frame with trouble decides how the feed ends, and nothing behind it is emitted |
| `SnapshotDelta.FeedFrames` | `crates/llm-provider/src/client/stream.rs:108-163` | the frames of one piece of text, up to the first trouble |
| `SnapshotDelta.FlushFrames` | `crates/llm-provider/src/client/stream.rs:303-306` | the last frames are only checked for their size |
| `SnapshotDelta.ReadChunks` | `crates/llm-provider/src/client/stream.rs:291-343` | the chunks of a body in order, up to the first trouble; between any two of them the receiver may leave |
| `SnapshotDelta.CompletedMeans` | `crates/llm-provider/src/client/stream.rs:295-328` | an attempt completes only on a whole response all of whose frames were emitted, and whose last snapshot is the accepted text |
| `SnapshotDelta.BrokenMeans` | `crates/llm-provider/src/client/stream.rs:267-331` | a refused response fails with its own error, one that breaks off with a network error, behind everything it brought |
| `SnapshotDelta.BackendErrorMeans` | `crates/llm-provider/src/client/stream.rs:146-151` | a frame that reports a backend error ends the attempt with this error |
| `SnapshotDelta.BlockMeans` | `crates/llm-provider/src/client/stream.rs:134-145` | a blocked frame ends the attempt without an error, after it was reported |
| `SnapshotDelta.FineResponseMeans` | `crates/llm-provider/src/client/stream.rs:295-328` | a whole response without trouble completes, or fails exactly because its last snapshot is not the accepted text |
| `SnapshotDelta.Attempt` | `crates/llm-provider/src/client/stream.rs:260-344` | one attempt emits what its response calls for and ends as the response says, unless the receiver leaves |
| `SnapshotDelta.RunTurn` | `crates/llm-provider/src/client/stream.rs:178-258` | over all attempts: the receiver was sent what all responses call for; the error returned is that of the last attempt, none exactly if it completed or was blocked, unless the receiver has left; another attempt follows exactly if the error allows it, no tool was sent, and attempts are left |
| `SnapshotDelta.RetriesExactlyWhen` | `crates/llm-provider/src/client/stream.rs:210-227` | an attempt is followed by another exactly if it diverged, or failed with no final error before any text was accepted, and no tool was sent in the whole turn |
| `SnapshotDelta.EarlierAttemptsMayFail` | `crates/llm-provider/src/client/stream.rs:202-254` | so every attempt but the last one of a turn ended, and none of them sent a tool |
| `Reasoning.PartialSuffixUpTo` | `crates/llm-provider/src/semantic_stream/reasoning.rs:131-139` | the longest end of the text that is a proper prefix of the marker |
| `Reasoning.FindMarker` | `crates/llm-provider/src/semantic_stream/reasoning.rs:141-146` | the leftmost marker, by place and length |
| `Reasoning.ReasoningDetector.Feed` | `crates/llm-provider/src/semantic_stream/reasoning.rs:23-34` | one delta in each phase |
| `Reasoning.ReasoningDetector.Finish` | `crates/llm-provider/src/semantic_stream/reasoning.rs:36-51` | what is pending is flushed in the current phase |
| `Reasoning.FoundMarkerStays` | `crates/llm-provider/src/semantic_stream/reasoning.rs:80-97` | a marker that was found stays the leftmost one, whatever follows |
| `Reasoning.NothingStartsBeforeSplit` | `crates/llm-provider/src/semantic_stream/reasoning.rs:99-112` | what is let go holds no beginning of a marker, whatever follows |
| `Reasoning.MarkedInputSplits` | `crates/llm-provider/src/semantic_stream/reasoning.rs:23-146` | for input that begins with an open marker, in any chunks: reasoning is the text up to the first close marker, the answer all after it |
| `Reasoning.ChunksDoNotMatter` | `crates/llm-provider/src/semantic_stream/reasoning.rs:23-146` | the same for the markers of the program and a fresh detector |
| `Reasoning.WithoutReasoning` | `crates/llm-provider/src/semantic_stream/reasoning.rs:23-34` | for a model without reasoning every character comes out as text, in order |
| `Reasoning.UnmarkedInput` | `crates/llm-provider/src/semantic_stream/reasoning.rs:53-78` | any other input comes out as text, but a withheld suffix comes out last |
| `Reasoning.TextIsKeptExactlyWhen` | `crates/llm-provider/src/semantic_stream/reasoning.rs:63-77` | such an input keeps its order exactly if nothing was withheld or the later text only repeats it |
| `Reasoning.AngleBracketComesLast` | `crates/llm-provider/src/semantic_stream/reasoning.rs:63-77` | a concrete input whose order changes |
| `Reasoning.DetectorKeepsOrder` | `crates/llm-provider/src/semantic_stream/reasoning.rs:23-146` | reasoning never follows text, so the stream projection never refuses the order |
| `Protocol.ProgressShrinks` | `crates/llm-provider/src/semantic_stream/protocol.rs:52-71` | every productive step shrinks what is pending |
| `Protocol.ProtocolDetector.DrainBy` | `crates/llm-provider/src/semantic_stream/protocol.rs:52-71` | draining ends, in the state and with the events of the steps |
| `Protocol.ProtocolDetector.Feed` | `crates/llm-provider/src/semantic_stream/protocol.rs:32-43` | one chunk, or everything dropped beyond the size limit |
| `Protocol.ProtocolDetector.Finish` | `crates/llm-provider/src/semantic_stream/protocol.rs:45-50` | a last draining, then nothing is pending |
| `Protocol.ResultsAreNeverShown` | `crates/llm-provider/src/semantic_stream/protocol.rs:73-107` | no single text event shows the marker of a tool result, for every input and state |
| `Protocol.ProgramNeverShowsResults` | `crates/llm-provider/src/semantic_stream/protocol.rs:73-107` | the same for the markers of the program |
| `Protocol.CutIsHeldExactlyWhen` | `crates/llm-provider/src/semantic_stream/protocol.rs:179-210` | the beginning of a result marker is held back exactly if it begins a marker of another kind |
| `Protocol.CutResultShowsExactlyWhen` | `crates/llm-provider/src/semantic_stream/protocol.rs:73-210` | a result marker that arrives in two pieces comes out as text, over several events, exactly if the part before the cut is not held back; otherwise none of it comes out |
| `Protocol.ProgramShowsCutResultExactlyWhen` | `crates/llm-provider/src/semantic_stream/protocol.rs:73-210` | the same for the markers of the program |
| `Protocol.ResultCutInTwoIsShown` | `crates/llm-provider/src/semantic_stream/protocol.rs:73-210` | concrete markers that are shown: cut behind their second character |
| `Protocol.FirstFoundIsLongest` | `crates/llm-provider/src/semantic_stream/protocol.rs:179-210` | looking at the fences first finds the longest end that may begin a marker |
| `Protocol.HeldIsEnough` | `crates/llm-provider/src/semantic_stream/protocol.rs:446-458` | what is held after a chunk depends only on what was held before it |
| `Protocol.TextIsConserved` | `crates/llm-provider/src/semantic_stream/protocol.rs:32-71` | for plain input in small chunks: emitted and pending text make up the input, the pending text is the longest end that may begin a marker |
| `Protocol.PlainInputComesOutExactlyWhen` | `crates/llm-provider/src/semantic_stream/protocol.rs:45-50` | the whole plain input comes out exactly if its end begins no marker |
| `Protocol.ProgramConservesText` | `crates/llm-provider/src/semantic_stream/protocol.rs:32-71` | conservation for the markers of the program |
| `Protocol.ProgramShowsPlainInputExactlyWhen` | `crates/llm-provider/src/semantic_stream/protocol.rs:45-50` | with the markers of the program, a plain input comes out whole exactly if its end begins none of them |
| `Protocol.TrailingBracketIsLost` | `crates/llm-provider/src/semantic_stream/protocol.rs:45-50` | a concrete input that loses its end |
| `Protocol.FencedCallComesOut` | `crates/llm-provider/src/semantic_stream/protocol.rs:333-380` | a fenced call that arrives in one piece comes out as the call that its body describes |
| `Protocol.LineCallComesOut` | `crates/llm-provider/src/semantic_stream/protocol.rs:127-295` | a call on one line comes out as the call that its line describes, or not at all if the line is not understood, and what follows is read as if it stood alone |
| `Protocol.LoneLineCall` | `crates/llm-provider/src/semantic_stream/protocol.rs:127-295` | one that arrives alone gives exactly its call, or nothing, and nothing is pending |
| `Protocol.UnfinishedLineWaits` | `crates/llm-provider/src/semantic_stream/protocol.rs:135-137` | one whose line has not ended is kept |
| `Protocol.FollowUpComesOut` | `crates/llm-provider/src/semantic_stream/protocol.rs:144-167` | the calls of a follow-up tag come out in order; a tag that is not understood waits, or is dropped when it is too long or nothing follows |
| `Protocol.BareCallComesOut` | `crates/llm-provider/src/semantic_stream/protocol.rs:169-177` | an object at the start of the stream that reads as a call comes out as this call |
| `Protocol.LineResultIsDropped` | `crates/llm-provider/src/semantic_stream/protocol.rs:82-271` | a result on one line is dropped with its line |
| `Protocol.CallBeforeResultIsShown` | `crates/llm-provider/src/semantic_stream/protocol.rs:73-81` | a call in front of a result marker in the same piece is shown as text |
| `Protocol.FencedCallInPieces` | `crates/llm-provider/src/semantic_stream/protocol.rs:333-380` | a fenced call in any number of pieces, its closing fence whole in the last one, comes out as the call of the joined body |
| `Store.Store.Persist` | `crates/agent-runtime/src/state/persistence.rs:33-50` | a file changes in one step or not at all, wherever writing breaks off |
| `Store.Store.AcquireBusy` | `crates/agent-runtime/src/state/busy.rs:19-57` | only a stale lock is taken over; a failed attempt leaves no lock of ours |
| `Store.Store.CreateSession` | `crates/agent-runtime/src/state/persistence.rs:52-69` | a session is cached only after it was written |
| `Store.Store.GetSession` | `crates/agent-runtime/src/state/persistence.rs:71-90` | the cached session, or the file, which is then cached |
| `Store.Store.Begin` | `crates/agent-runtime/src/state/mod.rs:23-59` | every way a turn begins or is refused, and the lock it leaves |
| `Store.Store.Update` | `crates/agent-runtime/src/state/mod.rs:61-81` | a change reaches the cache only after the file |
| `Store.Store.End` | `crates/agent-runtime/src/state/mod.rs:83-148` | the commit joins history and live settings; the lock is released whatever happens |
| `Store.Store.CloseSession` | `crates/agent-runtime/src/state/mod.rs:150-157` | the session leaves the cache and the lock is released |
| `Store.Store.DeleteSession` | `crates/agent-runtime/src/state/persistence.rs:127-133` | the session leaves the cache and, if it can be removed, the disk |
| `Store.Store.ForkSession` | `crates/agent-runtime/src/state/mod.rs:159-175` | a copy with a fresh identity, without grants and turns |
| `Store.GetIsRead` | `crates/agent-runtime/src/state/persistence.rs:71-95` | in a coherent store `get` answers what reading the disk would |
| `Store.LiveUpdateIsCoherentExactlyWhen` | `crates/agent-runtime/src/state/mod.rs:61-81` | an update keeps the store coherent exactly if it keeps the identity of the session |
| `Store.PerformAll` | `crates/agent-runtime/src/state/mod.rs:23-175` | any calls of the store, in any order, take it where the run of these steps takes it |
| `Store.StepKeepsSound` | `crates/agent-runtime/src/state/mod.rs:23-175` | every operation, with writing failing anywhere, keeps coherence and counting, and what is known of the turns of settled and of unsettled sessions |
| `Store.RunsStaySound` | `crates/agent-runtime/src/state/mod.rs:23-175` | the same for whole runs |
| `Store.GetIsAlwaysRead` | `crates/agent-runtime/src/state/persistence.rs:71-95` | along every run `get` answers what reading the disk would |
| `Store.ExclusiveExactlyWhenSettled` | `crates/agent-runtime/src/state/mod.rs:23-175` | at every point of every run the turns of a session exclude each other exactly if no outstanding one was there when the session was closed or deleted |
| `Store.CloseIsSafeExactlyWhen` | `crates/agent-runtime/src/state/mod.rs:150-157` | closing keeps the turns of a session exclusive exactly if none is outstanding |
| `Store.DeleteIsSafeExactlyWhen` | `crates/agent-runtime/src/state/persistence.rs:127-133` | the same for deleting |
| `Store.TurnsExclude` | `crates/agent-runtime/src/state/mod.rs:23-148` | a settled session has at most one turn outstanding, which excludes another and whose end is never stale; if it was always settled, its turn count is the number of commits |
| `Store.CommitMerges` | `crates/agent-runtime/src/state/mod.rs:114-148` | a commit joins what the turn wrote with what was configured meanwhile, in the cache and on disk |
| `Store.CreatedIsSeen` | `crates/agent-runtime/src/state/persistence.rs:52-69` | a created session is shown to every reader, in memory and on disk, or nothing changed |
| `Store.UpdatedIsSeen` | `crates/agent-runtime/src/state/mod.rs:61-81` | an update shows every reader the changed session, or changes nothing if it cannot be written |
| `Store.BegunIsSeen` | `crates/agent-runtime/src/state/mod.rs:23-59` | which answer beginning a turn gets, exactly; the turn gets the session as every reader sees it, and nothing changes for them |
| `Store.EndedIsSeen` | `crates/agent-runtime/src/state/mod.rs:83-148` | exactly when a turn's end commits, and what every reader then sees; otherwise everything is as it was |
| `Store.ClosedIsOnDisk` | `crates/agent-runtime/src/state/mod.rs:150-157` | closing a session changes nothing on disk, deleting it removes its file and nothing else |
| `Store.ForkedIsSeen` | `crates/agent-runtime/src/state/types.rs:123-142` | a fork shows, in memory and on disk, the entries, the legacy list and the settings of its source but title and rules; the source and every other session are as before |
| `Store.ClosingLetsAnOldTurnCommit` | `crates/agent-runtime/src/state/mod.rs:150-157` | without that condition: closing during a turn lets two turns share a generation, and the first commit unlocks the second |
| `BusyLock.FormatReadsBack` | `crates/agent-runtime/src/state/busy.rs:64-123` | the process number and start time in a lock file are read back as they were written |
| `BusyLock.WrittenLockIsStaleExactlyWhen` | `crates/agent-runtime/src/state/busy.rs:87-104` | a lock may be taken over exactly if its process is gone or the process number was reused |
| `BusyLock.OwnLockHoldsExactlyWhen` | `crates/agent-runtime/src/state/busy.rs:106-135` | a process is safe from its own locks exactly if its start time can be read |
| `BusyLock.StartRecoversMore` | `crates/agent-runtime/src/state/busy.rs:106-113` | the policy at the start takes over exactly the malformed and unreadable locks that the one during a run leaves alone |
| `LockFiles.Acquire` | `crates/agent-runtime/src/state/busy.rs:23-57` | the lock file is created, judged, taken over or left alone, and written |
| `LockFiles.StoreFollowsFilesExactlyWhen` | `crates/agent-runtime/src/state/busy.rs:23-57` | the store acquires judged locks as the process acquires the files, and sees the same locks afterwards exactly if it wrote none or its start time can be read |
| `LockFiles.ReleasingFollowsFiles` | `crates/agent-runtime/src/state/busy.rs:59-61` | the same for releasing a lock |
| `LockFiles.SecondAcquireIsBusyExactlyWhen` | `crates/agent-runtime/src/state/busy.rs:23-135` | whatever other processes come and go: a lock this process holds keeps it from acquiring the lock again exactly if its start time can be read |
| `SessionList.List` | `crates/agent-runtime/src/state/persistence.rs:97-125` | every session that is listed exactly once, newest first, equal stamps in directory order; old snapshots and other files are not listed |
| `SessionList.ListedByTime` | `crates/agent-runtime/src/state/persistence.rs:123` | up to the year 9999 this is the order of time |
| `Calendar.ConversionIsExact` | `crates/agent-runtime/src/time.rs:26-37` | every day number, negative ones included, becomes a valid date with that day number |
| `Calendar.DatesComeBack` | `crates/agent-runtime/src/time.rs:26-37` | every date comes from its own day number |
| `Calendar.NextDayFollows` | `crates/agent-runtime/src/time.rs:26-37` | one day later is the next date of the calendar |
| `Calendar.ConversionIsIncreasing` | `crates/agent-runtime/src/time.rs:26-37` | the conversion is strictly increasing |
| `Calendar.StampsSortByTime` | `crates/agent-runtime/src/time.rs:18-24` | up to the year 9999 time stamps sort as texts in the order of time |
| `Calendar.StampWidth` | `crates/agent-runtime/src/time.rs:18-24` | a stamp has twenty characters exactly up to the year 9999 |
| `Calendar.YearTenThousandSortsFirst` | `crates/agent-runtime/src/time.rs:18-24` | every stamp of the year 10000 sorts before every stamp of 9999 |
| `Glob.GlobToRegex` | `crates/tools-provider/src/tools/glob.rs:9-41` | the compiled text |
| `Glob.CompiledReadsBack` | `crates/tools-provider/src/tools/glob.rs:9-41` | the compiled text reads back as the elements of the pattern |
| `Glob.CompiledMeansGlob` | `crates/tools-provider/src/tools/glob.rs:9-47` | for texts without a newline the compiled expression matches exactly when the glob does |
| `Glob.MeaningIsPreservedExactlyWithoutDoubleStar` | `crates/tools-provider/src/tools/glob.rs:15-18` | for all texts the meaning is preserved exactly by the patterns without `**` |
| `Glob.DoubleStarAlone` | `crates/tools-provider/src/tools/glob.rs:15-18` | the pattern `**` misses exactly the texts with a newline |
| `Shell.Lex` | `crates/tools-provider/src/tools/sandbox/parser.rs:143-268` | the items of a command, or the first error |
| `Shell.ParseShell` | `crates/tools-provider/src/tools/sandbox/parser.rs:104-133` | the segments, operators and expansion flag, or the error |
| `Shell.LexedOrdered` | `crates/tools-provider/src/tools/sandbox/parser.rs:143-306` | words are not empty and every operator follows a word |
| `Shell.ParsedIsWellFormed` | `crates/tools-provider/src/tools/sandbox/parser.rs:104-133` | one segment more than operators, no empty program; the check for a missing command inside the loop never fires |
| `Shell.Normalize` | `crates/tools-provider/src/tools/sandbox/parser.rs:38-53` | the printed normal form |
| `Shell.SpelledFormParses` | `crates/tools-provider/src/tools/sandbox/parser.rs:104-306` | however the words of a command are spelled, it is read as the words that are meant |
| `Shell.OperatorNeedsNoBlanks` | `crates/tools-provider/src/tools/sandbox/parser.rs:214-238` | behind any command, an operator without blanks around it is read as one with them |
| `Shell.BlanksAreAlike` | `crates/tools-provider/src/tools/sandbox/parser.rs:201-204` | tabs and carriage returns separate words as blanks do |
| `Shell.CommentIsSkipped` | `crates/tools-provider/src/tools/sandbox/parser.rs:195-200` | a comment behind a command reaches to the end of its line and makes no difference |
| `Shell.LineEndMeans` | `crates/tools-provider/src/tools/sandbox/parser.rs:205-288` | behind any command, a line end counts as a semicolon exactly if something other than white space and comments follows, and as a blank otherwise |
| `Shell.LinesAreSequenced` | `crates/tools-provider/src/tools/sandbox/parser.rs:195-288` | commands on two lines, with a comment between them, are read as one after the other |
| `Shell.BlankLineBecomesArgument` | `crates/tools-provider/src/tools/sandbox/parser.rs:201-288` | a line with nothing but a no-break space is read as an argument of the command before it |
| `Shell.EscapedSpells` | `crates/tools-provider/src/tools/sandbox/parser.rs:155-188` | a word with a backslash before every character is read as this word |
| `Shell.SingleSpells` | `crates/tools-provider/src/tools/sandbox/parser.rs:163-172` | a word in single quotes is read as it is |
| `Shell.DoubleSpells` | `crates/tools-provider/src/tools/sandbox/parser.rs:173-183` | a word in double quotes, its quotes and backslashes escaped, is read as this word |
| `Shell.OpenSingleIsRefused` | `crates/tools-provider/src/tools/sandbox/parser.rs:257-258` | a single quote that is never closed is refused |
| `Shell.OpenDoubleIsRefused` | `crates/tools-provider/src/tools/sandbox/parser.rs:257-259` | a double quote that is never closed is refused |
| `Shell.DynamicTextIsRefused` | `crates/tools-provider/src/tools/sandbox/parser.rs:191-244` | substitutions, redirections and here-documents are refused behind any words |
| `Shell.NormalFormParsesBack` | `crates/tools-provider/src/tools/sandbox/parser.rs:38-53` | it parses back to the command, and to the same flag exactly if the flag says what the words show |
| `Shell.PlainCommandRoundTrips` | `crates/tools-provider/src/tools/sandbox/parser.rs:38-133` | plain words without a dollar sign come back exactly |
| `Shell.ComesBackExactlyWhenPlain` | `crates/tools-provider/src/tools/sandbox/parser.rs:38-133` | a command comes back from its normal form exactly if all its words are plain, and its flag exactly if it says what they show |
| `Shell.NormalFormIsStable` | `crates/tools-provider/src/tools/sandbox/parser.rs:38-53` | normalizing again changes nothing |

## Left out

- HTTP, cookies, uploads, process spawning, tool transports, the client notifications and the prompt texts: input and output, or constant text.
- The texts of error messages; errors are constructors.
- A client that subscribes again to a turn it has left. Receivers of the global broadcast are not modelled, only its log.
- Json.ParseInvertsPrint: a number with a fraction, with an exponent or beyond 64 bits stands for its text. The double it becomes, the text the library prints for that double (`-0` is printed as `-0.0`) and the last bit its fast conversion may lose are not modelled.
- HistoryRecovery.ToolCallComesBack: likewise, and so for the lemmas on whole histories below it.
- Json.NumberValue: a number is refused from the value on that rounding to nearest makes infinite; the library, which rounds in several steps, may decide otherwise within the last bits below that limit.
- Protocol.FencedCallComesOut: what a body describes is an arbitrary function of its text.
- The JSON decoding of frames (`decode_value` and below): an arbitrary step of the frame decoder.
- The regular expression that cleans deltas and the readers of calls and tags in `Protocol`: arbitrary functions.
- The regular expression engine: `Glob` reads back the fragment that the compiler emits and gives it its documented meaning. A compiled expression beyond the engine's size limit is not modelled.
- Timing, back-off delays, clocks and the scheduling of tasks below one step of an operation. The clock of a commit is a parameter.
- The steps of `drain` in `Protocol` and the reading of one character in `Shell` are functions on values; the loops around them are methods.
- The counters that saturate at 64 bits are modelled so where they are compared or shown (sequence numbers, event counts, generations, turn counts); the suffix of a renamed identity and the sum of tool calls are unbounded, since no set in memory comes near the limit.
- A fenced tool block whose closing fence is cut in two: it is not rejoined, so there is no independence of chunks to state. A fence that arrives whole is covered, whatever the pieces of the block before it.
- Store.Store.AcquireBusy: whether a lock is ours, stale or to be left alone is given, and a lock of this process is not stale; `LockFiles` says from the texts of the files exactly when that is right. Removing a lock is taken to succeed.
- Store.Store.DeleteSession: the removal of old snapshot files beside the session file.
- Calls.ToolResult: the directories and the cancellation flag handed to a tool, and the picture of a tool beyond its kind and status.
- AgentLoop.Run: the prompt that is made from the messages, the model name, the references and the reasoning budget of a request.
- Frames.FeedDecodedText: does not stop at frames that report a block or a backend error; `SnapshotDelta.FeedFrames` does.
- Frames.ReadStream: likewise, only the size limit stops it.
- SnapshotDelta.Attempt: what one HTTP attempt brings is given as frames, chunk by chunk.
- A crash of the process in the middle of an operation, and several processes on one directory.
- `TurnManager`, the sandbox policy, the tool cards and the model tables.
