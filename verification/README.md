# g3log, modelled and verified

g3log moves log messages from the threads of a program to sinks through two layers of active objects:
one worker with a job queue, and one queue and thread per sink. This project models that machinery, the
global state in front of it and the sequential code beside it, and proves what they guarantee.

How the files fit together:

- `SharedQueue.dfy`: the queue under every active object, as a lock/wait/notify protocol over any number
  of operations (`SharedQueueProtocol`) and as a class of critical sections (`SharedQueue`).
- `ActiveObject.dfy`: one active object and all its runs; the run loop as a class.
- `Pipeline.dfy`: the whole pipeline as a labelled transition system. A step is the smallest piece of code
  another thread can observe. Any number of client threads, sinks, messages and handle calls.
  `PipelineSpec.dfy` says what the pipeline is for as functions of the worker's job history alone
  (`Slice`, `RegistryAfter`, `Orphans`); `PipelineOwnership`, `PipelineDelivery` and `PipelineFutures` hold
  the inductive invariants, `PipelineTheorems`, `PipelineShutdown`, `PipelineProgress` and `PipelineOrder`
  the results, `PipelineFlush` and `PipelineEnding` when the fatal exit and the destructor wait for a sink,
  `PipelineWitnesses` concrete runs that show where a promise needs its premise.
- `LogWorkerImpl.dfy`, `Sinks.dfy`, `MoveOnCopy.dfy`: the jobs, the sinks with their handles and futures,
  and the move-on-copy wrapper, as classes over objects.
- `GlobalLogger.dfy`, `FatalHook.dfy`, `FatalDefault.dfy`, `FatalMock.dfy`: the active-worker pointer, the
  first message logged too early, and the pre-fatal hook, with the signals it runs into, under any handler,
  the default one and one that returns, over whole runs of a process. `LoggedMessages.dfy` runs the global
  pointer and the pipelines of all workers together.
- `TimeFormat.dfy`, `CrashHandler.dfy`, `StackDump.dfy`, `LogLevels.dfy`, `FileSink.dfy`: the sequential
  cores. `DefaultLoggers.dfy` joins the file sinks to the pipeline.

Where the source updates state in place there is a class whose methods are proved equal to a specification
function; the results below are about those functions and, through them, about the methods.

Where code and documentation disagree, the model follows the code:

- The comment at src/logworker.cpp:87-90 says that messages arriving after the destructor's wait are never
  executed. They are, as long as they are queued before the stop request, and find no sinks
  (`PipelineWitnesses.MessageBehindTheClearJobIsReported`).
- A fatal message before the first initialization never reaches the report of src/g3log.cpp:235-242: the
  pre-fatal hook is then still an empty `std::function`, and running it aborts the process
  (`FatalDefault.UninitializedFatalTerminates`). Where g3log already handles SIGABRT, after an
  initialization or an explicit installation, the abort is reported in the message's stead
  (`FatalDefault.EmptyHookExactly`, `FatalDefault.EmptiedHookIsReported`).
- The comment at src/g3log/loglevels.hpp:153-155 lists four levels that remain after a reset; ERROR
  remains too.
- src/g3log/loglevels.hpp:160-163 promises that `setHighest` enables exactly the levels from the given one
  up. A level that was looked up while absent, and not added, set or reset since, breaks this;
  `LogLevels.SetHighestKeepsItsPromiseExactly` gives the exact condition.
- `changeLogFile` writes the log header to the file it leaves, not to the new one
  (`FileSinks.HeaderGoesToTheOldFile`).

Premises that the theorems carry because the code needs them: nobody outside the registry holds a strong
reference to a sink when the worker lets go of it, where a flush is claimed (`outlived`); no plain
`installCrashHandler` while signal actions are saved; distinct file names; times since the epoch for pure
digits. For the two ends of the pipeline, the signals, the files and the digits the premise, or the
condition it is a case of, is one side of an if-and-only-if.

## Model

| member | source | states |
|---|---|---|
| SharedQueueProtocol.FifoUnderMutualExclusion | src/g3log/shared_queue.hpp:38-67 | in every interleaving of pushes, blocking and non-blocking pops, items leave in the order they entered, none lost or doubled, and one operation at a time holds the lock |
| SharedQueueProtocol.PopsReturnWhatWasPushed | src/g3log/shared_queue.hpp:38-67 | in every interleaving the i-th pop to take returns the item that the caller of the i-th push to enter passed, and no other call returns an item |
| SharedQueueProtocol.CallsKeepTheirKind | src/g3log/shared_queue.hpp:38-67 | in every run a push enters its own item and returns nothing, a blocking pop returns only with an item, a try with an item or nothing |
| SharedQueueProtocol.AnyoneCanCome | src/g3log/shared_queue.hpp:38-67 | any call can be made at any time, a wait can end for no reason, and the lock is free exactly when no operation is inside it |
| SharedQueueProtocol.GivesUpOnlyWhenEmpty | src/g3log/shared_queue.hpp:47-67 | a try gives up, and a consumer starts to wait, exactly when as many items have left as entered |
| SharedQueueProtocol.NoLostWakeup | src/g3log/shared_queue.hpp:38-67 | while a consumer waits, there are at least as many pending notifications and woken or looking consumers as queued items, with spurious wake-ups and late consumers that steal items |
| SharedQueueProtocol.WaitingConsumerIsServed | src/g3log/shared_queue.hpp:58-67 | a waiting consumer and a non-empty queue never stand still: an operation in progress can step without a new call or a spurious wake-up |
| SharedQueueProtocol.BoundedService | src/g3log/shared_queue.hpp:38-67 | without new calls and spurious wake-ups every schedule stops within a bound read off the operations in progress, and then nobody waits beside a queued item |
| SharedQueue.SharedQueue.Push | src/g3log/shared_queue.hpp:38-44 | the item becomes the last one |
| SharedQueue.SharedQueue.TryAndPop | src/g3log/shared_queue.hpp:47-55 | nothing from an empty queue, otherwise the oldest item and the rest stays in order |
| SharedQueue.SharedQueue.WaitAndPop | src/g3log/shared_queue.hpp:58-67 | the oldest item, the rest stays in order |
| ActiveRuns.HistoryIsConserved | src/g3log/active.hpp:38-56 | over every run, executed ++ in hand ++ queued is exactly what was sent |
| ActiveRuns.ExecutesThroughFirstDone | src/g3log/active.hpp:38-54 | exactly the prefix up to and including the first stop request runs; the loop has ended exactly when that prefix was executed; nothing sent after it ever runs |
| ActiveRuns.RunLoop.Run | src/g3log/active.hpp:38-44 | the loop executes the queue through its first stop request and leaves the rest |
| ActiveRuns.RunLoop.Destroy | src/g3log/active.hpp:51-54 | everything sent before the destructor has run when it returns |
| PipelineTheorems.Conservation | src/logworker.cpp:23-36 | in every reachable state of every interleaving, for each sink: messages executed, in hand, queued at the sink, still owed by the job in hand and owed by the queued jobs are exactly the sink's slice of the worker's history |
| PipelineTheorems.ReachableDelivery | src/logworker.cpp:114-127 | the invariant behind it over every run, and the worker's history is what the callers sent |
| PipelineSpec.SliceIsContiguous | src/logworker.cpp:122-127 | a sink's slice is the messages of one contiguous stretch of the history, from just after its add job to the job that removes it, with nothing skipped |
| PipelineSpec.PresentIffRegistered | src/logworker.cpp:122-127 | standing as receiver is the same as being in the registry while the loop runs |
| PipelineOrder.LogMessagesKeepOrder | src/logworker.cpp:114-116 | each sink executes a prefix of its slice, in worker order |
| PipelineOrder.HandleCallsKeepOrder | src/g3log/sink.hpp:65-71 | each sink executes a prefix of the handle calls, in the order they were enqueued |
| PipelineWitnesses.HandleCallCanOvertakeSave | src/g3log/sink.hpp:61-71 | the merged order is only an interleaving: a run in which a handle call passes an earlier save |
| PipelineOwnership.NoUseAfterDestruction | src/g3log/sink.hpp:57-63 | over all runs no queued job executes on a destroyed sink, whichever thread dropped the last reference, and nothing is sent to a sink whose destructor has begun |
| PipelineOrder.DestroyedSinkRanEverything | src/g3log/sink.hpp:57-59 | a destroyed sink has run every handle call any client enqueued on it and every message the worker's jobs gave it, in order, the stop request last |
| PipelineOwnership.LivesExactlyWhileReferenced | src/g3log/sinkhandle.hpp:36-49 | the destructor has begun exactly when registry, add job and clients hold no strong reference |
| PipelineOwnership.WaitingJobIsNotTheLastReference | src/logworker.cpp:122-127 | while its future is unresolved, the reference inside an add job is not the last one; it is resolved with the job still there exactly while ~Active destroys that job |
| PipelineWitnesses.DiscardedJobCanDestroyItsSink | src/g3log/active.hpp:51-54 | after that it can be: a run in which a job that never ran holds the last reference and freeing it destroys the sink inside the reset of `_bg` |
| PipelineFutures.ResolvedAtMostOnce | src/g3log/future.hpp:45-64 | a resolved future keeps its result over every continuation of the run |
| PipelineFutures.CallFutureIsWhereItsTaskIs | src/g3log/sinkhandle.hpp:36-49 | a handle call's future has a value exactly when the sink executed the call, an error exactly when the sink had expired, and is open exactly while caller, queue or hand own the task |
| PipelineFutures.AddFutureIsWhereItsJobIs | src/g3log/future.hpp:45-64 | the future addSink waits for: value when the job ran, broken from the moment the job that never ran is destroyed, error when the worker was gone |
| PipelineFutures.DestroyedSinkLeavesNoOpenCall | src/g3log/sinkhandle.hpp:36-49 | no caller is left waiting on a destroyed sink |
| PipelineShutdown.FatalIsTheLastJob | src/logworker.cpp:38-75 | at process exit the fatal job is the last one taken, nothing queued behind it (a second fatal included) ran, and no step of any thread is possible |
| PipelineShutdown.FatalIsTheLastMessage | src/logworker.cpp:38-75 | every sink registered then, and not held by a client, has executed all earlier messages and the fatal one last |
| PipelineShutdown.FatalMessageArrivesWhole | src/logworker.cpp:46-66 | that last message has the level and the text with which some thread raised it, and the closing lines |
| PipelineShutdown.FatalIsSent | src/logworker.cpp:63-66 | at the exit every registered sink, whoever holds it, has been sent everything owed to it with the fatal message last |
| PipelineFlush.FlushedExactly | src/logworker.cpp:68-71 | a sink with messages waiting, as the worker lets go of it on the way to the fatal exit, is flushed in every continuation to the exit if and only if no client holds it at that moment |
| PipelineFlush.ExitsWithoutWaiting | src/logworker.cpp:68-71 | from every reachable state on that way, while a client holds a sink, there is a continuation to the exit in which that sink takes no step |
| PipelineEnding.DrainedExactly | src/logworker.cpp:68-112 | a sink with tasks left, as the registry lets go of it on the way to either end, has executed them all at the end of every continuation, by the destructor or a fatal message, if and only if no client holds it at that moment |
| PipelineEnding.EndsWithoutWaiting | src/logworker.cpp:77-112 | from every reachable state, while a client holds a sink, there is a continuation to the end of the destructor, or to the exit of a queued fatal message, in which that sink takes no step |
| PipelineWitnesses.HeldSinkCanMissTheFatalMessage | src/logworker.cpp:68-71 | the premise is needed: a handle call in flight lets the process exit before the sink executed anything |
| PipelineShutdown.RegisteredSinkIsDrained | src/logworker.cpp:91-93 | once the registry is gone, every sink it held alone is destroyed and has executed all it was sent |
| PipelineShutdown.ShutdownConservation | src/logworker.cpp:77-112 | at the end of the destructor every job before the stop request has run, each sink has its slice, messages without sinks were reported once, and only jobs behind the stop request were discarded |
| PipelineShutdown.SavedMessageIsAccountedFor | src/logworker.cpp:23-36 | a saved message belongs to exactly the sinks registered when its job ran, or to the stderr report when there was none |
| PipelineWitnesses.MessageBehindTheClearJobIsReported | src/logworker.cpp:91-111 | a message between the clear job and the stop request runs and is reported |
| PipelineProgress.CallsAreTaken | src/logworker.cpp:77-127 | until the process exits no call is turned away: addSink gets a worker or an answer, both only while the destructor joins; every returned handle can be called; messages are taken until the worker's thread has been joined |
| PipelineProgress.NoDeadlock | src/g3log/logworker.hpp:31-45 | in every reachable state all is quiet, the process has exited, or a thread in the middle of something can step |
| PipelineProgress.DrainsInBoundedTime | src/g3log/logworker.hpp:31-45 | when nobody starts anything new, every schedule stops within a bound read off the state |
| PipelineProgress.QuietMeansDelivered | src/logworker.cpp:23-36 | and then each sink has executed exactly its slice |
| LogWorkerImpl.LogWorkerImpl.BgSave | src/logworker.cpp:23-36 | each sink gets one message with the level and text of the saved one, it is reported if and only if there is no sink, and no two sinks share a message object |
| LogWorkerImpl.LogWorkerImpl.BgFatal | src/logworker.cpp:38-70 | each sink gets one more message, with the level and text of the fatal one and the closing lines, and the registry ends empty |
| LogWorkerImpl.LogWorkerImpl.SinkRewrites | src/logworker.cpp:26-29 | a sink that changes its message changes nothing another sink received |
| LogWorkerImpl.LogWorkerImpl.AddWrappedSink | src/logworker.cpp:122-127 | the registry follows the specification's RegistryNext |
| LogWorkerImpl.LogWorkerImpl.ClearSinks | src/logworker.cpp:91-93 | the registry follows the specification's RegistryNext |
| Sinks.SpawnTask | src/g3log/future.hpp:45-64 | a fresh future: an error for a null worker, otherwise open and owned by the queued task |
| Sinks.Sink.Send | src/g3log/sink.hpp:61-63 | the message is enqueued behind everything else, and the queue's promises stay distinct and open |
| Sinks.Sink.Async | src/g3log/sink.hpp:65-71 | a fresh open future, its task last in the queue |
| Sinks.Sink.RunThread | src/g3log/active.hpp:38-44 | the sink's loop resolves each call with what was received before it and never resolves a promise twice |
| Sinks.Sink.Destroy | src/g3log/sink.hpp:57-59 | everything sent runs on a real sink that still exists, all futures are answered, and only then the real sink is destroyed |
| Sinks.Sink.Release | src/g3log/sinkhandle.hpp:36-49 | the sink is there exactly while somebody holds a reference, and the last one to go drains and destroys it |
| Sinks.SinkHandle.SinkCall | src/g3log/sinkhandle.hpp:36-49 | an expired sink gives an error at once, a live one an open future, and the temporary reference is gone afterwards |
| MoveOnCopy.MoveOnCopy.Copy | src/g3log/moveoncopy.hpp:21 | the copy has the content, the original has none |
| MoveOnCopy.MoveOnCopy.Assign | src/g3log/moveoncopy.hpp:24-27 | the content moves; assigning to itself keeps it |
| MoveOnCopy.EveryPayloadHasOneOwner | src/g3log/moveoncopy.hpp:17-39 | through any run of makes, copies, assignments, releases and destructions a payload is gone or held by exactly one wrapper |
| MoveOnCopy.GoesExactly | src/g3log/moveoncopy.hpp:17-39 | a payload goes exactly when its wrapper is released, destroyed or assigned to from another one, and who gave its payload away is empty |
| MoveOnCopy.ChainEndsInOneCell | src/g3log/moveoncopy.hpp:21-22 | a chain of copies leaves the payload in the last copy only |
| GlobalLogger.BeforeInitialize | src/g3log.cpp:209-223 | over every run without an initialization, nothing is delivered to anybody, and the first message logged, and no other, is kept with its note |
| GlobalLogger.ActiveWorkerIsAlive | src/g3log.cpp:60-88 | over every legal run the active pointer is null or a live worker |
| GlobalLogger.DestroyAffectsOnlyItsOwnWorker | src/g3log.cpp:135-149 | destroying a worker leaves another active one in place, tells that one so by a warning if the level is enabled, and gives the destroyed one nothing |
| GlobalLogger.InitializesExactly | src/g3log.cpp:60-88 | the process exits if and only if a logger is active already or the worker is null, and then nothing else changes; otherwise the worker is active, the hook disarmed and the counter zero |
| GlobalLogger.EarlyMessageKeepsItsText | src/g3log.cpp:212-222 | the kept message has its own level and its own text behind the note |
| GlobalLogger.FirstEarlyMessageIsDeliveredOnce | src/g3log.cpp:75-82 | every run: the first message before the first initialization goes, once and ahead of everything else, to that worker; apart from it each worker gets exactly what a logger without memory would give it |
| GlobalLogger.AfterFirstInitialize | src/g3log.cpp:209-227 | from the first initialization on, messages logged without a logger are never delivered |
| FatalHook.FatalFromThousandOn | src/loglevels.cpp:16 | a message is fatal exactly from level 1000 on: it begins, under either handler, and with the default one never returns; below, it is saved to the active worker and nothing else happens but the keeping of the first early message |
| FatalHook.FuelDoesNotMatter | src/g3log.cpp:163-174 | the nesting bound is no part of the meaning: a result within it is the result of the unbounded code |
| FatalMock.MockEndsExactly | src/g3log.cpp:164-198 | under a handler that returns, a walk over the hook bodies decides every outcome: the call returns, with a certain hook left armed, or the process ends, or the thread sleeps behind an earlier signal, or every bound is outrun, each if and only if the walk says so |
| FatalDefault.DefaultEndsExactly | src/g3log.cpp:164-173 | with the default handler the chain of hooks, each armed before the first fatal message or crash of the one before, decides every outcome: terminated if and only if it meets a signal that g3log does not handle (SIGABRT for the empty hook), asleep if and only if it meets a signal behind an earlier one, unbounded if and only if it is endless, otherwise blocked if and only if there is a logger and exited if and only if there is none |
| FatalDefault.EmptyHookExactly | src/crashhandler_unix.cpp:48-82 | a fatal message that meets the empty hook is never reported itself: the process ends if and only if g3log does not handle SIGABRT, the thread sleeps if and only if it does and a signal came before, and otherwise the abort is reported in its stead with the recursive-crash note |
| FatalDefault.EmptiedHookIsReported | src/g3log.cpp:97-101 | such a run: create, initialize, set the empty hook, log a fatal message; the worker gets the report of the abort |
| FatalDefault.UninitializedFatalTerminates | src/g3log.cpp:49 | before the first initialization, when the program sets no hook and leaves the signals alone, a fatal message ends the process without a report |
| FatalDefault.AbortIsOwnedExactly | src/g3log.cpp:61 | over every run that leaves the signals alone, g3log handles SIGABRT exactly from the first initialization on |
| FatalHook.SelfArmingHookNeverEnds | src/g3log.cpp:164-173 | a hook that arms itself and raises a fatal message outruns every bound |
| FatalHook.HookRunsOnce | src/g3log.cpp:164-173 | a hook that nobody re-arms runs exactly once, however the message ends |
| FatalHook.NoteMeansNotTheFirst | src/g3log.cpp:168-185 | under a handler that returns, a report carries the recursive-crash note exactly when a fatal message was counted before since the last initialization or its own hook raised one or ran into a signal, so an unrelated second one is flagged too |
| FatalDefault.NoteOnTheSentReport | src/g3log.cpp:168-185 | with the default handler the report that is sent carries it exactly when a fatal message was counted before or the hook of the call raised one, crashed or was empty, and it shows the first trace of the process |
| FatalHook.EveryNoteShowsTheFirstTrace | src/g3log.cpp:172-185 | over every run of a process, through any number of initializations, every note shows the stack trace of the very first fatal message, signals included |
| FatalDefault.InnermostFatalIsSent | src/g3log.cpp:234-248 | the one report of the call is the message at the end of that chain (an aborted or crashed hook ends it in the report of its signal), with its own text and trace, as the last and only fatal job of the call; no outer message is ever finished |
| FatalDefault.SentTextExactly | src/g3log.cpp:174-190 | the job handed to the worker has that message's level, and its text followed by its stack trace and, if and only if a fatal message was counted before or the hook of the call raised one, crashed or was empty, by the first trace of the process |
| FatalDefault.SignalExactly | src/crashhandler_unix.cpp:48-82 | a signal ends the process if and only if the system's action for it is not g3log's, puts its thread to sleep if and only if one came before, and is otherwise reported as fatal with its text and trace |
| FatalDefault.UnreportedExactly | src/g3log.cpp:234-243 | over every run of a process, a fatal message ends the process unreported if and only if the chain, from the hook and the signal actions left by everything so far, ends in a signal that g3log does not handle; it puts its thread to sleep unreported if and only if the chain ends behind an earlier signal; and a report is made if and only if it ends in a message |
| FatalDefault.ProcessGoesOnExactly | src/g3log.cpp:234-248 | other threads go on after a fatal message exactly when the chain ends behind an earlier signal, or in a message and there is a logger |
| FatalDefault.OutlineIsReadOff | src/g3log.cpp:58-101 | over every run of a process with the default handler, fatal messages and signals included, the armed hook, the signal actions and the one-shot flags are those read off what happened alone |
| FatalDefault.EmptyExactly | src/g3log.cpp:49 | before the first fatal message or signal the hook is empty exactly when every initialization and every hook that was set has been followed by setting the empty function |
| TimeFormat.FractionHasItsDigits | src/time.cpp:53-84 | since the epoch: exactly 3, 6 or 9 digits, which read back as the floored count |
| TimeFormat.FractionExactly | src/time.cpp:53-84 | for every time: throws exactly when the minus sign does not fit, and is all digits exactly since the epoch or when the count is zero |
| TimeFormat.SignStandsInside | src/time.cpp:53-84 | before the epoch a value that fits and is not zero is zeroes, the sign, and digits that read back as the count |
| TimeFormat.MarkerBecomesItsDigits | src/time.cpp:31-49 | wherever %f3, %f6 or %f9 stands in a format, it becomes three, six or nine digits that read back as the milliseconds, microseconds or nanoseconds of the second, and the text on both sides is rewritten on its own |
| TimeFormat.BareMarkerBecomesNineDigits | src/time.cpp:31-49 | a bare %f becomes nine digits, the nanoseconds |
| TimeFormat.DigitsAreDecimals | src/time.cpp:53-84 | what reading back means: each character is the decimal of its place |
| TimeFormat.CoarserIsPrefix | src/time.cpp:53-84 | milliseconds are a prefix of microseconds, which are a prefix of nanoseconds |
| TimeFormat.LocaltimeFormattedFractions | src/time.cpp:86-107 | the loop over the growing buffer ends and equals the one-pass left-to-right rewriter |
| TimeFormat.Find | src/time.cpp:91-93 | the first marker from the position on, or none |
| TimeFormat.NoMarkerIsLeft | src/time.cpp:86-107 | the result holds no marker, not even one made of a value and the text around it |
| TimeFormat.RewriteIsIdempotent | src/time.cpp:86-107 | a second application is the identity, whatever its time |
| TimeFormat.RewriteConcat | src/time.cpp:86-107 | formats rewrite piece by piece at every cut that splits no marker |
| TimeFormat.ThrowsExactly | src/time.cpp:86-107 | formatting throws exactly when a marker of the format asks for a value that does not fit, never since the epoch |
| CrashHandler.Handlers.InstallSignalHandler | src/crashhandler_unix.cpp:87-110 | the loop takes over every listed signal the system accepts and saves what was there |
| CrashHandler.Handlers.OverrideSetupSignals | src/crashhandler_unix.cpp:271-280 | gives back the listed signals, then takes over the new list |
| CrashHandler.InstallTakesTheFive | src/crashhandler_unix.cpp:40-43 | the first installation takes over and saves exactly SIGILL, SIGABRT, SIGFPE, SIGSEGV and SIGTERM |
| CrashHandler.OverrideTakesItsSignals | src/crashhandler_unix.cpp:271-284 | under the condition of FaithfulExactly an override takes over exactly the listed signals and gives back all others, and restoring to default takes over the five |
| CrashHandler.Handlers.ExitWithDefaultSignalHandler | src/crashhandler_unix.cpp:225-236 | which action the raised signal meets |
| CrashHandler.FaithfulExactly | src/crashhandler_unix.cpp:87-110 | over every run the table differs from the original exactly on the saved signals and what is saved is the original, if and only if no plain install met a saved action; afterwards nothing repairs it |
| CrashHandler.RaisedSignalMeetsOriginalAction | src/crashhandler_unix.cpp:225-236 | under that condition every raised signal meets its pre-g3log action, and an empty override gives the whole table back |
| CrashHandler.RestoreGivesBackOne | src/crashhandler_unix.cpp:253-267 | under that condition restoring one signal gives back its original action and touches no other signal, and restoring it again does nothing |
| CrashHandler.OtherwiseSomeSignalMeetsOwn | src/crashhandler_unix.cpp:225-236 | without it some raised signal meets g3log's own handler |
| CrashHandler.OverrideBeforeInitialize | src/g3log.cpp:61 | that happens when signals are overridden before logging is initialized |
| StackDump.FindPieces | src/crashhandler_unix.cpp:152-163 | the last '(' and the last '+' before the first ')' |
| StackDump.SplitLine | src/crashhandler_unix.cpp:152-170 | three characters of the buffer become NUL and the four pointers read the four pieces, or the buffer stays as it was |
| StackDump.SplitRejoins | src/crashhandler_unix.cpp:165-170 | the pieces with their separators are the line again |
| StackDump.SplitExactly | src/crashhandler_unix.cpp:165-170 | a line is split if and only if it has the form file(name+offset)address |
| StackDump.CutIsUnique | src/crashhandler_unix.cpp:154-163 | such a cut is unique and is the one found |
| LogLevels.LevelRegistry.SetHighest | src/loglevels.cpp:47-58 | the loop over the map it updates equals the fold over its keys in order |
| LogLevels.LevelRegistry.LogLevel | src/loglevels.cpp:110-117 | true exactly for an enabled level, and inserts the default entry for an absent one |
| LogLevels.LevelRegistry.AddLogLevel | src/loglevels.cpp:33-36 | the whole new map |
| LogLevels.LevelRegistry.SetAll | src/loglevels.cpp:71-81 | every entry gets the status and nothing else changes |
| LogLevels.SetIsReadBack | src/loglevels.cpp:60-65 | after any run, what is set on a present level is read back by getStatus and logLevel, every other level keeps its status, and no level is added |
| LogLevels.AddIsReadBack | src/loglevels.cpp:33-38 | after any run, an added level has the status it was added with and no other level is touched |
| LogLevels.SetAllIsReadBack | src/loglevels.cpp:71-81 | after any run, every level that is there has the status and none is added |
| LogLevels.ResetEnablesTheFive | src/loglevels.cpp:19-26 | after a reset, and at the start, exactly DEBUG, INFO, WARNING, ERROR and FATAL are there, all enabled |
| LogLevels.SetHighestIgnoresUnknown | src/loglevels.cpp:47-58 | on a level that is not there it changes nothing |
| LogLevels.SetHighestExactly | src/loglevels.cpp:47-58 | on every map that can arise: same keys, exactly the levels from the given one up enabled, except that stray entries are passed over and act on INFO |
| LogLevels.SetHighestKeepsItsPromiseExactly | src/g3log/loglevels.hpp:160-163 | after any run, setHighest does what is documented if and only if the stray entries already have the right status and none switches INFO on |
| LogLevels.CoherentSetHighest | src/loglevels.cpp:47-58 | with coherent keys it always does, and stays coherent |
| LogLevels.SetHighestIsIdempotent | src/loglevels.cpp:47-58 | a second call changes no entry, on every map that can arise |
| LogLevels.StraysExactly | src/loglevels.cpp:33-69 | looking up an absent level other than INFO's number is the only call that loses coherence; adding, setting or resetting restores it |
| LogLevels.LookedUpLevelStaysDisabled | src/loglevels.cpp:110-117 | an absent level becomes disabled by being looked up, other levels keep their status, and setHighest cannot enable it |
| FileSinks.StepLogs | src/filesink.cpp:87-137 | what each call does to the messages of every file: a save adds the accepted message to the current one only, a failed change adds none, a successful one empties the new file only |
| FileSinks.FileStartsWithHeader | src/filesink.cpp:87-100 | without a change the file is the header, from the first message on even if that is not accepted, and then exactly the accepted messages |
| FileSinks.LoggedByNumber | src/filesink.cpp:94-96 | without a change the log holds exactly the messages whose level is the minimum or above, each once, the one with n such messages before it in the n-th place |
| FileSinks.NothingIsLostExactly | src/filesink.cpp:87-137 | over every run of writes and changes, the files together hold exactly the accepted messages in order if and only if no file with messages was opened again |
| FileSinks.DistinctFilesLoseNothing | src/filesink.cpp:102-137 | with distinct names each file holds the messages of its own time |
| FileSinks.FailedChangeChangesNothing | src/filesink.cpp:114-121 | a failed change leaves file, name and messages as they were, but for one line |
| FileSinks.HeaderGoesToTheOldFile | src/filesink.cpp:123-136 | the header goes to the file being left; the new one gets one exactly when no message had come yet |
| DefaultLoggers.LaterMessagesAreShared | src/logworker.cpp:133-146 | from the moment two sinks are registered they are owed the same messages, over every continuation of the run |
| DefaultLoggers.DrainedLogFile | src/logworker.cpp:133-146 | in a quiet pipeline a file sink's log is its level filter of the slice, split at any point of the worker's history |
| DefaultLoggers.LevelsNameDistinctFiles | src/filesinkhelper.ipp:116-125 | the level in the name keeps the files of one program's sinks apart, whatever the directories and times |
| DefaultLoggers.SharedDiskIsLikeAlone | src/filesink.cpp:87-100 | sinks with files of their own on one disk each leave, in every interleaving of openings and writes, the log that their own messages make |
| DefaultLoggers.DefaultLogsTakeTheirLevels | src/logworker.cpp:133-146 | a message all three sinks have written is in the ERROR, WARNING and INFO log exactly from level 800, 500 and 300 on |
| DefaultLoggers.DefaultLoggersNest | src/logworker.cpp:133-146 | in a quiet pipeline, on the disk the sinks share and however their threads take turns, the three log files each continue what their sink accepted before all three were registered, and beyond that the ERROR file is the level filter of the WARNING file, and that of the INFO file |
| LoggedMessages.EveryCallReachesItsPipeline | src/g3log.cpp:209-248 | over every joint run of a program and the pipelines of all its workers, each call of save, fatal and the destructor is possible in the pipeline it concerns, the destructor has begun exactly for the workers that are not alive, and the jobs a worker was handed are those the globals have given to it |
| LoggedMessages.GivenIsLogged | src/g3log.cpp:209-248 | and these are, over every joint run, the first early message and then everything logged or raised while the worker was the active one, which it is no longer once some worker takes a fatal job |
| LoggedMessages.SinkExecutesWhatWasLogged | src/g3log.cpp:209-227 | from the log call to the sink: in a quiet pipeline each sink has executed exactly a contiguous stretch of what the program logged to its worker through the global pointer, from its add job to its removal |
| LoggedMessages.FatalExitExecutesWhatWasLogged | src/g3log.cpp:234-248 | and at the exit by a fatal message, each registered sink that no client held has executed what was logged from its add job on, up to and including that message, which arrives with its level and text |

## Left out

- Memory model: calls of g3log.cpp are atomic steps and atomics are sequentially consistent. The source
  reads the logger pointer without a lock between check and use; interleavings inside such a call are not
  covered.
- Real time and the operating system: threads, signals, `kill`, `exit`, `backtrace`, `strftime`,
  `localtime_r`, `symlink` and file I/O are atomic steps, parameters or abstract maps. Process exit is one
  step.
- The names of the signals in `gSignals`, which only reach an error text; signal numbers are those of Linux.
- Demangling and text: `__cxa_demangle`, the layout of log lines, the wording of notes and stderr reports,
  `vsnprintf` formatting and truncation.
- User callbacks that call back into the pipeline: a sink callback that calls its own handle, or that saves
  messages, is a client step of its own in the pipeline, not part of the callback.
- Exceptions thrown by user code: sink callbacks, handle calls and fatal handlers of unit tests return.
- `std::vector::clear` order: the registry is emptied front to back, one element at a time.
- The race of `unique_ptr::reset` on the worker's `_bg`: the pointer reads as null from the reset on, but a
  client that read it earlier may still push while the destructor joins; jobs pushed then are discarded.
- LoggedMessages.GivenIsLogged: a fatal message enters at the end of `fatalCall`, as the one that
  `FatalDefault.InnermostFatalIsSent` identifies; its hooks are not run again there.
- PipelineProgress.NoDeadlock: does not model a fatal message raised on a sink's or the worker's own thread,
  which then sleeps in src/g3log.cpp:245-247 and is joined for ever when the registry is cleared; a sink
  callback always returns here.
- Sinks.SinkHandle.SinkCall: runs on its own, so its temporary reference is never the last one; the
  pipeline covers the other case.
- LogWorkerImpl.LogWorkerImpl.BgFatal: stops before the process exit, and the draining of the cleared sinks
  is in the pipeline and in `Sinks.Sink.Destroy`.
- FatalHook.RankedHooksTerminate: a sufficient condition for any handler, without a row of its own;
  `FatalDefault.DefaultEndsExactly` and `FatalMock.MockEndsExactly` are the exact ones.
- FatalDefault.DefaultEndsExactly: a signal is a call of its handler. A signal that comes while its own
  handler runs, which the system holds back or answers by ending the process, counts as any later signal; a
  faulting instruction is not run again when a handler returns; an unhandled signal ends the process,
  whatever action is set for it; signal handlers of the program itself are not modelled. The dump of an
  abort is a parameter.
- FileSinks.NothingIsLostExactly: a change to the current file's own name also overlays the notices of the
  two streams; only log messages are counted.
- TimeFormat.FractionHasItsDigits: times are unbounded numbers of nanoseconds; the 64-bit range of
  `std::chrono` and coarser system clocks are not modelled.
- `isValidFilename`, path sanitising, `LOG_EVERY_N` counters, `LEVELS` and `atomicbool` as classes,
  `custom_sink.cpp`, gflags and the Windows files: they would only add easy members.
