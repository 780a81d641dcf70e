# A verified model of the libclues tracing core

libclues follows processes with ptrace(2): it waits for their events, keeps a
state machine per tracee, tells a consumer about system call entries and exits,
signals, new tasks and deaths, and decodes what the calls refer to in the
tracee's memory. This project models that core in Dafny and proves what callers
rely on.

## How the project is laid out

| files | what they model |
|---|---|
| `TraceeModel`, `TraceeRuns`, `TraceeResumes`, `TraceeStops`, `TraceeEnds` | one tracee as a step system over wait events; what holds in every run of it, and what each event is told as |
| `EngineModel`, `EngineRuns`, `EngineCallbacks`, `EngineFaults`, `EngineEvents` | the supervisor of many tracees; what holds in every interleaving of their events, and which failures leave it |
| `Tracing`, `Supervising` | the `Tracee` and `Engine` objects as the source has them: fields and maps updated in place, every method proved to have the effect of the step system |
| `TermTracer`, `Transcript`, `ConsumerStream`, `ParameterPrinting` | the terminal tracer's books of half printed calls, whether what it prints can be read, what the engine's callbacks mean for both, and split printing of parameters |
| `FdTracking`, `FdSharing`, `FdContents` | the mirror of descriptor tables next to the kernel's tables, shared or copied, and what its entries say |
| `CallLayout`, `CallReuse`, `CallSignatures`, `CallObjects` | reused system call objects whose parameter lists are rebuilt for each call, and what each call's are to be |
| `Bytes`, `ControlMessages`, `DirEntries`, `TraceeMemory`, `Buffers` | decoders and word-wise reads of tracee memory |
| `SyscallTable`, `SourceGenerator` | the generator of the system call enums, name tables and switches |

The kernel is a nondeterministic event source. Whatever the tracer asks it for
is an input of the step (the record `Answers`): each ptrace request may succeed,
fail because the tracee is gone, or be refused. The consumer may call `detach()`
inside any callback. What the kernel keeps is stated as predicates: a tracee that
was not restarted says nothing more except its exit event and its death
(`TraceeRuns.MayReport`), new tasks get unused pids
(`EngineRuns.PlausibleTask`), successful calls return unused descriptors
(`FdTracking.Possible`). Dereferencing something that is not there, and copying
from beyond a buffer, have no defined outcome; the model lets them end in a fault.

The initial field values are explicit in `TraceeModel.Attaching` and
`EngineRuns.Fresh`.

## Where the code does something else than one may expect

The model keeps the code as it is. Each of these is proved with the condition
under which it happens, in both directions.

- `syncState()` copies no flags, so after the execve of another thread the next
  exit stop is accepted iff the main thread had been inside a call itself
  (`EngineEvents.ExitStopAfterExecExactly`).
- SYSCALL_ENTERED is set before the call object is looked up; if that lookup
  throws, the exit event of the tracee dereferences a missing call
  (`TraceeEnds.ExitEventUnsafeExactly`).
- A pending detach is looked at in traps only: a stop that is none is still
  reported (`TraceeEnds.PendingDetachIsFinal`).
- SEEN_SIGRETURN is cleared only when an ordinary call takes a look at it. If the
  kernel resumes the interrupted call with restart_syscall, the mark stays, and the
  next interrupted call can no longer be resumed once its handler has made an
  ordinary call (`TraceeResumes.MarkOutlivesRestart`,
  `TraceeResumes.InterruptedIsResumed`).
- `resumed()` is documented as the news of a SIGCONT, but the stop event that comes
  with one has taken the tracee out of GROUP_STOP by then. It is told at most once,
  to a child process, of the stop that the tracer itself lifts
  (`TraceeStops.ResumedIsOwnStop`); and `stopSignal()` is kept after any other group
  stop (`TraceeStops.RestartedAsDue`).
- The creation event of a task that a `clone3()` made dereferences the arguments
  of that call even if they could not be read; the engine is left then, with the
  task entered and nobody told (`EngineEvents.UnreadArgsFault`). Before, the call
  had been taken for one that does not share descriptors
  (`FdSharing.UnreadCloneExactly`).
- A refused detach inside `newChildProcess()` leaves an early stop of the new
  task in the stash for good (`EngineEvents.StrandedExactly`).
- The loop after an execve steps on after an erase and so passes over the
  neighbour of an erased descriptor (`FdTracking.ExecMirroredExactly`); and it
  edits a table that other tracees still share (`FdSharing.SharedExecExactly`).
- The entry for a duplicated descriptor has the source's close-on-exec flag, and
  the one for a non-blocking pidfd lacks it (`FdTracking.FlagsKeptExactly`).
- An epoll descriptor is entered as an event descriptor; the entry of a descriptor
  that dup2() replaces stays; and flags that are made up for close-on-exec lack
  O_NONBLOCK where the call that opened the file did not tell any
  (`FdContents.DescribedExactly`).
- An execve that is filtered out makes the terminal tracer forget the open line
  of another tracee, whose exit then fails the assert
  (`TerminalTracing.StepMatches`, `TerminalTracing.ForgottenCallCrashes`). This
  can happen exactly with filters that are not empty and lack one of the two exec
  calls (`TerminalTracing.SafeFiltersExactly`). The trace cannot be read from there
  on, and can be read exactly if it never happens (`Transcript.ReadableExactly`).
- If the last parameter of a call is unused, a comma is left over
  (`ParameterPrinting.SplitPrinting`).
- 32-bit senders, and the kernel, put each control message at the next multiple
  of 4, but the conversion goes on at the end of the payload: it takes the bytes
  in between for the next header and may copy from beyond the buffer. It delivers
  the messages sent iff all payloads but the last are multiples of 4
  (`ControlMessages.SentIsReceivedExactly`, `ControlMessages.OneByteOverruns`).
  The comment at `src/items/msghdr.cxx:306` takes the alignment for part of the
  length.
- Converted control messages are packed, since CMSG_LEN does not pad; a reader
  that steps by CMSG_NXTHDR finds them all iff all payloads but the last are
  multiples of 8 (`ControlMessages.AlignedReaderAgrees`,
  `ControlMessages.ShownExactly`).
- An empty padded name in a directory record comes back as a single NUL
  (`DirEntries.ParsedIsWritten`).
- A read fails if its last word is not mapped as a whole, even when all the bytes
  asked for are (`TraceeMemory.ReadBlob`). So a prefetch whose limit is no multiple
  of the word size can make the rest unreadable, namely iff the rest is no multiple
  either and the odd bytes of both together fit a word
  (`Buffers.TwoStepsSufficeExactly`).
- The generated enums compile iff the names of the tables differ in more than
  case, and none is "unknown" (`SourceGenerator.GenericIdentifiersDifferExactly`).

## Model

| member | source | states |
|---|---|---|
| TraceeRuns.CallbacksInEveryRun | src/Tracee.cxx:417-568 | in every run of one tracee entries and exits strictly alternate, starting with an entry; each RESUMED entry but a recovered first one carries the call of the most recent INTERRUPTED exit, used once; and while the tracee may report, SYSCALL_ENTERED holds iff a current call exists |
| TraceeRuns.StepKeeps | src/Tracee.cxx:885-954 | every step the kernel may cause keeps the tracee's memory of its calls in agreement with what an observer of the callbacks saw, faults and detaches included |
| TraceeRuns.RunKeeps | src/Tracee.cxx:885-954 | so does every sequence of such steps |
| TraceeRuns.BracketedMeansAlternates | src/Tracee.cxx:417-444 | the observer's verdict is equivalent to strict alternation at every position of the log |
| TraceeRuns.MatchedMeansOwed | src/Tracee.cxx:446-516 | the observer's verdict on resumptions is equivalent to each one being owed by the last interruption |
| TraceeRuns.WrongStopIsNeverReported | src/Tracee.cxx:407-444 | a stop of the wrong kind raises the mismatch error, changes nothing and is not reported; a stop that is reported is of the kind that was due |
| TraceeResumes.StopIsToldAsDue | src/Tracee.cxx:417-568 | in every run a system call stop is told as what the callbacks and kernel answers before it make due, entry or exit, number, RESUMED and INTERRUPTED, exactly if it is of the kind that is due and all it needs was there; else not at all |
| TraceeResumes.InterruptedIsResumed | src/Tracee.cxx:492-516 | in every run, after an interruption and any ordinary calls since, an entry with restart_syscall is told as the RESUMED interrupted call, and another call as no resumption, unless a handler's return had been noted before |
| TraceeResumes.ResumedAfterSigreturn | src/Tracee.cxx:505-567 | in every run, after an interruption, a handler's ordinary calls and a sigreturn: unless that failed with EINTR, restart_syscall resumes the interrupted call and the next other call is RESUMED iff it is the same; with EINTR nothing is |
| TraceeResumes.FirstRestartIsRecovered | src/Tracee.cxx:446-477 | in every run a first entry with restart_syscall is RESUMED for the call in the initial registers iff these are of the same ABI and do not hold restart_syscall |
| TraceeResumes.NotedExactly | src/Tracee.cxx:505-516 | by positions: a handler's return stays noted iff no ordinary call was entered since while one was owed |
| TraceeResumes.OwedExactly | src/Tracee.cxx:532-567 | by positions: the call owed is that of the latest interruption nothing has settled since |
| TraceeResumes.MarkOutlivesRestart | src/Tracee.cxx:492-516 | a resumption by restart_syscall leaves the noted return behind |
| TraceeResumes.SleepForExample | src/Tracee.cxx:492-496 | a concrete run that these theorems speak of: a sleeping call is left with a restart code, and restart_syscall is told as its resumption |
| TraceeStops.EventIsToldAsNews | src/Tracee.cxx:570-664 | in every run any other event is told as what the events so far make of it (attached, stopped, signaled, exited and whether it was lost, disappeared, a notice), all of it unless a request fails or the consumer detaches, and nothing else ever |
| TraceeStops.RestartedAsDue | src/Tracee.cxx:372-405 | in every run a followed tracee is restarted in the mode and with the signal the events call for: LISTEN iff a group stop is to be kept up; it is in GROUP_STOP iff so, and stopSignal() is that of the last one |
| TraceeStops.EventFailsAsRestart | src/Tracee.cxx:941-953 | in every run, if nothing else fails, an event fails exactly as its restart request does, LISTEN included |
| TraceeStops.ResumedIsOwnStop | src/Tracee.cxx:941-953 | in every run resumed() is told at most once, and only to a child process after the stop it raised itself |
| TraceeEnds.DeathIsToldOnce | src/Tracee.cxx:627-664 | with no detach, a tracee followed to its death gets exactly one of exited() and disappeared(), a living one at most one |
| TraceeEnds.ExitEventFindsCall | src/Tracee.cxx:627-646 | if a current call exists whenever the previous stop was an entry stop, the exit event does not dereference a missing call and keeps it so |
| TraceeEnds.ExitEventIsSafe | src/Tracee.cxx:627-646 | that condition holds in every run in which each call object could be created |
| TraceeEnds.ExitEventUnsafeExactly | src/Tracee.cxx:479-485 | at an entry stop in any consistent run, whatever the consumer does and however the restart ends, a terminating exit event that follows dereferences a missing call iff the object could not be created |
| TraceeEnds.PendingDetachIsFinal | src/Tracee.cxx:895-939 | once a detach is pending or done the consumer hears nothing more of the tracee but that it disappeared, for exactly those event sequences in which no stop that is not a trap is reported before the release |
| TraceeEnds.DetachIsFinal | src/Tracee.cxx:211-251 | the same after any successful detach() of an attached tracee, in a stop or while it runs |
| TraceeEnds.DetachSettles | src/Tracee.cxx:211-269 | what detach() comes to for every tracee and answer: it fails iff the kernel refuses, a vanished tracee is dead, a stopped one released with no flag left, a running one marked |
| TraceeEnds.DetachedOnce | src/Tracee.cxx:211-216 | after that or a refusal no further detach() changes anything |
| Tracing.Tracee.constructor | src/Tracee.cxx:167-209 | an attached tracee waits for its first stop; a child process also for the two signals its start injected |
| Tracing.Tracee.ChangeState | src/Tracee.cxx:372-405 | the flag, the previous state (never RUNNING), the restart mode and the stop signal after a state change |
| Tracing.Tracee.DoDetach | src/Tracee.cxx:240-269 | release forgets pid and flags; a vanished tracee is dead, any other refusal escapes |
| Tracing.Tracee.Detach | src/Tracee.cxx:211-238 | at once in a ptrace stop, else deferred to the next stop, which is requested unless the attach stop is still due; nothing for a tracee no longer followed |
| Tracing.Tracee.Deliver | src/Tracee.cxx:518-520 | a callback is recorded and the consumer's detach() takes effect within it |
| Tracing.Tracee.IdentifyCall | src/Tracee.cxx:446-516 | which call an entry stop belongs to and whether it resumes one; what that means for a run is `TraceeResumes.StopIsToldAsDue` |
| Tracing.Tracee.HandleSystemCallEntry | src/Tracee.cxx:479-521 | counts and reports the call exactly if it was created, identified and filled |
| Tracing.Tracee.CloseCall | src/Tracee.cxx:537-567 | a sigreturn with EINTR discards the interrupted call, another one arms its resumption (`TraceeResumes.ResumedAfterSigreturn`); the current call is gone |
| Tracing.Tracee.HandleSystemCallExit | src/Tracee.cxx:523-568 | an exit with a restart code remembers the call as interrupted before it is reported |
| Tracing.Tracee.HandleSystemCall | src/Tracee.cxx:417-444 | the stop is taken as an entry or an exit by the flag alone, and refused if the kernel disagrees |
| Tracing.Tracee.HandleSignal | src/Tracee.cxx:570-580 | every signal but our own SIGCONT is reported and injected at the restart |
| Tracing.Tracee.HandleAttached | src/Tracee.cxx:735-769 | the first stop sets the restart mode and the initial registers before attached() |
| Tracing.Tracee.HandleStopEvent | src/Tracee.cxx:602-625 | tells the attach stop, a group stop with its signal and a plain trap apart |
| Tracing.Tracee.HandleExitEvent | src/Tracee.cxx:627-664 | exited() with LOST_TO_MT_EXIT unless the tracee itself was in exit or exit_group, and the death is not told again |
| Tracing.Tracee.Restart | src/Tracee.cxx:941-953 | a tracee that is still followed is restarted; LISTEN leaves it stopped, and leaving a group stop is reported |
| Tracing.Tracee.HandleTrap | src/Tracee.cxx:900-939 | each kind of stop reaches its handler in the state the handler expects |
| Tracing.Tracee.ProcessEvent | src/Tracee.cxx:885-954 | a death, a pending detach, or the handler and then the restart iff nothing was thrown |
| Tracing.Tracee.SetPid | src/Tracee.cxx:163-165 | only the pid changes |
| Tracing.Tracee.SyncState | src/Tracee.cxx:876-883 | takes over current call, interrupted call, counter and call cache, no flags, and leaves the other tracee dead |
| Tracing.Tracee.Announce | src/Engine.cxx:284 | the new task's first callback is newChildProcess(), in which it can be rejected |
| EngineRuns.KnownStep | src/Engine.cxx:157-190 | without a substitution, an event means for its tracee exactly what it means for a tracee alone, and otherwise only enters a new task; a refused detach in the callback included |
| EngineRuns.RekeyKeepsObjects | src/Engine.cxx:234-247 | re-keying preserves the set of tracee objects and moves exactly one of them |
| EngineRuns.RetryMeansKnown | src/Engine.cxx:192-232 | RETRY is decided only for an execve whose former pid is traced, and the pid is known afterwards |
| EngineRuns.AtMostTwoPasses | src/Engine.cxx:136-155 | no event is handled a third time, whatever the kernel answers |
| EngineRuns.RoundRests | src/Engine.cxx:136-155 | one round from a resting state ends in a resting state, or by an exception with the maps in order |
| EngineRuns.StructureInEveryRun | src/Engine.cxx:119-247 | in every reachable resting state each tracee that can report is keyed under its own pid, no object is held twice, only attach stops are stashed, one per pid, and no pid is both stashed and traced, but for those whose creator's detach was refused in their callback |
| EngineRuns.StructureAfterException | src/Engine.cxx:119-247 | keys, objects and stash are in order also when an exception leaves trace() in the middle of an event |
| EngineFaults.EscapesExactly | src/Engine.cxx:157-190 | every event of a known pid leaves trace() iff its handler throws a runtime error or dereferences something missing, or the release of a dead tracee is refused; the kernel's own errors, ESRCH or not, are swallowed |
| EngineFaults.StepEscapesExactly | src/Engine.cxx:157-190 | the same without a substitution, by what the event does to its tracee alone |
| EngineFaults.GoneEscapesExactly | src/Engine.cxx:157-190 | if every request that fails does so because the tracee is gone, an event escapes iff it contradicts what is known: a stop of the wrong kind or architecture, or a missing call |
| EngineFaults.GoneRoundsEscapeExactly | src/Engine.cxx:119-155 | the same for whole rounds of trace(), stored stops included |
| EngineFaults.DroppedExactly | src/Engine.cxx:59-70 | after which events an object leaves the map: detached and no child process, or dead and let go of; never after a fault that leaves trace() |
| EngineCallbacks.OneTold | src/Engine.cxx:157-190 | one event of one tracee leaves everybody's callbacks in order, those of tracees already gone included |
| EngineCallbacks.CallbacksOfAllTracees | src/Engine.cxx:119-190 | for every interleaving of the events of any number of tracees without substitution, the entries and exits of each alternate and its resumptions are owed |
| EngineCallbacks.DeathsOfAllTracees | src/Engine.cxx:59-70 | if nobody detaches, each tracee that left the map was reported gone exactly once, each one in it at most once |
| EngineEvents.EarlyStopMakesNoDifference | src/Engine.cxx:72-86 | a new task's stop before or after its creation event leads to the same engine state, callbacks and stash |
| EngineEvents.EarlyStopIsDelivered | src/Engine.cxx:72-86 | an early stop is handled exactly once, after the creation event and after newChildProcess(); a rejected child is then detached and removed with no further callback |
| EngineEvents.ForkForExample | src/Engine.cxx:265-304 | a concrete run that the theorems about early stops speak of: a fork whose child stops first ends with both traced, the stash empty, and the callbacks in order |
| EngineEvents.CreationFaultsExactly | src/Tracee.cxx:271-289 | a creation event dereferences something missing iff the creator's call is unknown, or it is a clone3() whose arguments could not be read |
| EngineEvents.UnreadArgsFault | src/Engine.cxx:279-284 | in the latter case the new task is entered, nobody is told, and trace() is left |
| EngineEvents.RefusedInNewChild | src/Engine.cxx:265-304 | an exception out of newChildProcess() leaves the child traced and the marker unset |
| EngineEvents.KnownTaskIsAnnounced | src/Engine.cxx:278-304 | a new task whose pid is traced already: its object is kept and announced, and dropped iff the consumer rejects it and the kernel agrees; if not, the creator stays stopped and no stored stop is looked for |
| EngineEvents.StrandedExactly | src/Engine.cxx:265-304 | an early stop stays in the stash of a traced pid iff the parent's detach was refused in that callback |
| EngineEvents.ExecSubstitutes | src/Engine.cxx:306-386 | whatever the consumer does and however the restart ends: if the kernel lets go of the exec'ing thread, the main thread's object ends under its pid, or is retired, with that thread's current call, interrupted call, counter and call cache; the former pid is gone, its object dead, all other entries and the stash unchanged; it goes on to be traced if nobody detaches and it is restarted. If the kernel refuses, nobody is told and both objects stay |
| EngineEvents.ExitStopAfterExecExactly | src/Tracee.cxx:876-883 | the exit stop that comes next is accepted and reported for the exec'ing thread's call iff the main thread had SYSCALL_ENTERED; else trace() is left by the mismatch error |
| EngineEvents.SoleThreadIsRekeyed | src/Engine.cxx:192-247 | if only the exec'ing thread was traced, the same object ends under the main pid, or is retired, told once and its calls untouched; while it is traced on, with that pid as its own |
| Supervising.Engine.constructor | src/Engine.cxx:119-122 | an engine without tracees, in the state runs begin with |
| Supervising.Engine.AddTracee | src/Engine.cxx:38-57 | a tracee is entered iff neither creating nor attaching throws, and tracing can still begin either way |
| Supervising.Engine.CheckCleanup | src/Engine.cxx:59-70 | drops a detached tracee unless it is a child process, releases and drops a dead one, touches no other entry |
| Supervising.Engine.ProcessAlone | src/Engine.cxx:157-163 | an event that concerns one tracee changes that object and no other, though they live in one heap |
| Supervising.Engine.HandleSubstitution | src/Engine.cxx:306-386 | the former thread is detached and its key erased; if that is refused everything else stays |
| Supervising.Engine.Substitute | src/Tracee.cxx:682-698 | both objects after the hand-over of calls, the map without the former pid |
| Supervising.Engine.SyncAfterExec | src/Tracee.cxx:666-712 | the three cases of an execve: own pid, substitution, or a new pid of its own |
| Supervising.Engine.HandleExec | src/Tracee.cxx:666-724 | the whole exec event with its notice and restart, a pending detach first |
| Supervising.Engine.Admit | src/Engine.cxx:270-277 | a new object exactly if the pid is not traced yet; existing ones keep their keys |
| Supervising.Engine.TellNewChild | src/Engine.cxx:279-284 | in one callback the consumer may let go of parent, child or both, and only these two change |
| Supervising.Engine.FinishAttach | src/Engine.cxx:286-303 | the marker for a stored stop is set exactly if the cleanup did not throw |
| Supervising.Engine.AutoAttach | src/Engine.cxx:265-304 | the creation of a task in full, with every way out by an exception or a missing argument structure |
| Supervising.Engine.CompleteVfork | src/Engine.cxx:287-303 | vforkComplete() says whether the child is still traced |
| Supervising.Engine.HandleNewTask | src/Tracee.cxx:726-733 | a new-task event needs a current call and the message pid; a pending detach goes first |
| Supervising.Engine.HandleKnown | src/Engine.cxx:157-163 | every event for a known pid has the effect the step system gives it |
| Supervising.Engine.CheckUnknownTraceeEvent | src/Engine.cxx:192-247 | stores stops, re-keys for an execve of a traced thread, drops the rest |
| Supervising.Engine.CheckUnknownEvents | src/Engine.cxx:72-86 | the stored stop is handled and erased, and the call it makes itself finds nothing more to do, so the recursion ends |
| Supervising.Engine.HandleEvent | src/Engine.cxx:157-190 | the kernel's errors are swallowed, other exceptions escape (`EngineFaults.EscapesExactly`), cleanup and stored stop follow |
| Supervising.Engine.TraceEvent | src/Engine.cxx:136-153 | the retry loop terminates, and an event is stored without replacing one already there |
| Supervising.Engine.Trace | src/Engine.cxx:119-155 | over a whole sequence of events the objects go through the states of the model run, until an exception, the end of events or of tracees |
| TerminalTracing.StepMatches | src/termtracer/TermTracer.cxx:373-447 | on every well-bracketed callback the assert holds, and a tracee remains inside an enabled call iff it is active or unfinished, never both, exactly unless a filtered execve meets an open line |
| TerminalTracing.BooksAreRight | src/termtracer/TermTracer.cxx:692-764 | so in every well-bracketed run with an empty filter, or one that has both exec calls, the assert never fires and the books are right, across renames, aborts and remarks |
| TerminalTracing.RunMatches | src/termtracer/TermTracer.cxx:373-568 | the same for any filter in runs where that never happens |
| TerminalTracing.ActiveIsOpenLine | src/termtracer/TermTracer.cxx:607-644 | in every run without a crash, for any filter, the active call is the one whose entry was the last thing printed |
| TerminalTracing.BooksExactly | src/termtracer/TermTracer.cxx:692-764 | under such a filter both fields exactly: the open line, and everybody else who is inside an enabled call |
| Transcript.StepReads | src/termtracer/TermTracer.cxx:373-447 | what is printed at one well-bracketed event makes sense to a reader of lines opened, broken off, taken up and ended, who then knows what the books say; it begins and ends exactly the calls that are due |
| Transcript.DropGarbles | src/termtracer/TermTracer.cxx:547 | when a filtered execve meets an open line, what follows is printed into that line |
| Transcript.ReadableExactly | src/termtracer/TermTracer.cxx:373-568 | in every well-bracketed run, for any filter, the trace can be read iff that never happens, and then each watched call began once and ended once, with its result, success of an execve, or unanswered, in the order of the events |
| Transcript.WatchedExecsAreReadable | src/termtracer/TermTracer.cxx:683-764 | so it can under every filter that is empty or has both exec calls |
| TerminalTracing.ForgottenCallCrashes | src/termtracer/TermTracer.cxx:547 | when it happens, the forgotten tracee is still inside its call and its next return fails the assert |
| TerminalTracing.ForgottenInEveryFilter | src/termtracer/TermTracer.cxx:547 | for every filter that watches one call and not one of the exec calls, a four-callback run that fails the assert |
| TerminalTracing.ForgottenRead | src/termtracer/TermTracer.cxx:547 | for instance with only read watched |
| TerminalTracing.SafeFiltersExactly | src/termtracer/TermTracer.cxx:683-712 | the assert never fires in any well-bracketed run iff the filter is empty or lets both exec calls through |
| ConsumerStream.StreamInOrder | src/termtracer/TermTracer.cxx:373-568 | every interleaving of callbacks that alternate for each tracee is well-bracketed, and says who is inside which call |
| ConsumerStream.EngineKeepsBooksRight | src/Engine.cxx:119-190 | end to end: in every run of the engine and every interleaving of its callbacks in which no pid changes hands, the terminal tracer's assert never fires and both its fields are exactly what the callbacks say, with such a filter |
| ConsumerStream.EngineInOrder | src/Engine.cxx:119-190 | the callbacks of every such engine run, interleaved anyhow, are well-bracketed |
| ConsumerStream.EnginePrintsReadably | src/termtracer/TermTracer.cxx:373-568 | end to end: what is printed for every such engine run can be read, and has each watched call begin and end as the callbacks say |
| TerminalTracing.TermTracer.StartNewLine | src/termtracer/TermTracer.cxx:619-644 | the open call becomes an unfinished one |
| TerminalTracing.TermTracer.CheckResumedSyscall | src/termtracer/TermTracer.cxx:692-712 | the source's assert is proved where a current call exists; a tracee's unfinished call is taken up, another's open line broken off |
| TerminalTracing.TermTracer.SyscallEntry | src/termtracer/TermTracer.cxx:373-406 | keeps the books right |
| TerminalTracing.TermTracer.SyscallExit | src/termtracer/TermTracer.cxx:408-447 | keeps the books right, and no other tracee's line is ever open where the source asks for it |
| TerminalTracing.TermTracer.UpdateTracee | src/termtracer/TermTracer.cxx:729-745 | the call moves to the new pid, active or unfinished |
| TerminalTracing.TermTracer.NewExecutionContext | src/termtracer/TermTracer.cxx:527-568 | keeps the books right unless a filtered execve meets an open line |
| TerminalTracing.TermTracer.AbortSyscall | src/termtracer/TermTracer.cxx:747-764 | ends the active line or takes up the unfinished one of an enabled call, and says that there is no answer |
| TerminalTracing.TermTracer.TraceeGone | src/termtracer/TermTracer.cxx:471-525 | both ends of a tracee keep the books right and remove it from them |
| ParameterPrinting.PrintParsOnEntry | src/termtracer/TermTracer.cxx:259-302 | prints the used inputs up to the first used non-input |
| ParameterPrinting.PrintParsOnExit | src/termtracer/TermTracer.cxx:304-329 | prints the used parameters from the first used non-input on |
| ParameterPrinting.SplitAtFirstNonInput | src/termtracer/TermTracer.cxx:259-329 | entry prints exactly the used parameters before the first used non-input, exit exactly the rest |
| ParameterPrinting.HalvesMakeWhole | src/termtracer/TermTracer.cxx:259-329 | the halves together print each used parameter once and in order |
| ParameterPrinting.WholeIsJoined | src/termtracer/TermTracer.cxx:259-329 | that is the comma separated list, up to one comma at the end |
| ParameterPrinting.SplitPrinting | src/termtracer/TermTracer.cxx:259-329 | split printing equals the comma-joined list iff the last parameter is used or none is; else exactly one comma is left over |
| ControlMessages.ConvertMessage | src/items/msghdr.cxx:289-319 | one header and payload are rewritten at the end of the output, with no padding; it copies from beyond the buffer iff cmsg_len is below 12 or more than is left |
| ControlMessages.ConvertControlHeader32 | src/items/msghdr.cxx:250-322 | any buffer: passed through unless the call is a 32-bit one, else rewritten iff every cmsg_len met fits; the output never exceeds the reserved twice the input, so pointers into it stay valid |
| ControlMessages.SizeOfConverted | src/items/msghdr.cxx:265-270 | output is consumed input plus 4 bytes per message, at most 4/3 of the input |
| ControlMessages.ConversionPreservesMessages | src/items/msghdr.cxx:250-322 | walking the output by cmsg_len yields the same levels, types and payloads |
| ControlMessages.SentIsReceivedExactly | src/items/msghdr.cxx:289-319 | for every list of messages as a 32-bit system lays them out, padded at the end or not: the conversion delivers these messages iff all payloads but the last are multiples of 4 |
| ControlMessages.OneByteOverruns | src/items/msghdr.cxx:301-304 | a one-byte payload before another message makes it read a cmsg_len of 0x10000000 |
| ControlMessages.PackedIsReceived | src/items/msghdr.cxx:250-322 | messages without anything in between always come out unchanged, with 4 bytes more each |
| ControlMessages.AlignedWalkExactly | src/items/msghdr.cxx:324-346 | on packed 64-bit messages the walk of sections 5.1 to 5.3 of RFC 3542 finds all headers iff all payloads but the last are multiples of 8 |
| ControlMessages.AlignedReaderAgrees | src/items/msghdr.cxx:306-319 | the same about converted buffers, in terms of the 32-bit payloads |
| ControlMessages.ShownExactly | src/items/msghdr.cxx:324-346 | conversion and that walk together show exactly the messages sent iff all payloads but the last are multiples of 8 |
| DirEntries.DirEntries.NameLength | src/items/fs.cxx:451-457 | the name without its padding, never less than one byte of a non-empty field |
| DirEntries.DirEntries.ParseEntries | src/items/fs.cxx:409-462 | appends exactly the parsed records and ends at the end of the buffer |
| DirEntries.RecordParsed | src/items/fs.cxx:440-462 | every field of one written record is read back |
| DirEntries.ParsedIsReceived | src/items/fs.cxx:409-462 | what becomes of every list of entries, for all three record layouts |
| DirEntries.ParsedIsWritten | src/items/fs.cxx:409-462 | the parser returns exactly the entries written iff no name is empty and padded |
| TraceeMemory.BlobFiller.Fill | src/Tracee.cxx:83-106 | takes at most what is left of a word, and asks for more iff something is left |
| TraceeMemory.ReadBlob | src/Tracee.cxx:970-981 | copies exactly the bytes asked for in max(1, ceil(n/8)) peeks and nothing else in the buffer; fails iff one of those words is not mapped as a whole |
| TraceeMemory.ContainerFiller.Fill | src/Tracee.cxx:41-80 | takes a word's items up to a zero or the maximum |
| TraceeMemory.ReadVector | src/Tracee.cxx:983-993 | returns the longest zero-free item prefix capped at a positive maximum, and terminates |
| TraceeMemory.ItemsAreMemory | src/Tracee.cxx:57-72 | the k-th item is the little-endian number at its own place in tracee memory |
| Buffers.BufferPointer.FillBuffer | src/items/items.cxx:156-170 | the prefetched data is the start of the buffer in memory |
| Buffers.BufferPointer.FetchRemainingData | src/items/items.cxx:138-154 | after it the data equals one full read; a failure loses nothing, and happens iff the rest is not readable |
| Buffers.ProcessData | src/items/items.cxx:115-124 | an out buffer or a null one is empty at the entry, another one prefetched |
| Buffers.UpdateData | src/items/items.cxx:126-136 | only a buffer the call may have written is fetched at the exit, and only if the call succeeded |
| Buffers.ShownOfCall | src/items/items.cxx:115-170 | what is shown of a buffer after a call, by its direction and outcome; nothing of an earlier call |
| Buffers.ReadInTwoSteps | src/items/items.cxx:115-170 | prefetch and completion together succeed iff both reads do, and then equal one full read |
| Buffers.TwoStepsSufficeExactly | src/items/items.cxx:138-170 | on all memories everything that can be read at once can be read in two steps, iff there is no second read, or limit or rest is a multiple of the word size, or the odd bytes of both exceed a word |
| Buffers.TwoStepsLikeOneExactly | src/items/items.cxx:138-170 | both ways succeed on the same memories iff there is no second read or the limit is a multiple of the word size |
| Buffers.UnalignedLimitFails | src/items/items.cxx:138-170 | for instance, a limit of 4 makes the other half of a single mapped word unreadable |
| Buffers.IoVector.ProcessData | src/items/io.cxx:67-96 | the specifications, nothing filled yet; no buffer if they could not be read |
| Buffers.IoVector.FetchBuffer | src/items/io.cxx:126-143 | one buffer gets its share, and the first bytes of it up to the limit iff their words can be read, else none; no other changes |
| Buffers.IoVector.ProcessWritten | src/items/io.cxx:160-168 | each buffer of a write is full, with its first bytes up to the limit iff their words can be read |
| Buffers.IoVector.UpdateData | src/items/io.cxx:145-158 | after a call that succeeded buffer i is filled with clamp(n minus the lengths before it, 0, len_i), its data is the first min(limit, filled) bytes in memory iff their words can be read, else none, and the total is min(n, sum of lengths) |
| Buffers.FilledInAll | src/items/io.cxx:145-158 | shares add up: nothing is counted twice or lost |
| SyscallTable.ProcessTable | tools/parse_syscall_tables.py:120-162 | per ABI column exactly its entries, in file order, names without leading underscores |
| SyscallTable.TableIsBare | tools/parse_syscall_tables.py:140-142 | whatever the file contains, no name in a table begins with an underscore |
| SyscallTable.StrippedExactly | tools/parse_syscall_tables.py:140-142 | only underscores are taken away, and only from the front |
| SyscallTable.TableIsLines | tools/parse_syscall_tables.py:120-162 | a column is in the table iff a line has it, and its entries are those lines, one for one and in order, with their numbers and bared names |
| SyscallTable.SortAscending | tools/parse_syscall_tables.py:173-202 | the sorted list is ascending (and by its contract a permutation) |
| SyscallTable.SortStable | tools/parse_syscall_tables.py:173-202 | entries with the same number keep their order |
| SyscallTable.ColumnsAreWhole | tools/parse_syscall_tables.py:164-202 | an ABI's list has each entry of its columns as often as they have it, no other, in the order of numbers |
| SyscallTable.Collect | tools/parse_syscall_tables.py:196-202 | all entries of the listed columns, sorted; none if a column is missing |
| SyscallTable.TransformABIs | tools/parse_syscall_tables.py:164-202 | the lists per ABI exist iff no column is missing, and are complete |
| SourceGenerator.RecordSyscallNames | tools/parse_syscall_tables.py:204-208 | the names are exactly those of all tables, in strict order |
| SourceGenerator.RecordedAreBare | tools/parse_syscall_tables.py:204-208 | nor does a recorded name |
| SourceGenerator.IdentExactly | tools/parse_syscall_tables.py:242-246 | two such names get the same identifier iff they differ at most in case, and none of the enums' own but for "unknown" |
| SourceGenerator.IdentExpands | tools/parse_syscall_tables.py:242-246 | an identifier is the name in capitals, with an underscore exactly for the three names that system headers define as macros, and is no such macro |
| SourceGenerator.UnderscoresWouldClash | tools/parse_syscall_tables.py:140-142 | it would not be if leading underscores were kept |
| SourceGenerator.WriteGenericHeader | tools/parse_syscall_tables.py:397-411 | the enum as written, and the array size it announces is that of the array |
| SourceGenerator.WriteGenericUnit | tools/parse_syscall_tables.py:427-437 | name array and name map as written |
| SourceGenerator.WriteABIHeader | tools/parse_syscall_tables.py:465-482 | the native enum, framed by the first and the last number of the sorted table |
| SourceGenerator.FrameIsRange | tools/parse_syscall_tables.py:465-482 | _FIRST and _LAST are the least and the greatest native number of the table |
| SourceGenerator.WriteABIUnit | tools/parse_syscall_tables.py:519-528 | one case per entry, in the order of numbers |
| SourceGenerator.EnumeratorIsPosition | tools/parse_syscall_tables.py:397-437 | a generic enumerator's value is the position of its name in the array |
| SourceGenerator.NameMapInvertsArray | tools/parse_syscall_tables.py:427-437 | a lookup succeeds iff the name is in the array, and leads to its position |
| SourceGenerator.ToGenericIsRight | tools/parse_syscall_tables.py:504-528 | for every table with distinct numbers, and names that differ in more than case, in any file order, to_generic takes each native number, with the X32 bit for x32, to the value that names the entry and every other number to 0, "unknown" |
| SourceGenerator.GenericIdentifiersDifferExactly | tools/parse_syscall_tables.py:397-411 | the generic enum has no identifier twice iff the names differ in more than case and none is "unknown" |
| SourceGenerator.NativeIdentifiersDifferExactly | tools/parse_syscall_tables.py:465-482 | a native enum has no identifier twice iff its names differ in more than case |
| FdTracking.CallMirrored | src/syscalls/fs.cxx:177-280 | after any tracking call that may succeed, the mirror has exactly the open descriptors iff the call's results could be read |
| FdTracking.FlagsKeptExactly | src/syscalls/fs.cxx:397-411 | and the close-on-exec flags stay right exactly unless a duplicate's flag differs or a non-blocking pidfd is opened |
| FdContents.DescribedExactly | src/syscalls/fs.cxx:177-280 | after any tracking call each entry says what the kernel has: kind, path, mode, socket domain and type, and whether flags were told and the file was opened non-blocking; exactly unless dup2() replaced something unlike or flags had to be made up |
| FdContents.AcceptedKnows | src/syscalls/net.cxx:86-118 | after accept() both sockets are entered with the same domain and type, in full iff the listening one was or the socket could be asked |
| FdContents.EntriesByKey | src/Tracee.cxx:1072-1100 | a new entry never replaces one, a changed one is never new |
| FdContents.ContentsInEveryRun | src/Tracee.cxx:1068-1108 | in every run over any number of tracees, as long as no call does that, each entry of each tracee's table says what the kernel has, close-on-exec included |
| FdTracking.KeptExactly | src/Tracee.cxx:343-363 | the loop drops all closed descriptors iff no two neighbours in the map are both closed |
| FdTracking.ExecMirroredExactly | src/Tracee.cxx:343-370 | after an execve the mirror is right iff that; entries still open are never touched |
| FdSharing.StepAgrees | src/AutoAttachedTracee.cxx:16-78 | a call, a new task, an execve or an end keeps sharing and contents in agreement with the kernel |
| FdSharing.MirrorInEveryRun | src/Tracee.cxx:1068-1108 | in every run over any number of tracees each mirror has exactly the open descriptors, and two tracees share a mirror iff they share a table |
| FdSharing.SharedExecExactly | src/Tracee.cxx:343-370 | after an execve of a sharing process the other one's mirror is right iff nothing was closed |
| FdSharing.UnreadCloneExactly | src/AutoAttachedTracee.cxx:16-62 | sharing is not recognised iff a sharing clone3()'s arguments could not be read, which the engine dereferences next; a child's mirror would follow what its parent opens iff it was |
| FdSharing.ProcessData.EraseClosed | src/Tracee.cxx:354-363 | the loop as written, with its double step |
| FdSharing.FdTracee.constructor | src/Tracee.cxx:134-140 | a tracee uses its sibling's table object or has an empty one of its own |
| FdSharing.FdTracee.UnshareProcessData | src/Tracee.cxx:1068-1070 | a new table object with equal contents |
| FdSharing.FdTracee.Configure | src/AutoAttachedTracee.cxx:69-78 | a child starts with its parent's table, the very object iff it shares |
| FdSharing.FdTracee.TrackFD | src/Tracee.cxx:1072-1089 | an entry is added, never replaced |
| FdSharing.FdTracee.UpdateFD | src/Tracee.cxx:1091-1100 | an entry is replaced, never added |
| FdSharing.FdTracee.DropFD | src/Tracee.cxx:1102-1108 | the entry is gone |
| FdSharing.FdTracee.UpdateFDTracking | src/syscalls/fs.cxx:177-280 | the table after the call, whose entries `FdContents.DescribedExactly` is about; what one tracee's call changes is seen by exactly the tracees that share its table object |
| FdSharing.FdTracee.SyncFDsAfterExec | src/Tracee.cxx:343-370 | the same loop on the object; nothing changes if the open descriptors cannot be listed |
| CallReuse.PrepareForgets | src/syscalls/fs.cxx:12-43 | prepareNewSystemCall() takes every object that a history can leave to the layout a new one would get |
| CallReuse.CloneInRegisters | src/syscalls/process.cxx:7-90 | for every flag set the parameters of clone() sit at the registers of the ABI |
| CallReuse.TlsAndTidPlaces | src/syscalls/process.cxx:40-88 | tls and child_tid are there iff their flag is given, at index 4 and 3 on x86-64 and x32, swapped on i386 and aarch64 |
| CallReuse.EntryIsFresh | src/SystemCall.cxx:60-75 | one entry throws iff a new object would, and else leaves the new object's layout, at most six parameters, none twice, each holding its argument word |
| CallReuse.CacheIsTransparent | src/SystemCallDB.cxx:211-243 | after any history of calls and ABIs a cached object has the same parameters, optional members and return item for the next call as a new one |
| CallSignatures.EntryFits | src/SystemCall.cxx:60-75 | after any history of calls and ABIs an entry throws iff it must, and else leaves the call's own parameters, each with its word, the call's return item, and no optional member but those in use |
| CallSignatures.FcntlFits | src/syscalls/fs.cxx:45-175 | for every fcntl() operation its argument, its return item and its members |
| CallSignatures.FutexFits | src/syscalls/thread.cxx:31-130 | for every futex() command its arguments, its return item and its members |
| CallSignatures.CloneFits | src/syscalls/process.cxx:18-90 | for every flag set and ABI of clone() |
| CallSignatures.SuccessCodeExactly | src/syscalls/fs.cxx:45-175 | which calls return just success or an error |
| CallObjects.SystemCall.constructor | src/SystemCall.cxx:34-36 | a new object, which is one that a history can leave |
| CallObjects.SystemCall.DropParameters | src/SystemCall.cxx:28-32 | pops down to the start index |
| CallObjects.SystemCall.FillParameters | src/SystemCall.cxx:38-58 | every item is filled once with its argument word, deferred ones after all others |
| CallObjects.SystemCall.PrepareAdvise | src/syscalls/fs.cxx:282-351 | the fadvise lists per ABI, or a throw for x32 |
| CallObjects.SystemCall.PrepareStatfs | src/syscalls/fs.cxx:369-395 | with a size parameter exactly for the 64-bit variants |
| CallObjects.SystemCall.PrepareOld | src/syscalls/memory.cxx:13-28 | one pointer to a structure exactly for the legacy call, also back again |
| CallObjects.SystemCall.PrepareNewSystemCall | src/syscalls/thread.cxx:6-29 | the reset of each class, without looking at values |
| CallObjects.SystemCall.SecondFcntl | src/syscalls/fs.cxx:45-175 | argument and return item of each operation, which are those of `CallSignatures.FcntlFits` |
| CallObjects.SystemCall.SecondFutex | src/syscalls/thread.cxx:31-130 | arguments and return item of each command, which are those of `CallSignatures.FutexFits` |
| CallObjects.SystemCall.SecondClone | src/syscalls/process.cxx:18-90 | the padding loop terminates and puts each optional parameter at its index |
| CallObjects.SystemCall.SecondWait | src/syscalls/process.cxx:103-135 | the id parameter by type, or a throw |
| CallObjects.SystemCall.Check2ndPass | src/syscalls/fs.cxx:233-268 | whether a second fill is due, for each class |
| CallObjects.SystemCall.SetEntryInfo | src/SystemCall.cxx:60-75 | on the object itself, after anything it went through: throws iff a new one would, else looks like the new one, holds the words, and has the parameters, members and return item of the call |
| CallObjects.SystemCallDB.Get | src/SystemCallDB.cxx:211-243 | one object per number, except for the multi-typed ones, which are never cached |
| CallObjects.SystemCallDB.Enter | src/SystemCallDB.cxx:211-243 | an entry through the cache shows nothing of the history, has what the call needs, and leaves the objects of other numbers alone |

## Left out

- EngineCallbacks.CallbacksOfAllTracees: runs in which one traced thread is replaced by another at an execve, and a vfork that completes before the stored stop of its child was delivered, are excluded; `EngineEvents.ExecSubstitutes` and `EngineEvents.ExitStopAfterExecExactly` say what happens at the former.
- EngineEvents.StrandedExactly: only the refusal of the parent's own detach; a child that is still waiting for its attach stop cannot be refused.
- Supervising.Engine.HandleNewTask: a new-task message never names the reporting task itself.
- Supervising.Engine.Trace: ends with the events it is given; `handleNoChildren()`, `stop()` and the destructor are not modelled.
- Supervising.Engine.AddTracee: attaching to all threads of a process is modelled as tracees that are there when tracing begins; what creating and attaching ask of the kernel are two answers.
- TerminalTracing.BooksAreRight: well-bracketed runs with renames are its premise; `m_new_tracees`, `m_num_tracees`, the ABI remarks, interactive questions and the wording of what is printed are not modelled.
- ConsumerStream.EngineKeepsBooksRight: an execve that changes a pid is excluded; that a process which ended makes no more calls, and that an exec call succeeds iff it brought a new context, are facts of the kernel stated as `ConsumerStream.Disciplined`.
- ControlMessages.ConvertControlHeader32: what is copied from beyond the buffer has no value in the model; payloads are bytes, their own 32-bit layout is not converted, as in the source.
- DirEntries.DirEntries.ParseEntries: records are whole and their lengths positive, as the kernel writes them; fetching the buffer is covered by `TraceeMemory.ReadBlob`.
- TraceeMemory.ReadVector: memory is finite, so the read ends; the source's counter could wrap around at 2^64 items.
- TraceeMemory.ReadBlob: the word size is 8 bytes, as on the 64-bit hosts.
- Buffers.IoVector.ProcessData: the array of specifications is an input; its own read, in either width, is an ordinary vector read.
- SyscallTable.ProcessTable: a table line is its first three columns; reading files and the skipped spu column of powerpc are not modelled.
- SourceGenerator.WriteGenericHeader: the enumerators, cases and entries written are modelled, not the text around them.
- FdTracking.CallMirrored: modes other than the three access modes, file offsets and F_SETFL, which can change O_NONBLOCK later, are left out (`nonblock` is how the file was opened), and so are close_range, pidfd_getfd and descriptors received in messages.
- FdSharing.MirrorInEveryRun: calls are atomic, and an execve of a process that shares its table is excluded; `FdSharing.SharedExecExactly` says what happens then.
- CallReuse.CacheIsTransparent: what an argument word means to the first pass (flags, operation, command) is an input, since decoding belongs to the items; setExitInfo, the ABI_CHANGED flag and the transfer of old mmap and select arguments out of their structures are not modelled.
- CallObjects.SystemCall.FillParameters: that an item is deferred is a property of the item; what it then reads is left out, the order is kept.
- CallObjects.SystemCallDB.Get: the classes of prctl, socketcall and the socket options are finite dispatch and left out.
- EngineEvents.ExecSubstitutes: the main thread has no detach pending, which would go first; the call cache is a token for the database object that moves, what is in it is the subject of `CallObjects`.
- TraceeModel: system call information, exit data and execution information (executable, command line) carry no state the properties depend on; the CLONED_THREAD and ABI_CHANGED flags are left out.
- ptrace, wait, /proc and getsockopt on a tracee's descriptors are inputs.
- Formatting, labels, logging, command line handling and the generated tables themselves are large finite tables with nothing hard to state.
