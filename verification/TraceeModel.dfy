// One traced process as a state machine over wait events (src/Tracee.cxx).
//
// Everything the tracer asks the kernel for (ptrace requests, reads of tracee
// memory, /proc) is an input of the step: the record Answers says how each
// request made while handling the event turned out. The consumer's freedom to
// call Tracee::detach() from inside a callback is an input as well.
module TraceeModel {
  import opened Common

  type Pid = int

  /** System call numbers, as far as the tracing core tells them apart. */
  datatype SysNr =
    | RestartSyscall | RtSigreturn | Sigreturn | Exit | ExitGroup
    | Execve | Execveat | Clone3 | Brk | Break | Other(id: nat)

  datatype Abi = UnknownAbi | X86_64 | I386 | X32 | Aarch64

  datatype Signal = SigCont | SigStop | SigTstp | SigTtin | SigTtou | SigTrap | OtherSignal(raw: nat)

  datatype State =
    | Unknown | Running | SyscallEnterStop | SyscallExitStop
    | SignalDeliveryStop | GroupStop | EventStop | Dead | Detached

  datatype RestartMode = Cont | Syscall | Listen

  /** Where a tracee is in its life as a tracee. The booleans are the bits of
      Tracee::Flag that have nothing to do with system calls. */
  datatype Life = Life(
    pid: Option<Pid>,              // m_ptrace; None once it was reset
    state: State,
    prevState: State,
    waitForAttachStop: bool,
    detachAtNextStop: bool,
    injectedSigstop: bool,
    injectedSigcont: bool,
    waitForExited: bool,
    restartMode: RestartMode,
    injectSignal: Option<Signal>,
    stopSignal: Option<Signal>)

  /** What a tracee remembers about its system calls. Calls are represented by
      the callNr() of the SystemCall object the source points to. */
  datatype Calls = Calls(
    entered: bool,                 // Flag::SYSCALL_ENTERED
    seenSigreturn: bool,           // Flag::SEEN_SIGRETURN
    current: Option<SysNr>,
    interrupted: Option<SysNr>,
    count: nat,
    initial: Option<(Abi, SysNr)>, // m_initial_regset
    cache: nat)                    // m_syscall_db: the tracee for which it was created

  /** The callbacks a consumer receives on behalf of one tracee, in order. */
  datatype Callback =
    | Announced                                  // newChildProcess() with this tracee as the child
    | Attached
    | SyscallEntry(nr: SysNr, resumed: bool)
    | SyscallExit(nr: SysNr, interrupted: bool)
    | Signaled(signal: Signal)
    | Stopped
    | Resumed
    | Exited(lost: bool)
    | Disappeared
    | NewExecutionContext(oldPid: Option<Pid>)
    | NewChildProcess(child: Pid)
    | VforkComplete(childFound: bool)

  datatype Tracee = Tracee(
    id: nat,                       // identity of the C++ object
    isChild: bool,
    life: Life,
    calls: Calls,
    log: seq<Callback>)

  /** A tracee object that waits for its attach stop. A child process created
      for tracing raised SIGSTOP before its execve and was sent a SIGCONT. */
  function Attaching(id: nat, pid: Pid, isChild: bool): Tracee {
    Tracee(id, isChild,
           Life(Some(pid), Unknown, Unknown, true, false, isChild, isChild, false, Cont, None, None),
           Calls(false, false, None, None, 0, None, id), [])
  }

  // ----- events and answers

  datatype NewTask = ViaClone | ViaFork | ViaVfork | VforkDone

  datatype PtraceEvent =
    | StopEvent
    | ExitEvent
    | ExecEvent
    | NewTaskEvent(kind: NewTask)
    | UnhandledEvent

  /** What wait() reports about one process. */
  datatype WaitStatus =
    | Died                                              // exited, killed or dumped
    | SyscallTrap
    | EventTrap(event: PtraceEvent, eventSignal: Signal)
    | SignalTrap(trapSignal: Signal)
    | StoppedUntraced(stopSignal: Signal)               // ChildState::signaled()
    | OtherStatus

  /** Gone and Refused are ApiErrors, with and without ESRCH; Internal is a
      RuntimeError; NullCall stands for dereferencing something that is not there:
      m_current_syscall, or the arguments of a clone3(). */
  datatype Fault = Gone | Refused | Internal | NullCall

  type KernelFault = f: Fault | f != NullCall witness Gone

  datatype Reply<+T> = Ok(value: T) | Err(fault: KernelFault)

  datatype StopKind = EntryStop | ExitStop | NeitherStop

  datatype SyscallInfo = SyscallInfo(
    kind: StopKind,
    nr: SysNr,
    abi: Abi,
    archKnown: bool,       // updateSysNr() knows the architecture
    archTraceable: bool,   // verifyArch() accepts it
    errno: Option<nat>)    // error value of an exit stop

  datatype Request = Accepted | RequestGone | RequestRefused

  datatype Answers = Answers(
    info: Reply<SyscallInfo>,      // getSyscallInfo()
    callCreated: Reply<()>,        // SystemCallDB::get() for the current stop
    callRecovered: Reply<()>,      // SystemCallDB::get() for a recovered call
    entryFilled: Reply<()>,        // SystemCall::setEntryInfo()
    exitFilled: Reply<()>,         // SystemCall::setExitInfo()
    signalInfo: Reply<Signal>,     // getSigInfo()
    exitStatus: Reply<bool>,       // getExitEventMsg().exited()
    eventPid: Reply<Pid>,          // getPIDEventMsg()
    registers: Reply<(Abi, SysNr)>,// getInitialRegisters()
    restarted: Reply<()>,          // PTRACE_SYSCALL / CONT / LISTEN
    detached: Request,             // PTRACE_DETACH
    interrupted: Request,          // PTRACE_INTERRUPT
    formerReleased: Request,       // detaching the thread an execve() replaced
    cleanedUp: Request,            // PTRACE_DETACH of a dead tracee
    cloneArgs: bool,               // the argument structure of clone3() was read
    consumerDetaches: bool,        // the consumer calls detach() in its callback
    consumerRejects: bool)         // ... child.detach() in newChildProcess()

  /** A step's result: the new state, and the exception that left it, if any. */
  datatype Result = Result(tracee: Tracee, fault: Option<Fault>) {
    predicate Ok?() { fault.None? }
  }

  function Done(t: Tracee): Result { Result(t, None) }

  function Threw(t: Tracee, f: Fault): Result { Result(t, Some(f)) }

  // ----- helpers of the source

  /** callNr() of the object SystemCallDB::get() delivers for a number: brk(2)
      is represented by a BreakSystemCall object (include/syscalls/memory.hxx). */
  function CallNr(nr: SysNr): SysNr { if nr == Brk then Break else nr }

  predicate IsStopping(s: Signal) { s in {SigStop, SigTstp, SigTtin, SigTtou} }

  predicate IsSigreturn(nr: SysNr) { nr == RtSigreturn || nr == Sigreturn }

  /** ErrnoResult: the restart codes 512 to 516 never reach user space. */
  predicate IsKernelErrno(code: nat) { 512 <= code <= 516 }

  const EINTR: nat := 4

  /** Equal except for the flags that doDetach() clears. */
  predicate SameCalls(c: Calls, d: Calls) {
    d.current == c.current && d.interrupted == c.interrupted && d.count == c.count && d.cache == c.cache
  }

  predicate Followed(t: Tracee) { t.life.state != Dead && t.life.state != Detached }

  function Move(l: Life, s: State): Life {
    var stopping := s == GroupStop;
    var prev := if l.state != Running then l.state else l.prevState;
    l.(state := s,
       prevState := prev,
       detachAtNextStop := l.detachAtNextStop && s != Detached,
       injectedSigstop := l.injectedSigstop && !stopping,
       restartMode :=
         if !stopping then l.restartMode else if l.injectedSigstop then Syscall else Listen,
       stopSignal := if prev == GroupStop && l.state != GroupStop then None else l.stopSignal)
  }

  function ChangeState(t: Tracee, s: State): Tracee {
    var entered := s == SyscallEnterStop || (s != SyscallExitStop && t.calls.entered);
    t.(life := Move(t.life, s), calls := t.calls.(entered := entered))
  }

  /** doDetach() clears m_ptrace and all of m_flags. */
  function Forget(t: Tracee): Tracee {
    var l := t.life;
    t.(life := Life(None, l.state, l.prevState, false, false, false, false, false,
                    l.restartMode, l.injectSignal, l.stopSignal),
       calls := t.calls.(entered := false, seenSigreturn := false))
  }

  function DoDetach(t: Tracee, r: Request): (res: Result)
    ensures res.tracee.log == t.log && res.tracee.id == t.id && SameCalls(t.calls, res.tracee.calls)
    ensures if res.Ok?() then !Followed(res.tracee) else res.fault == Some(Refused)
  {
    match r
    case Accepted => Done(Forget(ChangeState(t, Detached)))
    case RequestGone => Done(Forget(ChangeState(t, Dead)))
    case RequestRefused => Threw(t.(life := t.life.(pid := None)), Refused)
  }

  /** Tracee::detach(): at once in a ptrace stop, else deferred to the next one. */
  function Detach(t: Tracee, a: Answers): (res: Result)
    ensures res.tracee.log == t.log && res.tracee.id == t.id && SameCalls(t.calls, res.tracee.calls)
    ensures res.Ok?() && Followed(res.tracee) ==> res.tracee.calls == t.calls && res.tracee.life.pid == t.life.pid
    ensures res.Ok?() || res.fault == Some(Refused)
  {
    if t.life.pid.None? || !Followed(t) then Done(t)
    else if t.life.state != Running && t.life.state != Unknown then DoDetach(t, a.detached)
    else
      var t1 := t.(life := t.life.(detachAtNextStop := true));
      if t.life.waitForAttachStop then Done(t1)
      else
        match a.interrupted
        case Accepted => Done(t1)
        case RequestGone => Done(ChangeState(t1, Dead))
        case RequestRefused => Threw(t1.(life := t1.life.(pid := None)), Refused)
  }

  /** Deliver one callback; the consumer may answer with detach(). */
  function Deliver(t: Tracee, c: Callback, a: Answers): (res: Result)
    ensures res.tracee.log == t.log + [c] && res.tracee.id == t.id && SameCalls(t.calls, res.tracee.calls)
    ensures res.Ok?() && Followed(res.tracee) ==> res.tracee.calls == t.calls && res.tracee.life.pid == t.life.pid
    ensures res.Ok?() || res.fault == Some(Refused)
  {
    var t1 := t.(log := t.log + [c]);
    if a.consumerDetaches then Detach(t1, a) else Done(t1)
  }

  // ----- system call stops

  /** The call an entry stop belongs to, and whether it is a resumption. */
  datatype Identified = Identified(calls: Calls, resumed: bool, fault: Option<Fault>)

  function IdentifyCall(c: Calls, info: SyscallInfo, a: Answers): (i: Identified)
    ensures i.calls.current.Some? && i.calls.entered == c.entered
  {
    var c1 := c.(current := Some(CallNr(info.nr)));
    if !info.archTraceable then Identified(c1, false, Some(Internal))
    else if info.nr == RestartSyscall then
      if c.interrupted.Some? then
        Identified(c1.(current := c.interrupted, interrupted := None), true, None)
      else if c.count != 0 || c.initial.None? || c.initial.value.0 != info.abi
              || c.initial.value.1 == RestartSyscall then Identified(c1, false, None)
      else if a.callRecovered.Err? then Identified(c1, false, Some(a.callRecovered.fault))
      else Identified(c1.(current := Some(CallNr(c.initial.value.1))), true, None)
    else if c.interrupted.Some? && c.seenSigreturn then
      Identified(c1.(seenSigreturn := false, interrupted := None), c.interrupted == c1.current, None)
    else Identified(c1, false, None)
  }

  function HandleSystemCallEntry(t: Tracee, info: SyscallInfo, a: Answers): Result {
    if a.callCreated.Err? then Threw(t, a.callCreated.fault)
    else
      var i := IdentifyCall(t.calls, info, a);
      var t1 := t.(calls := i.calls);
      if i.fault.Some? then Threw(t1, i.fault.value)
      else if a.entryFilled.Err? then Threw(t1, a.entryFilled.fault)
      else
        var t2 := t1.(calls := i.calls.(count := i.calls.count + 1));
        Deliver(t2, SyscallEntry(i.calls.current.value, i.resumed), a)
  }

  function Interrupts(info: SyscallInfo): bool {
    info.errno.Some? && IsKernelErrno(info.errno.value)
  }

  /** handleSystemCallExit() after the callback: a sigreturn that does not fail
      with EINTR restarts the interrupted call. */
  function CloseCall(c: Calls, info: SyscallInfo): Calls
    requires c.current.Some?
  {
    var c1 :=
      if c.interrupted.None? || !IsSigreturn(c.current.value) then c
      else if info.errno == Some(EINTR) then c.(interrupted := None)
      else c.(seenSigreturn := true);
    c1.(current := None)
  }

  function HandleSystemCallExit(t: Tracee, info: SyscallInfo, a: Answers): Result {
    if t.calls.current.None? then Threw(t, NullCall)
    else if a.exitFilled.Err? then Threw(t, a.exitFilled.fault)
    else
      var c := if Interrupts(info) then t.calls.(interrupted := t.calls.current) else t.calls;
      var r := Deliver(t.(calls := c), SyscallExit(c.current.value, Interrupts(info)), a);
      if !r.Ok?() || r.tracee.calls.current.None? then r
      else Done(r.tracee.(calls := CloseCall(r.tracee.calls, info)))
  }

  function HandleSystemCall(t: Tracee, a: Answers): Result {
    if a.info.Err? then Threw(t, a.info.fault)
    else
      var info := a.info.value;
      if t.calls.entered then
        if info.kind != ExitStop then Threw(t, Internal)
        else HandleSystemCallExit(ChangeState(t, SyscallExitStop), info, a)
      else
        if info.kind != EntryStop || !info.archKnown then Threw(t, Internal)
        else HandleSystemCallEntry(ChangeState(t, SyscallEnterStop), info, a)
  }

  // ----- signals and ptrace events

  function HandleSignal(t: Tracee, s: Signal, a: Answers): Result {
    var t1 := ChangeState(t, SignalDeliveryStop);
    if a.signalInfo.Err? then Threw(t1, a.signalInfo.fault)
    else
      var r :=
        if t1.life.injectedSigcont && a.signalInfo.value == SigCont
        then Done(t1.(life := t1.life.(injectedSigcont := false)))
        else Deliver(t1, Signaled(a.signalInfo.value), a);
      if !r.Ok?() then r else Done(r.tracee.(life := r.tracee.life.(injectSignal := Some(s))))
  }

  function MarkAttached(t: Tracee): Tracee {
    t.(life := t.life.(
      waitForAttachStop := false,
      restartMode := if t.life.injectedSigstop then t.life.restartMode else Syscall))
  }

  function HandleAttached(t: Tracee, a: Answers): Result {
    var t1 := MarkAttached(t);
    if a.registers.Err? then Threw(t1, a.registers.fault)
    else Deliver(t1.(calls := t1.calls.(initial := Some(a.registers.value))), Attached, a)
  }

  function MarkStopped(t: Tracee, s: Signal): Tracee {
    var t1 := ChangeState(t, GroupStop);
    t1.(life := t1.life.(stopSignal := Some(s)))
  }

  function HandleStopEvent(t: Tracee, s: Signal, a: Answers): Result {
    if t.life.waitForAttachStop then HandleAttached(t, a)
    else if IsStopping(s) then Deliver(MarkStopped(t, s), Stopped, a)
    else if s == SigTrap then Done(t.(life := t.life.(restartMode := Syscall)))
    else Done(t)
  }

  function HandleExitEvent(t: Tracee, a: Answers): Result {
    var inCall := t.life.prevState == SyscallEnterStop;
    if a.exitStatus.Err? then Threw(t, a.exitStatus.fault)
    else if a.exitStatus.value && inCall && t.calls.current.None? then Threw(t, NullCall)
    else
      var lost := a.exitStatus.value && (!inCall || t.calls.current.value !in {ExitGroup, Exit});
      var r := Deliver(t, Exited(lost), a);
      if !r.Ok?() then r
      else Done(r.tracee.(life := r.tracee.life.(waitForExited := true)))
  }

  // ----- the frame around every event

  function HandleDeath(t: Tracee, a: Answers): Result {
    var t1 := ChangeState(t, Dead);
    if t1.life.waitForExited then Done(t1) else Deliver(t1, Disappeared, a)
  }

  /** Restart the tracee after its event was handled. */
  function Restart(t: Tracee, a: Answers): Result {
    if !Followed(t) then Done(t)
    else if a.restarted.Err? then Threw(t, a.restarted.fault)
    else if t.life.restartMode == Listen then Done(t)
    else if t.life.state == GroupStop then Deliver(ChangeState(t, Running), Resumed, a)
    else Done(ChangeState(t, Running))
  }

  predicate IsStopEvent(w: WaitStatus) { w.EventTrap? && w.event.StopEvent? }

  predicate IsExitEvent(w: WaitStatus) { w.EventTrap? && w.event.ExitEvent? }

  predicate IsExecEvent(w: WaitStatus) { w.EventTrap? && w.event.ExecEvent? }

  predicate IsNewTaskEvent(w: WaitStatus) { w.EventTrap? && w.event.NewTaskEvent? }

  predicate IsTrap(w: WaitStatus) { w.SyscallTrap? || w.EventTrap? || w.SignalTrap? }

  /** Events that a tracee can only handle together with its engine. */
  predicate NeedsEngine(w: WaitStatus) {
    IsExecEvent(w) || IsNewTaskEvent(w)
  }

  /** The part of processEvent() between reading the event and the restart. */
  function Dispatch(t: Tracee, w: WaitStatus, a: Answers): Result
    requires !w.Died? && !NeedsEngine(w)
  {
    match w
    case SyscallTrap => HandleSystemCall(t, a)
    case EventTrap(StopEvent, s) => HandleStopEvent(ChangeState(t, EventStop), s, a)
    case EventTrap(ExitEvent, _) => HandleExitEvent(ChangeState(t, EventStop), a)
    case EventTrap(_, _) => Done(ChangeState(t, EventStop))
    case SignalTrap(s) => HandleSignal(t, s, a)
    case StoppedUntraced(s) => HandleSignal(t, s, a)
    case OtherStatus => Done(t)
  }

  function ResetSignal(t: Tracee): Tracee { t.(life := t.life.(injectSignal := None)) }

  /** Tracee::processEvent() for every event that involves this tracee only. */
  function ProcessEvent(t: Tracee, w: WaitStatus, a: Answers): Result
    requires !NeedsEngine(w)
  {
    var t0 := ResetSignal(t);
    if w.Died? then HandleDeath(t0, a)
    else if IsTrap(w) && t0.life.detachAtNextStop then DoDetach(t0, a.detached)
    else
      var r := Dispatch(t0, w, a);
      if !r.Ok?() then r else Restart(r.tracee, a)
  }

  predicate IsNotice(c: Callback) {
    c.NewExecutionContext? || c.NewChildProcess? || c.VforkComplete?
  }

  /** Exec and new-task events, as the reporting tracee itself sees them: the
      event stop, one notice to the consumer, the restart. */
  function ProcessNotice(t: Tracee, notice: Callback, a: Answers): Result {
    var t0 := ResetSignal(t);
    if t0.life.detachAtNextStop then DoDetach(t0, a.detached)
    else
      var t1 := ChangeState(t0, EventStop);
      if a.eventPid.Err? then Threw(t1, a.eventPid.fault)
      else
        var r := Deliver(t1, notice, a);
        if !r.Ok?() then r else Restart(r.tracee, a)
  }

  // ----- execve

  /** syncState(): the calls of the other tracee, but none of its flags. */
  function SyncState(t: Tracee, other: Tracee): Tracee {
    t.(calls := t.calls.(current := other.calls.current, interrupted := other.calls.interrupted,
                         count := other.calls.count, cache := other.calls.cache))
  }

  function SetPid(t: Tracee, p: Pid): Tracee { t.(life := t.life.(pid := Some(p))) }
}
