// The tracee object and the engine as they are: fields updated in place, one
// step at a time. Every method is proved to have the effect that TraceeModel
// and EngineModel describe on values, so that what is proved about runs there
// holds for runs of these objects.
module Tracing {
  import opened Common
  import opened TraceeModel
  import EngineModel

  class Tracee {
    const id: nat
    const isChild: bool
    var pid: Option<Pid>
    var state: State
    var prevState: State
    var waitForAttachStop: bool
    var detachAtNextStop: bool
    var injectedSigstop: bool
    var injectedSigcont: bool
    var waitForExited: bool
    var restartMode: RestartMode
    var injectSignal: Option<Signal>
    var stopSignal: Option<Signal>
    var entered: bool
    var seenSigreturn: bool
    var current: Option<SysNr>
    var interrupted: Option<SysNr>
    var count: nat
    var initial: Option<(Abi, SysNr)>
    var cache: nat
    var log: seq<Callback>

    function LifeView(): Life
      reads this
    {
      Life(pid, state, prevState, waitForAttachStop, detachAtNextStop, injectedSigstop, injectedSigcont,
           waitForExited, restartMode, injectSignal, stopSignal)
    }

    function CallsView(): Calls
      reads this
    {
      Calls(entered, seenSigreturn, current, interrupted, count, initial, cache)
    }

    function View(): TraceeModel.Tracee
      reads this
    {
      TraceeModel.Tracee(id, isChild, LifeView(), CallsView(), log)
    }

    /** attach() was called: the first stop is waited for. */
    constructor (id: nat, pid: Pid, isChild: bool)
      ensures View() == Attaching(id, pid, isChild)
    {
      this.id, this.pid, this.isChild := id, Some(pid), isChild;
      state, prevState := Unknown, Unknown;
      waitForAttachStop, detachAtNextStop := true, false;
      injectedSigstop, injectedSigcont, waitForExited := isChild, isChild, false;
      restartMode, injectSignal, stopSignal := Cont, None, None;
      entered, seenSigreturn, current, interrupted, count, initial := false, false, None, None, 0, None;
      cache := id;
      log := [];
    }

    method ChangeState(s: State)
      modifies this
      ensures View() == TraceeModel.ChangeState(old(View()), s)
    {
      hide Move;
      SetEntered(s);
      Enter(s);
    }

    method SetEntered(s: State)
      modifies `entered
      ensures entered == (s == SyscallEnterStop || (s != SyscallExitStop && old(entered)))
    {
      if s == SyscallEnterStop {
        entered := true;
      } else if s == SyscallExitStop {
        entered := false;
      }
    }

    method Enter(s: State)
      modifies `state, `prevState, `restartMode, `injectedSigstop, `detachAtNextStop, `stopSignal
      ensures LifeView() == Move(old(LifeView()), s)
    {
      if s == GroupStop {
        if injectedSigstop {
          injectedSigstop := false;
          restartMode := Syscall;
        } else {
          restartMode := Listen;
        }
      } else if s == Detached {
        detachAtNextStop := false;
      }
      if state != Running {
        prevState := state;
      }
      if prevState == GroupStop && state != GroupStop {
        stopSignal := None;
      }
      state := s;
    }

    method ResetFlags()
      modifies `waitForAttachStop, `detachAtNextStop, `injectedSigstop, `injectedSigcont, `waitForExited,
        `entered, `seenSigreturn
      ensures !waitForAttachStop && !detachAtNextStop && !injectedSigstop && !injectedSigcont && !waitForExited
      ensures !entered && !seenSigreturn
    {
      waitForAttachStop, detachAtNextStop := false, false;
      injectedSigstop, injectedSigcont, waitForExited := false, false, false;
      entered, seenSigreturn := false, false;
    }

    method Forget()
      modifies this
      ensures View() == TraceeModel.Forget(old(View()))
    {
      pid := None;
      ResetFlags();
    }

    method DoDetach(r: Request) returns (fault: Option<Fault>)
      modifies this
      ensures Result(View(), fault) == TraceeModel.DoDetach(old(View()), r)
    {
      hide TraceeModel.ChangeState, TraceeModel.Forget;
      match r {
        case Accepted => ChangeState(Detached);
        case RequestGone => ChangeState(Dead);
        case RequestRefused =>
          pid := None;
          return Some(Refused);
      }
      Forget();
      return None;
    }

    method Detach(a: Answers) returns (fault: Option<Fault>)
      modifies this
      ensures Result(View(), fault) == TraceeModel.Detach(old(View()), a)
    {
      hide Move, TraceeModel.DoDetach;
      if pid.None? || state == Dead || state == Detached {
        return None;
      }
      if state != Running && state != Unknown {
        fault := DoDetach(a.detached);
        return;
      }
      detachAtNextStop := true;
      if !waitForAttachStop {
        match a.interrupted {
          case Accepted =>
          case RequestGone => ChangeState(Dead);
          case RequestRefused =>
            pid := None;
            return Some(Refused);
        }
      }
      return None;
    }

    /** A callback; the consumer may call detach() before it returns. */
    method Deliver(c: Callback, a: Answers) returns (fault: Option<Fault>)
      modifies this
      ensures Result(View(), fault) == TraceeModel.Deliver(old(View()), c, a)
    {
      log := log + [c];
      if a.consumerDetaches {
        fault := Detach(a);
      } else {
        fault := None;
      }
    }

    /** Which call an entry stop belongs to. */
    method IdentifyCall(info: SyscallInfo, a: Answers) returns (resumed: bool, fault: Option<Fault>)
      modifies `current, `interrupted, `seenSigreturn
      ensures Identified(CallsView(), resumed, fault) == TraceeModel.IdentifyCall(old(CallsView()), info, a)
    {
      resumed := false;
      current := Some(CallNr(info.nr));
      if !info.archTraceable {
        return false, Some(Internal);
      }
      if info.nr == RestartSyscall {
        if interrupted.Some? {
          current, interrupted, resumed := interrupted, None, true;
        } else if count != 0 {
          // perhaps an explicit restart_syscall(2) by user space
        } else if initial.Some? && initial.value.0 == info.abi && initial.value.1 != RestartSyscall {
          if a.callRecovered.Err? {
            return false, Some(a.callRecovered.fault);
          }
          current, resumed := Some(CallNr(initial.value.1)), true;
        }
      } else if interrupted.Some? && seenSigreturn {
        resumed := interrupted == current;
        seenSigreturn, interrupted := false, None;
      }
      fault := None;
    }

    method HandleSystemCallEntry(info: SyscallInfo, a: Answers) returns (fault: Option<Fault>)
      modifies this
      ensures Result(View(), fault) == TraceeModel.HandleSystemCallEntry(old(View()), info, a)
    {
      hide TraceeModel.IdentifyCall, TraceeModel.Deliver;
      if a.callCreated.Err? {
        return Some(a.callCreated.fault);
      }
      var resumed;
      resumed, fault := IdentifyCall(info, a);
      if fault.Some? {
        return;
      }
      if a.entryFilled.Err? {
        return Some(a.entryFilled.fault);
      }
      count := count + 1;
      fault := Deliver(SyscallEntry(current.value, resumed), a);
    }

    /** What becomes of an interrupted call when a call has returned. */
    method CloseCall(info: SyscallInfo)
      requires current.Some?
      modifies `current, `interrupted, `seenSigreturn
      ensures CallsView() == TraceeModel.CloseCall(old(CallsView()), info)
    {
      if interrupted.Some? && IsSigreturn(current.value) {
        if info.errno == Some(EINTR) {
          interrupted := None;
        } else {
          seenSigreturn := true;
        }
      }
      current := None;
    }

    method HandleSystemCallExit(info: SyscallInfo, a: Answers) returns (fault: Option<Fault>)
      modifies this
      ensures Result(View(), fault) == TraceeModel.HandleSystemCallExit(old(View()), info, a)
    {
      hide TraceeModel.CloseCall, TraceeModel.Deliver, Interrupts;
      if current.None? {
        return Some(NullCall);
      }
      if a.exitFilled.Err? {
        return Some(a.exitFilled.fault);
      }
      if Interrupts(info) {
        interrupted := current;
      }
      fault := Deliver(SyscallExit(current.value, Interrupts(info)), a);
      if fault.None? && current.Some? {
        CloseCall(info);
      }
    }

    method HandleSystemCall(a: Answers) returns (fault: Option<Fault>)
      modifies this
      ensures Result(View(), fault) == TraceeModel.HandleSystemCall(old(View()), a)
    {
      hide TraceeModel.HandleSystemCallEntry, TraceeModel.HandleSystemCallExit, TraceeModel.ChangeState;
      if a.info.Err? {
        return Some(a.info.fault);
      }
      var info := a.info.value;
      if entered {
        if info.kind != ExitStop {
          return Some(Internal);
        }
        ChangeState(SyscallExitStop);
        fault := HandleSystemCallExit(info, a);
      } else {
        if info.kind != EntryStop || !info.archKnown {
          return Some(Internal);
        }
        ChangeState(SyscallEnterStop);
        fault := HandleSystemCallEntry(info, a);
      }
    }

    method HandleSignal(s: Signal, a: Answers) returns (fault: Option<Fault>)
      modifies this
      ensures Result(View(), fault) == TraceeModel.HandleSignal(old(View()), s, a)
    {
      hide TraceeModel.Deliver, TraceeModel.ChangeState;
      ChangeState(SignalDeliveryStop);
      if a.signalInfo.Err? {
        return Some(a.signalInfo.fault);
      }
      fault := None;
      if injectedSigcont && a.signalInfo.value == SigCont {
        injectedSigcont := false;
      } else {
        fault := Deliver(Signaled(a.signalInfo.value), a);
      }
      if fault.None? {
        injectSignal := Some(s);
      }
    }

    method HandleAttached(a: Answers) returns (fault: Option<Fault>)
      modifies this
      ensures Result(View(), fault) == TraceeModel.HandleAttached(old(View()), a)
    {
      hide TraceeModel.Deliver;
      waitForAttachStop := false;
      if !injectedSigstop {
        restartMode := Syscall;
      }
      if a.registers.Err? {
        return Some(a.registers.fault);
      }
      initial := Some(a.registers.value);
      fault := Deliver(Attached, a);
    }

    method HandleStopEvent(s: Signal, a: Answers) returns (fault: Option<Fault>)
      modifies this
      ensures Result(View(), fault) == TraceeModel.HandleStopEvent(old(View()), s, a)
    {
      hide TraceeModel.Deliver, TraceeModel.HandleAttached, TraceeModel.ChangeState;
      if waitForAttachStop {
        fault := HandleAttached(a);
      } else if IsStopping(s) {
        ChangeState(GroupStop);
        stopSignal := Some(s);
        fault := Deliver(Stopped, a);
      } else {
        if s == SigTrap {
          restartMode := Syscall;
        }
        fault := None;
      }
    }

    method HandleExitEvent(a: Answers) returns (fault: Option<Fault>)
      modifies this
      ensures Result(View(), fault) == TraceeModel.HandleExitEvent(old(View()), a)
    {
      hide TraceeModel.Deliver;
      if a.exitStatus.Err? {
        return Some(a.exitStatus.fault);
      }
      var lost := false;
      if a.exitStatus.value {
        if prevState != SyscallEnterStop {
          lost := true;
        } else if current.None? {
          return Some(NullCall);
        } else {
          lost := current.value !in {ExitGroup, Exit};
        }
      }
      fault := Deliver(Exited(lost), a);
      if fault.None? {
        waitForExited := true;
      }
    }

    method Restart(a: Answers) returns (fault: Option<Fault>)
      modifies this
      ensures Result(View(), fault) == TraceeModel.Restart(old(View()), a)
    {
      hide TraceeModel.Deliver, TraceeModel.ChangeState;
      if state == Dead || state == Detached {
        return None;
      }
      if a.restarted.Err? {
        return Some(a.restarted.fault);
      }
      fault := None;
      if restartMode != Listen {
        var resumed := state == GroupStop;
        ChangeState(Running);
        if resumed {
          fault := Deliver(Resumed, a);
        }
      }
    }

    method HandleTrap(w: WaitStatus, a: Answers) returns (fault: Option<Fault>)
      requires !w.Died? && !NeedsEngine(w)
      modifies this
      ensures Result(View(), fault) == Dispatch(old(View()), w, a)
    {
      hide TraceeModel.HandleSystemCall, TraceeModel.HandleSignal, TraceeModel.HandleStopEvent,
        TraceeModel.HandleExitEvent, TraceeModel.ChangeState;
      fault := None;
      match w {
        case SyscallTrap => fault := HandleSystemCall(a);
        case EventTrap(event, s) =>
          ChangeState(EventStop);
          if event == StopEvent {
            fault := HandleStopEvent(s, a);
          } else if event == ExitEvent {
            fault := HandleExitEvent(a);
          }
        case SignalTrap(s) => fault := HandleSignal(s, a);
        case StoppedUntraced(s) => fault := HandleSignal(s, a);
        case OtherStatus =>
      }
    }

    method ProcessEvent(w: WaitStatus, a: Answers) returns (fault: Option<Fault>)
      requires !NeedsEngine(w)
      modifies this
      ensures Result(View(), fault) == TraceeModel.ProcessEvent(old(View()), w, a)
    {
      hide Dispatch, TraceeModel.ChangeState, TraceeModel.DoDetach, TraceeModel.Restart, TraceeModel.Deliver;
      injectSignal := None;
      if w.Died? {
        ChangeState(Dead);
        fault := None;
        if !waitForExited {
          fault := Deliver(Disappeared, a);
        }
        return;
      }
      if IsTrap(w) && detachAtNextStop {
        fault := DoDetach(a.detached);
        return;
      }
      fault := HandleTrap(w, a);
      if fault.None? {
        fault := Restart(a);
      }
    }

    /** The consumer hears of this new task in newChildProcess(). */
    method Announce(a: Answers) returns (fault: Option<Fault>)
      modifies this
      ensures Result(View(), fault) == EngineModel.Announce(old(View()), a)
    {
      hide TraceeModel.Detach;
      log := log + [Announced];
      fault := None;
      if a.consumerRejects {
        fault := Detach(a);
      }
    }

    method SetPid(p: Pid)
      modifies `pid
      ensures View() == TraceeModel.SetPid(old(View()), p)
    {
      pid := Some(p);
    }

    method TakeCalls(other: Tracee)
      modifies `current, `interrupted, `count, `cache
      ensures View() == TraceeModel.SyncState(old(View()), old(other.View()))
    {
      current, interrupted, count, cache := other.current, other.interrupted, other.count, other.cache;
    }

    /** Take over the calls of the thread that became this one. */
    method SyncState(other: Tracee)
      requires other != this
      modifies this, other
      ensures View() == TraceeModel.SyncState(old(View()), old(other.View()))
      ensures other.View() == TraceeModel.ChangeState(old(other.View()), Dead)
    {
      hide TraceeModel.ChangeState, TraceeModel.SyncState;
      TakeCalls(other);
      other.ChangeState(Dead);
    }
  }
}
