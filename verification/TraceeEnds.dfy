// How a tracee ends: its death is told to the consumer exactly once, the exit
// event finds the call it looks at, and a requested detach is final.
module TraceeEnds {
  import opened Common
  import opened TraceeModel
  import opened TraceeRuns

  // ----- exactly one of exited() and disappeared()

  /** The death notices given so far, as the tracee's own flags account for
      them, for a tracee nobody asked to detach from. */
  predicate Accounted(r: Run) {
    var l, deaths := r.tracee.life, Observe(r.tracee.log).deaths;
    && !l.detachAtNextStop
    && (l.waitForExited ==> r.exitSeen)
    && (!r.dead ==> Followed(r.tracee))
    && deaths == if r.dead || l.waitForExited then 1 else 0
  }

  /** A handler that has nothing to do with the tracee's death. */
  predicate NoDeathActivity(t: Tracee, u: Tracee) {
    && Observe(u.log).deaths == Observe(t.log).deaths
    && u.life.waitForExited == t.life.waitForExited
    && u.life.detachAtNextStop == t.life.detachAtNextStop
    && (Followed(t) ==> Followed(u))
  }

  predicate IsDeathNotice(c: Callback) { c.Exited? || c.Disappeared? }

  lemma DeliverUndisturbed(t: Tracee, c: Callback, a: Answers)
    requires !a.consumerDetaches
    ensures Deliver(t, c, a) == Done(t.(log := t.log + [c]))
    ensures !IsDeathNotice(c) ==> NoDeathActivity(t, Deliver(t, c, a).tracee)
    ensures IsDeathNotice(c) ==> Observe(t.log + [c]).deaths == Observe(t.log).deaths + 1
  {
    ObserveNext(t.log, c);
  }

  lemma SyscallTrapUndisturbed(t: Tracee, a: Answers)
    requires !a.consumerDetaches
    ensures NoDeathActivity(t, HandleSystemCall(t, a).tracee)
  {
    hide Deliver, Observe, IdentifyCall, CloseCall;
    if a.info.Ok? && t.calls.entered && t.calls.current.Some? {
      var u, info := ChangeState(t, SyscallExitStop), a.info.value;
      var c := if Interrupts(info) then u.calls.(interrupted := u.calls.current) else u.calls;
      DeliverUndisturbed(u.(calls := c), SyscallExit(c.current.value, Interrupts(info)), a);
    } else if a.info.Ok? && !t.calls.entered {
      var u := ChangeState(t, SyscallEnterStop);
      var i := IdentifyCall(u.calls, a.info.value, a);
      DeliverUndisturbed(u.(calls := i.calls.(count := i.calls.count + 1)),
                         SyscallEntry(i.calls.current.value, i.resumed), a);
    }
  }

  lemma SignalUndisturbed(t: Tracee, s: Signal, a: Answers)
    requires !a.consumerDetaches
    ensures NoDeathActivity(t, HandleSignal(t, s, a).tracee)
  {
    hide Deliver, Observe;
    if a.signalInfo.Ok? {
      DeliverUndisturbed(ChangeState(t, SignalDeliveryStop), Signaled(a.signalInfo.value), a);
    }
  }

  lemma AttachedUndisturbed(t: Tracee, a: Answers)
    requires !a.consumerDetaches
    ensures NoDeathActivity(t, HandleAttached(t, a).tracee)
  {
    hide Deliver, Observe;
    if a.registers.Ok? {
      var v := MarkAttached(t);
      DeliverUndisturbed(v.(calls := v.calls.(initial := Some(a.registers.value))), Attached, a);
    }
  }

  lemma StopEventUndisturbed(t: Tracee, s: Signal, a: Answers)
    requires !a.consumerDetaches
    ensures NoDeathActivity(t, HandleStopEvent(ChangeState(t, EventStop), s, a).tracee)
  {
    hide Deliver, Observe, HandleAttached;
    var u := ChangeState(t, EventStop);
    AttachedUndisturbed(u, a);
    DeliverUndisturbed(MarkStopped(u, s), Stopped, a);
  }

  lemma RestartUndisturbed(t: Tracee, a: Answers)
    requires !a.consumerDetaches
    ensures NoDeathActivity(t, Restart(t, a).tracee)
  {
    hide Deliver, Observe;
    DeliverUndisturbed(ChangeState(t, Running), Resumed, a);
  }

  lemma DispatchUndisturbed(t: Tracee, w: WaitStatus, a: Answers)
    requires !a.consumerDetaches && !w.Died? && !NeedsEngine(w) && !IsExitEvent(w)
    ensures NoDeathActivity(t, Dispatch(t, w, a).tracee)
  {
    hide HandleSystemCall, HandleSignal, HandleStopEvent, Observe;
    match w
    case SyscallTrap => SyscallTrapUndisturbed(t, a);
    case EventTrap(StopEvent, s) => StopEventUndisturbed(t, s, a);
    case SignalTrap(s) => SignalUndisturbed(t, s, a);
    case StoppedUntraced(s) => SignalUndisturbed(t, s, a);
    case _ =>
  }

  lemma NoticeUndisturbed(t: Tracee, notice: Callback, a: Answers)
    requires !a.consumerDetaches && IsNotice(notice) && !t.life.detachAtNextStop
    ensures NoDeathActivity(t, ProcessNotice(t, notice, a).tracee)
  {
    hide Deliver, Restart, Observe;
    var u := ChangeState(ResetSignal(t), EventStop);
    DeliverUndisturbed(u, notice, a);
    RestartUndisturbed(u.(log := u.log + [notice]), a);
  }

  /** An exit event is told, and remembered, or it faults before either. */
  lemma ExitEventTold(t: Tracee, a: Answers)
    requires !a.consumerDetaches && !t.life.waitForExited
    ensures var u := HandleExitEvent(ChangeState(t, EventStop), a).tracee;
      && Observe(u.log).deaths == Observe(t.log).deaths + (if u.life.waitForExited then 1 else 0)
      && u.life.detachAtNextStop == t.life.detachAtNextStop
      && (Followed(t) ==> Followed(u))
  {
    hide Deliver, Observe;
    var u := ChangeState(t, EventStop);
    DeliverUndisturbed(u, Exited(true), a);
    DeliverUndisturbed(u, Exited(false), a);
  }

  lemma DeathTold(t: Tracee, a: Answers)
    requires !a.consumerDetaches
    ensures var u := HandleDeath(t, a).tracee;
      && Observe(u.log).deaths == Observe(t.log).deaths + (if t.life.waitForExited then 0 else 1)
      && u.life.detachAtNextStop == t.life.detachAtNextStop
      && u.life.waitForExited == t.life.waitForExited
  {
    hide Deliver, Observe;
    DeliverUndisturbed(ChangeState(t, Dead), Disappeared, a);
  }

  lemma DispatchOfExitEvent(t: Tracee, w: WaitStatus, a: Answers)
    requires IsExitEvent(w)
    ensures Dispatch(t, w, a) == HandleExitEvent(ChangeState(t, EventStop), a)
  {}

  lemma StepAccounted(r: Run, s: Step)
    requires Accounted(r) && MayReport(r, s) && !s.answers.consumerDetaches
    ensures Accounted(Advance(r, s))
  {
    hide Dispatch, DoDetach, Restart, HandleDeath, ProcessNotice, Observe;
    var w, a, t := s.status, s.answers, ResetSignal(r.tracee);
    if NeedsEngine(w) {
      NoticeUndisturbed(r.tracee, s.notice, a);
    } else if w.Died? {
      DeathTold(t, a);
    } else {
      RestartUndisturbed(Dispatch(t, w, a).tracee, a);
      if IsExitEvent(w) {
        ExitEventTold(t, a);
        DispatchOfExitEvent(t, w, a);
      } else {
        DispatchUndisturbed(t, w, a);
      }
    }
  }

  predicate Undisturbed(steps: seq<Step>) {
    forall s | s in steps :: !s.answers.consumerDetaches
  }

  lemma {:induction false} RunAccounted(r: Run, steps: seq<Step>)
    requires Accounted(r) && Possible(r, steps) && Undisturbed(steps)
    ensures Accounted(RunAll(r, steps))
    decreases |steps|
  {
    if steps != [] {
      hide Accounted, Advance, MayReport;
      StepAccounted(r, steps[0]);
      RunAccounted(Advance(r, steps[0]), steps[1..]);
    }
  }

  /** A tracee followed to its death gets exactly one of exited() and
      disappeared(); one that still lives got at most one. */
  lemma DeathIsToldOnce(id: nat, pid: Pid, isChild: bool, steps: seq<Step>)
    requires Possible(NewRun(Attaching(id, pid, isChild)), steps) && Undisturbed(steps)
    ensures var r := RunAll(NewRun(Attaching(id, pid, isChild)), steps);
      && Observe(r.tracee.log).deaths <= 1
      && (r.dead ==> Observe(r.tracee.log).deaths == 1)
  {
    RunAccounted(NewRun(Attaching(id, pid, isChild)), steps);
  }

  // ----- the call an exit event looks at

  /** An exit event handled now would find SYSCALL_ENTER_STOP as prevState(). */
  predicate FromEntryStop(l: Life) {
    l.state == SyscallEnterStop || (l.state == Running && l.prevState == SyscallEnterStop)
  }

  predicate EntryKnown(t: Tracee) { FromEntryStop(t.life) ==> t.calls.current.Some? }

  lemma DetachKeepsEntry(t: Tracee, a: Answers)
    requires EntryKnown(t)
    ensures EntryKnown(Detach(t, a).tracee)
  {
    hide DoDetach;
    DoDetachKeepsEntry(t, a.detached);
  }

  lemma DoDetachKeepsEntry(t: Tracee, r: Request)
    requires EntryKnown(t)
    ensures EntryKnown(DoDetach(t, r).tracee)
  {}

  lemma DeliverKeepsEntry(t: Tracee, c: Callback, a: Answers)
    requires EntryKnown(t)
    ensures EntryKnown(Deliver(t, c, a).tracee)
  {
    hide Detach;
    DetachKeepsEntry(t.(log := t.log + [c]), a);
  }

  lemma RestartKeepsEntry(t: Tracee, a: Answers)
    requires EntryKnown(t)
    ensures EntryKnown(Restart(t, a).tracee)
  {
    hide Deliver;
    if Followed(t) && t.life.state == GroupStop {
      DeliverKeepsEntry(ChangeState(t, Running), Resumed, a);
    }
  }

  lemma SyscallTrapKeepsEntry(t: Tracee, a: Answers)
    requires a.callCreated.Ok?
    requires EntryKnown(t)
             || (a.info.Ok? && !t.calls.entered && a.info.value.kind == EntryStop && a.info.value.archKnown)
    ensures EntryKnown(HandleSystemCall(t, a).tracee)
  {
    hide Deliver, IdentifyCall, CloseCall;
    if a.info.Ok? && t.calls.entered && t.calls.current.Some? {
      var u, info := ChangeState(t, SyscallExitStop), a.info.value;
      var c := if Interrupts(info) then u.calls.(interrupted := u.calls.current) else u.calls;
      ExitDelivered(u.(calls := c), SyscallExit(c.current.value, Interrupts(info)), a);
    } else if a.info.Ok? && !t.calls.entered {
      var u := ChangeState(t, SyscallEnterStop);
      var i := IdentifyCall(u.calls, a.info.value, a);
      DeliverKeepsEntry(u.(calls := i.calls.(count := i.calls.count + 1)),
                        SyscallEntry(i.calls.current.value, i.resumed), a);
    }
  }

  /** After an exit stop was reported the tracee no longer looks entered. */
  lemma ExitDelivered(t: Tracee, c: Callback, a: Answers)
    requires t.life.state == SyscallExitStop
    ensures !FromEntryStop(Deliver(t, c, a).tracee.life)
  {}

  lemma SignalKeepsEntry(t: Tracee, s: Signal, a: Answers)
    ensures EntryKnown(HandleSignal(t, s, a).tracee)
  {
    hide Deliver;
    var u := ChangeState(t, SignalDeliveryStop);
    if a.signalInfo.Ok? { DeliverKeepsEntry(u, Signaled(a.signalInfo.value), a); }
  }

  lemma StateAfter(t: Tracee, s: State)
    ensures ChangeState(t, s).life.state == s
  {}

  lemma AttachedKeepsEntry(t: Tracee, a: Answers)
    requires t.life.state == EventStop
    ensures EntryKnown(HandleAttached(t, a).tracee)
  {
    hide Deliver;
    var v := MarkAttached(t);
    if a.registers.Ok? {
      DeliverKeepsEntry(v.(calls := v.calls.(initial := Some(a.registers.value))), Attached, a);
    }
  }

  lemma StopEventKeepsEntry(t: Tracee, s: Signal, a: Answers)
    ensures EntryKnown(HandleStopEvent(ChangeState(t, EventStop), s, a).tracee)
  {
    hide Deliver, HandleAttached, ChangeState;
    var u := ChangeState(t, EventStop);
    StateAfter(t, EventStop);
    StateAfter(u, GroupStop);
    if u.life.waitForAttachStop {
      AttachedKeepsEntry(u, a);
    } else {
      DeliverKeepsEntry(MarkStopped(u, s), Stopped, a);
    }
  }

  /** Given that, the exit event never dereferences a missing call. */
  lemma ExitEventFindsCall(t: Tracee, a: Answers)
    requires EntryKnown(t)
    ensures HandleExitEvent(ChangeState(t, EventStop), a).fault != Some(NullCall)
    ensures EntryKnown(HandleExitEvent(ChangeState(t, EventStop), a).tracee)
  {
    hide Deliver;
    var u := ChangeState(t, EventStop);
    DeliverKeepsEntry(u, Exited(true), a);
    DeliverKeepsEntry(u, Exited(false), a);
  }

  lemma DispatchKeepsEntry(t: Tracee, w: WaitStatus, a: Answers)
    requires EntryKnown(t) && a.callCreated.Ok? && !w.Died? && !NeedsEngine(w)
    ensures EntryKnown(Dispatch(t, w, a).tracee)
  {
    hide HandleSystemCall, HandleSignal, HandleStopEvent, HandleExitEvent;
    match w
    case SyscallTrap => SyscallTrapKeepsEntry(t, a);
    case EventTrap(StopEvent, s) => StopEventKeepsEntry(t, s, a);
    case EventTrap(ExitEvent, s) => ExitEventFindsCall(t, a);
    case SignalTrap(s) => SignalKeepsEntry(t, s, a);
    case StoppedUntraced(s) => SignalKeepsEntry(t, s, a);
    case _ =>
  }

  lemma StepKeepsEntry(t: Tracee, s: Step)
    requires EntryKnown(t) && s.answers.callCreated.Ok?
    ensures EntryKnown(Process(t, s).tracee)
  {
    hide Dispatch, DoDetach, Restart, Deliver;
    var w, a, t0 := s.status, s.answers, ResetSignal(t);
    DoDetachKeepsEntry(t0, a.detached);
    if NeedsEngine(w) {
      var u := ChangeState(t0, EventStop);
      DeliverKeepsEntry(u, s.notice, a);
      RestartKeepsEntry(Deliver(u, s.notice, a).tracee, a);
    } else if w.Died? {
      DeliverKeepsEntry(ChangeState(t0, Dead), Disappeared, a);
    } else {
      DispatchKeepsEntry(t0, w, a);
      RestartKeepsEntry(Dispatch(t0, w, a).tracee, a);
    }
  }

  predicate CallsCreated(steps: seq<Step>) {
    forall s | s in steps :: s.answers.callCreated.Ok?
  }

  lemma {:induction false} RunKeepsEntry(r: Run, steps: seq<Step>)
    requires EntryKnown(r.tracee) && CallsCreated(steps)
    ensures EntryKnown(RunAll(r, steps).tracee)
    decreases |steps|
  {
    if steps != [] {
      hide EntryKnown, Process;
      StepKeepsEntry(r.tracee, steps[0]);
      RunKeepsEntry(Advance(r, steps[0]), steps[1..]);
    }
  }

  /** In every run in which each entered call got its SystemCall object, an
      exit event finds the call it dereferences. */
  lemma ExitEventIsSafe(id: nat, pid: Pid, isChild: bool, steps: seq<Step>, a: Answers)
    requires CallsCreated(steps)
    ensures var t := RunAll(NewRun(Attaching(id, pid, isChild)), steps).tracee;
      HandleExitEvent(ChangeState(t, EventStop), a).fault != Some(NullCall)
  {
    var r := NewRun(Attaching(id, pid, isChild));
    RunKeepsEntry(r, steps);
    ExitEventFindsCall(RunAll(r, steps).tracee, a);
  }

  lemma EntryWithoutCall(t: Tracee, entry: Answers, exit: Answers)
    requires t.calls.current.None? && !t.calls.entered && entry.callCreated.Err?
    requires entry.info.Ok? && entry.info.value.kind == EntryStop && entry.info.value.archKnown
    requires exit.exitStatus == Ok(true)
    ensures var res := HandleSystemCall(t, entry);
      !res.Ok?() && HandleExitEvent(ChangeState(res.tracee, EventStop), exit).fault == Some(NullCall)
  {
    hide Deliver, IdentifyCall;
  }

  /** The source misses that when SystemCallDB::get() fails: SYSCALL_ENTERED is
      set before. At an entry stop of any tracee in any consistent run, whatever
      the consumer does in it and however the restart ends, the exit event of a
      terminating tracee that comes next dereferences a missing call exactly if
      the call object could not be created. */
  lemma ExitEventUnsafeExactly(r: Run, entry: Answers, exit: Answers)
    requires Consistent(r) && !r.quiet && !r.tracee.calls.entered && !r.tracee.life.detachAtNextStop
    requires entry.info.Ok? && entry.info.value.kind == EntryStop && entry.info.value.archKnown
    requires exit.exitStatus == Ok(true)
    ensures var t := ProcessEvent(r.tracee, SyscallTrap, entry).tracee;
      HandleExitEvent(ChangeState(t, EventStop), exit).fault == Some(NullCall) <==> entry.callCreated.Err?
  {
    hide HandleSystemCallEntry, HandleExitEvent, Restart;
    var t := ResetSignal(r.tracee);
    if entry.callCreated.Ok? {
      SyscallTrapKeepsEntry(t, entry);
      RestartKeepsEntry(HandleSystemCall(t, entry).tracee, entry);
      ExitEventFindsCall(ProcessEvent(r.tracee, SyscallTrap, entry).tracee, exit);
    } else {
      EntryWithoutCall(t, entry, exit);
    }
  }

  // ----- a requested detach

  predicate IsStopped(t: Tracee) { t.life.state != Running && t.life.state != Unknown }

  /** What the kernel says to detach(): nothing is asked of it while the attach
      stop is still to come. */
  function Answer(t: Tracee, a: Answers): Request {
    if IsStopped(t) then a.detached else if t.life.waitForAttachStop then Accepted else a.interrupted
  }

  /** No flag is left. */
  predicate Blank(t: Tracee) {
    var l := t.life;
    && !l.waitForAttachStop && !l.detachAtNextStop && !l.injectedSigstop && !l.injectedSigcont && !l.waitForExited
    && !t.calls.entered && !t.calls.seenSigreturn
  }

  /** What detach() comes to, for every tracee and every answer: it fails exactly if
      the kernel refuses, a tracee that is gone counts as dead, a stopped one is
      released with nothing left of it, and a running one is to be released. */
  lemma DetachSettles(t: Tracee, a: Answers)
    ensures var r := Detach(t, a);
      var u := r.tracee;
      var answer := Answer(t, a);
      if t.life.pid.None? || !Followed(t) then r == Done(t)
      else
        && (r.Ok?() <==> answer != RequestRefused)
        && (u.life.state == Dead <==> answer == RequestGone)
        && (u.life.state == Detached <==> answer == Accepted && IsStopped(t))
        && (answer == Accepted && !IsStopped(t) ==> u == t.(life := t.life.(detachAtNextStop := true)))
        && (r.Ok?() && IsStopped(t) ==> u.life.pid.None? && Blank(u))
        && (answer == RequestRefused ==>
              u == t.(life := t.life.(pid := None, detachAtNextStop := t.life.detachAtNextStop || !IsStopped(t))))
  {
    if t.life.pid.Some? && Followed(t) {
      hide ChangeState, Forget;
      if IsStopped(t) { Released(t, Detached); Released(t, Dead); } else { GoneWhileRunning(t); }
    }
  }

  lemma Released(t: Tracee, s: State)
    ensures var u := Forget(ChangeState(t, s));
      u.life.state == s && u.life.pid.None? && Blank(u)
  {}

  lemma GoneWhileRunning(t: Tracee)
    ensures ChangeState(t.(life := t.life.(detachAtNextStop := true)), Dead).life.state == Dead
  {}

  /** Once it has come to an end or was refused, no further detach() does anything. */
  lemma DetachedOnce(t: Tracee, a: Answers, b: Answers)
    ensures var r := Detach(t, a);
      !r.Ok?() || !Followed(r.tracee) ==> Detach(r.tracee, b) == Done(r.tracee)
  {
    hide ChangeState, Forget;
    Released(t, Detached);
    Released(t, Dead);
    GoneWhileRunning(t);
  }


  /** detach() was called and could not take effect at once, or it has. */
  predicate Leaving(r: Run) {
    r.dead || !Followed(r.tracee)
    || (r.tracee.life.detachAtNextStop && r.tracee.life.state != GroupStop)
  }

  /** The callbacks given since, if any: nothing but the news of the death. */
  predicate OnlyDeathSince(before: seq<Callback>, r: Run) {
    r.tracee.log == before || (r.dead && r.tracee.log == before + [Disappeared])
  }

  /** A detach is under way and nothing in the way of it. */
  predicate Goes(r: Run) { Leaving(r) && (Followed(r.tracee) || r.quiet) }

  /** The process stopped by a signal that is not a ptrace trap. processEvent()
      looks at the pending detach for traps only, so this signal is reported,
      unless it cannot be asked for or is our own SIGCONT. */
  predicate Speaks(r: Run, s: Step) {
    && s.status.StoppedUntraced? && s.answers.signalInfo.Ok?
    && !(r.tracee.life.injectedSigcont && s.answers.signalInfo.value == SigCont)
  }

  predicate EverSpeaks(r: Run, steps: seq<Step>)
    decreases |steps|
  {
    steps != [] && (Speaks(r, steps[0]) || EverSpeaks(Advance(r, steps[0]), steps[1..]))
  }

  lemma LeavingTrap(t: Tracee, s: Step)
    requires t.life.detachAtNextStop && !s.status.StoppedUntraced? && !s.status.Died? && !s.status.OtherStatus?
    ensures Process(t, s) == DoDetach(ResetSignal(t), s.answers.detached)
  {}

  lemma UntracedIsSignal(t: Tracee, s: Step)
    requires s.status.StoppedUntraced?
    ensures var h := HandleSignal(ResetSignal(t), s.status.stopSignal, s.answers);
      Process(t, s) == if h.Ok?() then Restart(h.tracee, s.answers) else h
  {
    hide HandleSignal, Restart;
  }

  lemma ReportedSignal(t: Tracee, signal: Signal, a: Answers)
    requires a.signalInfo.Ok? && !(t.life.injectedSigcont && a.signalInfo.value == SigCont)
    ensures HandleSignal(t, signal, a).tracee.log == t.log + [Signaled(a.signalInfo.value)]
  {
    hide Deliver;
  }

  lemma SwallowedSignal(t: Tracee, signal: Signal, a: Answers)
    requires a.signalInfo.Err? || (t.life.injectedSigcont && a.signalInfo.value == SigCont)
    ensures var u := HandleSignal(t, signal, a).tracee;
      u.log == t.log && u.life.state == SignalDeliveryStop && u.life.detachAtNextStop == t.life.detachAtNextStop
  {
    hide Deliver;
  }

  lemma RestartFromSignal(t: Tracee, a: Answers)
    requires t.life.state == SignalDeliveryStop
    ensures var u := Restart(t, a).tracee;
      && u.log == t.log && u.life.state in {SignalDeliveryStop, Running}
      && u.life.detachAtNextStop == t.life.detachAtNextStop
  {
    hide Deliver;
  }

  lemma UntracedStop(r: Run, s: Step)
    requires Goes(r) && MayReport(r, s) && s.status.StoppedUntraced?
    ensures Speaks(r, s) ==> r.tracee.log + [Signaled(s.answers.signalInfo.value)] <= Advance(r, s).tracee.log
    ensures !Speaks(r, s) ==> Goes(Advance(r, s)) && Advance(r, s).tracee.log == r.tracee.log
  {
    hide Process, HandleSignal, Restart;
    var t, a := ResetSignal(r.tracee), s.answers;
    var h := HandleSignal(t, s.status.stopSignal, a).tracee;
    UntracedIsSignal(r.tracee, s);
    if Speaks(r, s) {
      ReportedSignal(t, s.status.stopSignal, a);
      RestartGrows(h, a);
    } else {
      SwallowedSignal(t, s.status.stopSignal, a);
      RestartFromSignal(h, a);
    }
  }

  lemma StepLeaves(r: Run, s: Step)
    requires Goes(r) && MayReport(r, s) && !Speaks(r, s)
    ensures Goes(Advance(r, s)) && OnlyDeathSince(r.tracee.log, Advance(r, s))
  {
    hide Detach;
    if s.status.StoppedUntraced? {
      hide Process;
      UntracedStop(r, s);
    } else if s.status.Died? {
      hide Move;
    } else if s.status.OtherStatus? {
    } else {
      assert r.tracee.life.detachAtNextStop;
      hide Process;
      LeavingTrap(r.tracee, s);
    }
  }

  // ----- what was said stays said

  lemma RestartGrows(t: Tracee, a: Answers)
    ensures t.log <= Restart(t, a).tracee.log
  {
    hide Deliver;
  }

  lemma SyscallTrapGrows(t: Tracee, a: Answers)
    ensures t.log <= HandleSystemCall(t, a).tracee.log
  {
    hide Deliver, IdentifyCall, CloseCall, Move;
  }

  lemma DispatchGrows(t: Tracee, w: WaitStatus, a: Answers)
    requires !w.Died? && !NeedsEngine(w)
    ensures t.log <= Dispatch(t, w, a).tracee.log
  {
    hide Deliver, HandleSystemCall, Move;
    SyscallTrapGrows(t, a);
  }

  lemma StepGrows(r: Run, s: Step)
    ensures r.tracee.log <= Advance(r, s).tracee.log
  {
    hide Deliver, DoDetach, Dispatch, Restart, Move;
    var w, a, t := s.status, s.answers, ResetSignal(r.tracee);
    if NeedsEngine(w) {
      RestartGrows(Deliver(ChangeState(t, EventStop), s.notice, a).tracee, a);
    } else if !w.Died? {
      DispatchGrows(t, w, a);
      RestartGrows(Dispatch(t, w, a).tracee, a);
    }
  }

  lemma {:induction false} RunGrows(r: Run, steps: seq<Step>)
    ensures r.tracee.log <= RunAll(r, steps).tracee.log
    decreases |steps|
  {
    if steps != [] {
      hide Advance;
      StepGrows(r, steps[0]);
      RunGrows(Advance(r, steps[0]), steps[1..]);
    }
  }

  /** Once a detach is pending, the consumer hears no more of the process than
      that it disappeared: for exactly those sequences of events in which no stop
      without a trap is reported before the detach takes effect. */
  lemma {:induction false} PendingDetachIsFinal(r: Run, steps: seq<Step>, before: seq<Callback>)
    requires Goes(r) && OnlyDeathSince(before, r) && Possible(r, steps)
    ensures OnlyDeathSince(before, RunAll(r, steps)) <==> !EverSpeaks(r, steps)
    decreases |steps|
  {
    if steps != [] {
      hide Goes, Advance, Speaks;
      var r1 := Advance(r, steps[0]);
      if Speaks(r, steps[0]) {
        SpeakingEndsIt(r, steps[0], before);
        RunGrows(r1, steps[1..]);
        MoreThanDeath(before, Signaled(steps[0].answers.signalInfo.value), r1, RunAll(r, steps));
      } else {
        StepLeaves(r, steps[0]);
        PendingDetachIsFinal(r1, steps[1..], before);
      }
    }
  }

  lemma MoreThanDeath(before: seq<Callback>, c: Callback, r1: Run, r2: Run)
    requires before + [c] <= r1.tracee.log <= r2.tracee.log && !c.Disappeared?
    ensures !OnlyDeathSince(before, r2)
  {
    assert r2.tracee.log[|before|] == c;
  }

  lemma SpeakingEndsIt(r: Run, s: Step, before: seq<Callback>)
    requires Goes(r) && OnlyDeathSince(before, r) && MayReport(r, s) && Speaks(r, s)
    ensures before + [Signaled(s.answers.signalInfo.value)] <= Advance(r, s).tracee.log
  {
    hide Advance;
    UntracedStop(r, s);
  }

  /** detach() of a tracee that is still attached, at any time: at once when it
      is stopped, else at its next trap, and nothing is reported after, with the
      same exception. */
  lemma DetachIsFinal(r: Run, a: Answers, steps: seq<Step>)
    requires !r.dead && !r.quiet && Followed(r.tracee) && r.tracee.life.pid.Some?
    requires Detach(r.tracee, a).Ok?()
    requires var r1 := After(r, OtherStatus, Detach(r.tracee, a)); Possible(r1, steps)
    ensures var r1 := After(r, OtherStatus, Detach(r.tracee, a));
      OnlyDeathSince(r.tracee.log, RunAll(r1, steps)) <==> !EverSpeaks(r1, steps)
  {
    PendingDetachIsFinal(After(r, OtherStatus, Detach(r.tracee, a)), steps, r.tracee.log);
  }
}
