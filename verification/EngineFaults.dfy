// Which failures leave trace(), and which are swallowed with the event counted as
// handled: the catch clause of Engine::handleEvent().
module EngineFaults {
  import opened Common
  import opened TraceeModel
  import opened EngineModel
  import opened TraceeRuns
  import opened EngineRuns

  /** The kernel does not let go of a tracee that is to be cleaned up as dead. */
  predicate CleanupRefused(e: Engine, p: Pid, a: Answers) {
    p in e.tracees && e.tracees[p].life.state == Dead && a.cleanedUp == RequestRefused
  }

  lemma CleanupVerdict(e: Engine, p: Pid, a: Answers)
    ensures Cleanup(e, p, a).fault == if CleanupRefused(e, p, a) then Some(Refused) else None
  {
    hide ChangeState, Forget;
  }

  /** For every event of a known pid, by what the tracee's handler threw: an error
      of the kernel's, ESRCH or another, is swallowed, and the cleanup follows; a
      runtime error, or a missing object, leaves trace() at once. */
  lemma EscapesExactly(e: Engine, ev: WaitEvent, a: Answers)
    requires ev.pid in e.tracees
    ensures var o := HandleKnown(e, ev, a);
      HandleOne(e, ev, a).1
      == match o.fault
         case Some(Internal) => Escaped(Internal)
         case Some(NullCall) => Escaped(NullCall)
         case _ => if CleanupRefused(o.engine, ev.pid, a) then Escaped(Refused) else Decided(Handled)
  {
    hide HandleKnown, Cleanup;
    CleanupVerdict(HandleKnown(e, ev, a).engine, ev.pid, a);
  }

  /** The same without a substitution, by what the event does to its tracee alone. */
  lemma StepEscapesExactly(e: Engine, ev: WaitEvent, a: Answers)
    requires ev.pid in e.tracees && PlausibleTask(e, ev, a) && CreatorKnown(e, ev, a) && NoSubstitution(e, ev, a)
    ensures var r := Process(Reporter(e, ev, a), StepOf(e, ev, a));
      HandleOne(e, ev, a).1.Escaped? <==>
        || r.fault in {Some(Internal), Some(NullCall)}
        || (r.tracee.life.state == Dead && a.cleanedUp == RequestRefused)
  {
    hide HandleKnown, HandleOne, Process, Besides;
    KnownStep(e, ev, a);
    EscapesExactly(e, ev, a);
  }

  lemma ReporterStays(e: Engine, ev: WaitEvent, a: Answers)
    requires ev.pid in e.tracees
    ensures ev.pid in HandleKnown(e, ev, a).engine.tracees
  {
    hide ProcessEvent, DoDetach, Detach, Restart, Deliver, ChangeState, Announce;
  }

  lemma CleanupDrops(e: Engine, p: Pid, a: Answers)
    requires p in e.tracees
    ensures var t := e.tracees[p];
      var c := Cleanup(e, p, a).engine;
      && (p !in c.tracees <==> if t.life.state == Detached then !t.isChild
                               else t.life.state == Dead && a.cleanedUp != RequestRefused)
      && c.tracees - {p} == e.tracees - {p}
      && (p !in c.tracees ==> t.id in c.retired && c.retired[t.id].log == t.log)
  {
    hide ChangeState, Forget;
  }

  /** After which events a tracee's object is dropped: when it was detached, but not
      if it is a child process of the tracer's, which stays until it has died and
      the kernel has let go of it; and never after a fault that leaves trace(). */
  lemma DroppedExactly(e: Engine, ev: WaitEvent, a: Answers)
    requires ev.pid in e.tracees
    ensures var o := HandleKnown(e, ev, a);
      ev.pid in o.engine.tracees &&
      var t := o.engine.tracees[ev.pid];
      var e1 := HandleOne(e, ev, a).0;
      && (ev.pid !in e1.tracees <==>
            && o.fault !in {Some(Internal), Some(NullCall)}
            && if t.life.state == Detached then !t.isChild
               else t.life.state == Dead && a.cleanedUp != RequestRefused)
      && e1.tracees - {ev.pid} == o.engine.tracees - {ev.pid}
      && (ev.pid !in e1.tracees ==> t.id in e1.retired && e1.retired[t.id].log == t.log)
  {
    hide HandleKnown, Cleanup;
    ReporterStays(e, ev, a);
    CleanupDrops(HandleKnown(e, ev, a).engine, ev.pid, a);
  }

  // ----- when all that fails is that a tracee is gone

  predicate Vanishes<T>(r: Reply<T>) { r.Err? ==> r.fault == Gone }

  /** Whatever request or read fails in a step, it fails with ESRCH. */
  predicate OnlyGone(a: Answers) {
    && Vanishes(a.info) && Vanishes(a.callCreated) && Vanishes(a.callRecovered) && Vanishes(a.entryFilled)
    && Vanishes(a.exitFilled) && Vanishes(a.signalInfo) && Vanishes(a.exitStatus) && Vanishes(a.eventPid)
    && Vanishes(a.registers) && Vanishes(a.restarted)
    && RequestRefused !in {a.detached, a.interrupted, a.formerReleased, a.cleanedUp}
  }

  /** What the event says does not fit what the tracer knows: a stop of the wrong
      kind or of an architecture it cannot trace, or the event needs a call, or
      the arguments of a clone3(), that the tracer does not have. */
  predicate Contradicts(t: Tracee, w: WaitStatus, a: Answers) {
    && !t.life.detachAtNextStop
    && match w
       case SyscallTrap =>
         a.info.Ok? && var info := a.info.value;
         if t.calls.entered then info.kind != ExitStop || t.calls.current.None?
         else info.kind != EntryStop || !info.archKnown || (a.callCreated.Ok? && !info.archTraceable)
       case EventTrap(ExitEvent, _) =>
         a.exitStatus == Ok(true) && t.calls.current.None?
         && (t.life.state == SyscallEnterStop || (t.life.state == Running && t.life.prevState == SyscallEnterStop))
       case EventTrap(NewTaskEvent(kind), _) =>
         a.eventPid.Ok? && (t.calls.current.None? || (kind != VforkDone && t.calls.current == Some(Clone3) && !a.cloneArgs))
       case _ => false
  }

  predicate Bearable(f: Option<Fault>) { f in {None, Some(Gone)} }

  lemma DetachBears(t: Tracee, a: Answers)
    requires OnlyGone(a)
    ensures Detach(t, a).Ok?() && DoDetach(t, a.detached).Ok?()
  {
    hide ChangeState, Forget;
  }

  lemma DeliverBears(t: Tracee, c: Callback, a: Answers)
    requires OnlyGone(a)
    ensures Deliver(t, c, a).Ok?()
  {
    hide Detach;
    DetachBears(t.(log := t.log + [c]), a);
  }

  lemma RestartBears(t: Tracee, a: Answers)
    requires OnlyGone(a)
    ensures Bearable(Restart(t, a).fault)
  {
    hide Deliver, ChangeState;
    DeliverBears(ChangeState(t, Running), Resumed, a);
  }

  lemma IdentifyBears(c: Calls, info: SyscallInfo, a: Answers)
    requires OnlyGone(a)
    ensures var f := IdentifyCall(c, info, a).fault;
      if info.archTraceable then Bearable(f) else f == Some(Internal)
  {}

  lemma EntryBears(t: Tracee, info: SyscallInfo, a: Answers)
    requires OnlyGone(a)
    ensures var f := HandleSystemCallEntry(t, info, a).fault;
      if a.callCreated.Ok? && !info.archTraceable then f == Some(Internal) else Bearable(f)
  {
    hide IdentifyCall, Deliver;
    IdentifyBears(t.calls, info, a);
    var i := IdentifyCall(t.calls, info, a);
    DeliverBears(t.(calls := i.calls.(count := i.calls.count + 1)), SyscallEntry(i.calls.current.value, i.resumed), a);
  }

  lemma ExitBears(t: Tracee, info: SyscallInfo, a: Answers)
    requires OnlyGone(a)
    ensures var f := HandleSystemCallExit(t, info, a).fault;
      if t.calls.current.None? then f == Some(NullCall) else Bearable(f)
  {
    hide Deliver, CloseCall, Interrupts;
    if t.calls.current.Some? {
      var c := if Interrupts(info) then t.calls.(interrupted := t.calls.current) else t.calls;
      DeliverBears(t.(calls := c), SyscallExit(c.current.value, Interrupts(info)), a);
    }
  }

  lemma TrapBears(t: Tracee, a: Answers)
    requires OnlyGone(a) && !t.life.detachAtNextStop
    ensures var f := HandleSystemCall(t, a).fault;
      if Contradicts(t, SyscallTrap, a) then f in {Some(Internal), Some(NullCall)} else Bearable(f)
  {
    hide HandleSystemCallEntry, HandleSystemCallExit, Move;
    if a.info.Ok? {
      EntryBears(ChangeState(t, SyscallEnterStop), a.info.value, a);
      ExitBears(ChangeState(t, SyscallExitStop), a.info.value, a);
    }
  }

  lemma SignalBears(t: Tracee, s: Signal, a: Answers)
    requires OnlyGone(a)
    ensures Bearable(HandleSignal(t, s, a).fault)
  {
    hide Deliver, ChangeState;
    if a.signalInfo.Ok? { DeliverBears(ChangeState(t, SignalDeliveryStop), Signaled(a.signalInfo.value), a); }
  }

  lemma StopEventBears(t: Tracee, s: Signal, a: Answers)
    requires OnlyGone(a)
    ensures Bearable(HandleStopEvent(t, s, a).fault)
  {
    hide Deliver, ChangeState;
    DeliverBears(MarkStopped(t, s), Stopped, a);
    if a.registers.Ok? {
      var u := MarkAttached(t);
      DeliverBears(u.(calls := u.calls.(initial := Some(a.registers.value))), Attached, a);
    }
  }

  lemma ExitEventBears(t: Tracee, a: Answers)
    requires OnlyGone(a) && !t.life.detachAtNextStop
    ensures var f := HandleExitEvent(ChangeState(t, EventStop), a).fault;
      if Contradicts(t, EventTrap(ExitEvent, SigTrap), a) then f == Some(NullCall) else Bearable(f)
  {
    hide Deliver;
    DeliverBears(ChangeState(t, EventStop), Exited(true), a);
    DeliverBears(ChangeState(t, EventStop), Exited(false), a);
  }

  lemma DispatchBears(t: Tracee, w: WaitStatus, a: Answers)
    requires OnlyGone(a) && !w.Died? && !NeedsEngine(w) && !t.life.detachAtNextStop
    ensures var f := Dispatch(t, w, a).fault;
      if Contradicts(t, w, a) then f in {Some(Internal), Some(NullCall)} else Bearable(f)
  {
    hide HandleSystemCall, HandleSignal, HandleStopEvent, HandleExitEvent, ChangeState;
    match w
    case SyscallTrap => TrapBears(t, a);
    case EventTrap(StopEvent, s) => StopEventBears(ChangeState(t, EventStop), s, a);
    case EventTrap(ExitEvent, _) => ExitEventBears(t, a);
    case SignalTrap(s) => SignalBears(t, s, a);
    case StoppedUntraced(s) => SignalBears(t, s, a);
    case _ =>
  }

  lemma UntracedBears(t: Tracee, w: WaitStatus, a: Answers)
    requires OnlyGone(a) && !w.Died? && !IsTrap(w)
    ensures Bearable(Dispatch(t, w, a).fault) && !Contradicts(t, w, a)
  {
    hide HandleSystemCall, HandleSignal, HandleStopEvent, HandleExitEvent, ChangeState;
    match w
    case StoppedUntraced(s) => SignalBears(t, s, a);
    case _ =>
  }

  lemma ResetContradicts(t: Tracee, w: WaitStatus, a: Answers)
    ensures Contradicts(ResetSignal(t), w, a) == Contradicts(t, w, a)
  {}

  lemma ProcessBears(t: Tracee, w: WaitStatus, a: Answers)
    requires OnlyGone(a) && !NeedsEngine(w)
    ensures var f := ProcessEvent(t, w, a).fault;
      if Contradicts(t, w, a) then f in {Some(Internal), Some(NullCall)} else Bearable(f)
  {
    hide Dispatch, Deliver, DoDetach, Restart, ChangeState;
    var t0 := ResetSignal(t);
    ResetContradicts(t, w, a);
    DetachBears(t0, a);
    if w.Died? {
      DeliverBears(ChangeState(t0, Dead), Disappeared, a);
    } else {
      if !t0.life.detachAtNextStop { DispatchBears(t0, w, a); } else if !IsTrap(w) { UntracedBears(t0, w, a); }
      RestartBears(Dispatch(t0, w, a).tracee, a);
    }
  }

  lemma AnnounceBears(t: Tracee, a: Answers)
    requires OnlyGone(a)
    ensures Announce(t, a).Ok?()
  {
    hide Detach;
    DetachBears(t.(log := t.log + [Announced]), a);
  }

  lemma CleanupBears(e: Engine, p: Pid, a: Answers)
    requires OnlyGone(a)
    ensures Cleanup(e, p, a).fault == None
  {
    hide Cleanup;
    CleanupVerdict(e, p, a);
  }

  lemma AttachBears(e: Engine, p: Pid, t: Tracee, child: Pid, a: Answers)
    requires OnlyGone(a)
    ensures var f := AutoAttach(e, p, t, child, a).fault;
      if MissesArgs(t, a) then f == Some(NullCall) else Bearable(f)
  {
    hide Deliver, Announce, Restart, Cleanup, Admit, Keep;
    DeliverBears(t, NewChildProcess(child), a);
    var e1 := Admit(e, child);
    assert child in e1.tracees by { AdmitEnters(e, child); }
    AnnounceBears(e1.tracees[child], a);
    CleanupBears(Keep(e1, child, Announce(e1.tracees[child], a)), child, a);
    RestartBears(Deliver(t, NewChildProcess(child), a).tracee, a);
  }

  lemma AdmitEnters(e: Engine, child: Pid)
    ensures child in Admit(e, child).tracees
  {}

  lemma NewTaskBears(e: Engine, p: Pid, kind: NewTask, a: Answers, s: Signal)
    requires OnlyGone(a) && p in e.tracees
    ensures var f := HandleNewTask(e, p, kind, a).fault;
      if Contradicts(e.tracees[p], EventTrap(NewTaskEvent(kind), s), a) then f == Some(NullCall) else Bearable(f)
  {
    hide Deliver, Restart, DoDetach, AutoAttach, ChangeState;
    var t0 := ResetSignal(e.tracees[p]);
    var t1 := ChangeState(t0, EventStop);
    DetachBears(t0, a);
    ResetKeepsId(e.tracees[p]);
    if a.eventPid.Ok? {
      var child := a.eventPid.value;
      AttachBears(e, p, t1, child, a);
      var notice := VforkComplete(child in e.tracees);
      DeliverBears(t1, notice, a);
      RestartBears(Deliver(t1, notice, a).tracee, a);
    }
  }

  lemma ExecBears(e: Engine, p: Pid, a: Answers)
    requires OnlyGone(a) && p in e.tracees
    ensures Bearable(HandleExec(e, p, a).fault)
  {
    hide Deliver, Restart, DoDetach, ChangeState, Detach, Substitute;
    var t0 := ResetSignal(e.tracees[p]);
    DetachBears(t0, a);
    if !t0.life.detachAtNextStop && a.eventPid.Ok? {
      var t1, former := ChangeState(t0, EventStop), a.eventPid.value;
      if former != p && former in e.tracees { SubstituteBears(e, p, t1, former, a); }
      var (e1, r) := SyncAfterExec(e, p, t1, former, a);
      var notice := NewExecutionContext(if former == p then None else Some(former));
      DeliverBears(r.tracee, notice, a);
      RestartBears(Deliver(r.tracee, notice, a).tracee, a);
    }
  }

  lemma SubstituteBears(e: Engine, p: Pid, main: Tracee, former: Pid, a: Answers)
    requires OnlyGone(a) && former in e.tracees
    ensures Substitute(e, p, main, former, a).1.Ok?()
  {
    hide Detach, ChangeState;
    DetachBears(e.tracees[former], a.(detached := a.formerReleased, interrupted := a.formerReleased));
  }

  lemma KnownBears(e: Engine, ev: WaitEvent, a: Answers)
    requires OnlyGone(a) && ev.pid in e.tracees
    ensures var f := HandleKnown(e, ev, a).fault;
      if Contradicts(e.tracees[ev.pid], ev.status, a) then f in {Some(Internal), Some(NullCall)} else Bearable(f)
  {
    hide HandleNewTask, HandleExec, ProcessEvent, Contradicts;
    match ev.status
    case EventTrap(NewTaskEvent(kind), s) => NewTaskBears(e, ev.pid, kind, a, s);
    case EventTrap(ExecEvent, _) =>
      ExecBears(e, ev.pid, a);
      ExecContradictsNothing(e.tracees[ev.pid], ev.status, a);
    case _ => ProcessBears(e.tracees[ev.pid], ev.status, a);
  }

  lemma ExecContradictsNothing(t: Tracee, w: WaitStatus, a: Answers)
    requires IsExecEvent(w) || IsStopEvent(w)
    ensures !Contradicts(t, w, a)
  {}

  /** If nothing worse happens than that tracees vanish, the event of a known pid
      leaves trace() exactly if it contradicts what the tracer knows. */
  lemma GoneEscapesExactly(e: Engine, ev: WaitEvent, a: Answers)
    requires OnlyGone(a) && ev.pid in e.tracees
    ensures var v := HandleOne(e, ev, a).1;
      && (v.Escaped? <==> Contradicts(e.tracees[ev.pid], ev.status, a))
      && (!v.Escaped? ==> v == Decided(Handled))
  {
    hide HandleOne, HandleKnown, Contradicts;
    KnownBears(e, ev, a);
    EscapesExactly(e, ev, a);
  }

  lemma DelayedBears(e: Engine, a: Answers)
    requires OnlyGone(a) && OnlyStopsStashed(e)
    ensures HandleDelayed(e, a).1 == Decided(Handled)
  {
    hide HandleOne;
    if e.newly.Some? && e.newly.value in e.stash {
      var e1, ev := e.(newly := None), WaitEvent(e.newly.value, e.stash[e.newly.value]);
      if ev.pid in e.tracees {
        GoneEscapesExactly(e1, ev, a);
        ExecContradictsNothing(e1.tracees[ev.pid], ev.status, a);
      } else {
        StoredAgain(e1, ev, a);
      }
    }
  }

  /** And a whole round of trace(), from any resting state: it goes on, with the
      event handled, stored or dropped, unless the event contradicts what is known
      of its tracee, or an execve() of an unknown pid cannot be asked who it was. */
  lemma GoneRoundsEscapeExactly(e: Engine, r: Round, left: set<Pid>)
    requires Resting(e, left) && PlausibleRound(e, r)
    requires OnlyGone(r.answers) && OnlyGone(r.again) && OnlyGone(r.delayed)
    ensures Traced(e, r).1.Escaped? <==>
      if r.ev.pid in e.tracees then Contradicts(e.tracees[r.ev.pid], r.ev.status, r.answers)
      else IsExecEvent(r.ev.status) && r.answers.eventPid.Err?
  {
    hide HandleOne, Contradicts, HandleDelayed, Structured, Rekey, Births, RefusedWith, Frame;
    var ev := r.ev;
    if ev.pid in e.tracees {
      GoneEventGoesOn(e, ev, r.answers, r.delayed, None);
    } else {
      RetryMeansKnown(e, ev, r.answers, r.delayed);
      UnknownVerdict(e, ev, r.answers, r.delayed);
      var (e1, v) := HandleEvent(e, ev, r.answers, r.delayed);
      if v == Decided(Retry) {
        RekeyKeeps(e, r.answers.eventPid.value, ev.pid);
        NoTaskInExec(e1, ev, r.again);
        RekeyKeepsObjects(e, r.answers.eventPid.value, ev.pid);
        GoneEventGoesOn(e1, ev, r.again, r.delayed, Some(ev.pid));
        ExecContradictsNothing(e1.tracees[ev.pid], ev.status, r.again);
      }
    }
  }

  lemma UnknownVerdict(e: Engine, ev: WaitEvent, a: Answers, d: Answers)
    requires ev.pid !in e.tracees
    ensures HandleEvent(e, ev, a, d).1.Escaped? <==> IsExecEvent(ev.status) && a.eventPid.Err?
  {
    hide HandleDelayed;
  }

  lemma GoneEventGoesOn(e: Engine, ev: WaitEvent, a: Answers, d: Answers, but: Option<Pid>)
    requires Structured(e, but) && ev.pid in e.tracees && PlausibleTask(e, ev, a) && OnlyGone(a) && OnlyGone(d)
    requires but == None || (but == Some(ev.pid) && JustRekeyed(ev, a) && NoSubstitution(e, ev, a))
    ensures HandleEvent(e, ev, a, d).1.Escaped? <==> Contradicts(e.tracees[ev.pid], ev.status, a)
    ensures HandleEvent(e, ev, a, d).1 != Decided(Retry)
  {
    hide HandleOne, Contradicts, HandleDelayed, Births, Frame, Identities, AllKeyed;
    GoneEscapesExactly(e, ev, a);
    OneKeeps(e, ev, a, but);
    if !Contradicts(e.tracees[ev.pid], ev.status, a) { DelayedBears(HandleOne(e, ev, a).0, d); }
  }
}
