// What a tracee's stops other than system call stops are told as, and how it is
// restarted after each, for every run: both follow from the events so far.
module TraceeStops {
  import opened Common
  import opened TraceeModel
  import opened TraceeRuns
  import TraceeEnds

  // ----- what the events so far say

  predicate IsSignalStop(w: WaitStatus) { w.SignalTrap? || w.StoppedUntraced? }

  /** The attach stop came: it is the first stop event. */
  predicate Began(past: seq<Step>) { exists s :: s in past && IsStopEvent(s.status) }

  /** A stop event after that one with one of the four stopping signals. */
  predicate IsGroupStop(past: seq<Step>, s: Step) {
    Began(past) && IsStopEvent(s.status) && s.status.eventSignal in {SigStop, SigTstp, SigTtin, SigTtou}
  }

  predicate EverStopped(past: seq<Step>) {
    past != [] && (EverStopped(past[..|past| - 1]) || IsGroupStop(past[..|past| - 1], past[|past| - 1]))
  }

  /** The stop that a child process raised for itself before its first execve. */
  predicate IsOwnStop(isChild: bool, past: seq<Step>, s: Step) {
    isChild && IsGroupStop(past, s) && !EverStopped(past)
  }

  /** A SIGCONT was delivered; the first one to a child process is the tracer's. */
  predicate Continued(past: seq<Step>) {
    exists s :: s in past && IsSignalStop(s.status) && s.answers.signalInfo == Ok(SigCont)
  }

  predicate ExitSeen(past: seq<Step>) { exists s :: s in past && IsExitEvent(s.status) }

  /** How the tracee is to be restarted: a group stop is kept up, but not a child
      process's own one, until the event that announces a SIGCONT. */
  function Mode(isChild: bool, past: seq<Step>): RestartMode {
    if past == [] then Cont
    else
      var (before, s) := (past[..|past| - 1], past[|past| - 1]);
      if !IsStopEvent(s.status) then Mode(isChild, before)
      else if !Began(before) then if isChild then Cont else Syscall
      else if IsGroupStop(before, s) then if IsOwnStop(isChild, before, s) then Syscall else Listen
      else if s.status.eventSignal == SigTrap then Syscall else Mode(isChild, before)
  }

  /** The signal that is to be delivered with the restart. */
  function Passed(past: seq<Step>): Option<Signal> {
    if past == [] then None
    else
      match past[|past| - 1].status
      case SignalTrap(s) => Some(s)
      case StoppedUntraced(s) => Some(s)
      case _ => None
  }

  /** The last event of a known kind. */
  function LastEvent(past: seq<Step>): Option<Step> {
    if past == [] then None
    else if past[|past| - 1].status.OtherStatus? then LastEvent(past[..|past| - 1])
    else Some(past[|past| - 1])
  }

  predicate CallLast(past: seq<Step>) { LastEvent(past).Some? && LastEvent(past).value.status.SyscallTrap? }

  /** It is stopped by a group stop and stays so. */
  predicate Halted(isChild: bool, past: seq<Step>) {
    past != [] &&
    var (before, s) := (past[..|past| - 1], past[|past| - 1]);
    if s.status.OtherStatus? then Halted(isChild, before)
    else IsGroupStop(before, s) && !IsOwnStop(isChild, before, s)
  }

  /** The last event of a known kind was the child process's own stop, which was
      lifted again. */
  predicate Lifted(isChild: bool, past: seq<Step>) {
    past != [] &&
    var (before, s) := (past[..|past| - 1], past[|past| - 1]);
    if s.status.OtherStatus? then Lifted(isChild, before) else IsOwnStop(isChild, before, s)
  }

  /** stopSignal() is that of the last group stop, be it over or not; only the
      child process's own stop is forgotten with the next event. */
  function StopSignal(isChild: bool, past: seq<Step>): Option<Signal> {
    if past == [] then None
    else
      var (before, s) := (past[..|past| - 1], past[|past| - 1]);
      if IsGroupStop(before, s) then Some(s.status.eventSignal)
      else if Lifted(isChild, before) then None else StopSignal(isChild, before)
  }

  lemma OneMore(isChild: bool, past: seq<Step>, s: Step)
    ensures Began(past + [s]) <==> Began(past) || IsStopEvent(s.status)
    ensures EverStopped(past + [s]) <==> EverStopped(past) || IsGroupStop(past, s)
    ensures Continued(past + [s])
       <==> Continued(past) || (IsSignalStop(s.status) && s.answers.signalInfo == Ok(SigCont))
    ensures ExitSeen(past + [s]) <==> ExitSeen(past) || IsExitEvent(s.status)
    ensures Mode(isChild, past + [s])
         == if !IsStopEvent(s.status) then Mode(isChild, past)
            else if !Began(past) then if isChild then Cont else Syscall
            else if IsGroupStop(past, s) then if IsOwnStop(isChild, past, s) then Syscall else Listen
            else if s.status.eventSignal == SigTrap then Syscall else Mode(isChild, past)
    ensures CallLast(past + [s]) <==> s.status.SyscallTrap? || (s.status.OtherStatus? && CallLast(past))
    ensures Halted(isChild, past + [s])
       <==> if s.status.OtherStatus? then Halted(isChild, past) else IsGroupStop(past, s) && !IsOwnStop(isChild, past, s)
    ensures Lifted(isChild, past + [s])
       <==> if s.status.OtherStatus? then Lifted(isChild, past) else IsOwnStop(isChild, past, s)
    ensures StopSignal(isChild, past + [s])
         == if IsGroupStop(past, s) then Some(s.status.eventSignal)
            else if Lifted(isChild, past) then None else StopSignal(isChild, past)
    ensures Passed(past + [s])
         == if s.status.SignalTrap? then Some(s.status.trapSignal)
            else if s.status.StoppedUntraced? then Some(s.status.stopSignal) else None
  {
    var all := past + [s];
    assert all[..|all| - 1] == past;
    if Began(past) { var x :| x in past && IsStopEvent(x.status); assert x in all; }
    if Continued(past) {
      var x :| x in past && IsSignalStop(x.status) && x.answers.signalInfo == Ok(SigCont);
      assert x in all;
    }
    if ExitSeen(past) { var x :| x in past && IsExitEvent(x.status); assert x in all; }
    assert s in all;
  }

  // ----- the tracee's own account of it

  /** Everything in a tracee's life but a detach that is pending. */
  predicate Reflects(l: Life, isChild: bool, past: seq<Step>, entered: bool) {
    && l.waitForAttachStop == !Began(past)
    && l.injectedSigstop == (isChild && !EverStopped(past))
    && l.injectedSigcont == (isChild && !Continued(past))
    && l.waitForExited == ExitSeen(past)
    && l.restartMode == Mode(isChild, past)
    && (!Began(past) ==> l.restartMode == Cont && !EverStopped(past))
    && l.injectSignal == Passed(past)
    && (l.state == GroupStop <==> Halted(isChild, past))
    && (Halted(isChild, past) ==> Mode(isChild, past) == Listen)
    && l.stopSignal == StopSignal(isChild, past)
    && (l.state == Running && l.prevState == GroupStop <==> Lifted(isChild, past))
    && (Lifted(isChild, past) ==> Mode(isChild, past) == Syscall)
    && (TraceeEnds.FromEntryStop(l) <==> CallLast(past) && entered)
  }

  /** As long as the tracee may report. */
  predicate Lives(r: Run, past: seq<Step>) {
    !r.quiet ==> Reflects(r.tracee.life, r.tracee.isChild, past, r.tracee.calls.entered)
  }

  /** A life in which the consumer may have asked for a detach since. */
  predicate SameLife(l: Life, m: Life) { m == l || m == l.(detachAtNextStop := true) }

  lemma DeliverKeepsLife(t: Tracee, c: Callback, a: Answers)
    ensures var r := Deliver(t, c, a);
      && r.tracee.isChild == t.isChild
      && (r.Ok?() && Followed(r.tracee) ==> Followed(t) && SameLife(t.life, r.tracee.life))
      && (!a.consumerDetaches ==> r == Done(t.(log := t.log + [c])))
  {}

  /** Where a restart leads, if it succeeds. */
  function Onward(l: Life): Life { if l.restartMode == Listen then l else Move(l, Running) }

  lemma RestartLeads(t: Tracee, a: Answers)
    ensures var r := Restart(t, a);
      && r.tracee.isChild == t.isChild
      && (r.Ok?() && Followed(r.tracee) ==>
            && Followed(t) && SameLife(Onward(t.life), r.tracee.life)
            && r.tracee.calls.entered == t.calls.entered)
  {
    hide Deliver, Move;
    DeliverKeepsLife(ChangeState(t, Running), Resumed, a);
  }

  /** A handler that leaves the tracee in the given life, if it goes well. */
  predicate Leads(t: Tracee, l: Life, entered: bool, r: Result) {
    && r.tracee.isChild == t.isChild
    && (r.Ok?() && Followed(r.tracee) ==> SameLife(l, r.tracee.life) && r.tracee.calls.entered == entered)
  }

  lemma LeadsOn(t: Tracee, l: Life, entered: bool, r: Result, a: Answers)
    requires Leads(t, l, entered, r)
    ensures Leads(t, Onward(l), entered, if r.Ok?() then Restart(r.tracee, a) else r)
  {
    hide Restart;
    RestartLeads(r.tracee, a);
  }

  lemma EntryLeads(t: Tracee, a: Answers)
    requires !t.calls.entered
    ensures Leads(t, Move(t.life, SyscallEnterStop), true, HandleSystemCall(t, a))
  {
    hide Deliver, Move, IdentifyCall;
    if a.info.Ok? {
      var u := ChangeState(t, SyscallEnterStop);
      var i := IdentifyCall(u.calls, a.info.value, a);
      DeliverKeepsLife(u.(calls := i.calls.(count := i.calls.count + 1)),
                       SyscallEntry(i.calls.current.value, i.resumed), a);
    }
  }

  lemma ExitLeads(t: Tracee, a: Answers)
    requires t.calls.entered
    ensures Leads(t, Move(t.life, SyscallExitStop), false, HandleSystemCall(t, a))
  {
    hide Deliver, Move;
    if a.info.Ok? && t.calls.current.Some? {
      var u, info := ChangeState(t, SyscallExitStop), a.info.value;
      var c := if Interrupts(info) then u.calls.(interrupted := u.calls.current) else u.calls;
      DeliverKeepsLife(u.(calls := c), SyscallExit(c.current.value, Interrupts(info)), a);
    }
  }

  lemma StopMoves(t: Tracee, s: State)
    requires s in {EventStop, SignalDeliveryStop}
    ensures var u := ChangeState(t, s);
      u.isChild == t.isChild && u.life == Move(t.life, s) && u.calls == t.calls && u.log == t.log
  {}

  lemma OwnSignalLeads(t: Tracee, s: Signal, a: Answers)
    requires a.signalInfo == Ok(SigCont) && t.life.injectedSigcont
    ensures Leads(t, Signalled(t.life, s, true), t.calls.entered, HandleSignal(t, s, a))
  {
    hide Deliver, ChangeState, Move;
    StopMoves(t, SignalDeliveryStop);
    SignalKept(t.life);
  }

  lemma ToldSignalLeads(t: Tracee, s: Signal, a: Answers)
    requires !(a.signalInfo == Ok(SigCont) && t.life.injectedSigcont)
    ensures Leads(t, Signalled(t.life, s, false), t.calls.entered, HandleSignal(t, s, a))
  {
    hide Deliver, ChangeState, Move;
    StopMoves(t, SignalDeliveryStop);
    SignalKept(t.life);
    if a.signalInfo.Ok? {
      DeliverKeepsLife(ChangeState(t, SignalDeliveryStop), Signaled(a.signalInfo.value), a);
    }
  }

  lemma SignalKept(l: Life)
    ensures Move(l, SignalDeliveryStop).injectedSigcont == l.injectedSigcont
  {}

  /** The life in which a signal leaves the tracee, the tracer's own or another. */
  function Signalled(l: Life, s: Signal, own: bool): Life {
    var m := Move(l, SignalDeliveryStop);
    m.(injectSignal := Some(s), injectedSigcont := m.injectedSigcont && !own)
  }

  lemma SignalLeads(t: Tracee, s: Signal, a: Answers)
    ensures Leads(t, Signalled(t.life, s, a.signalInfo == Ok(SigCont)), t.calls.entered, HandleSignal(t, s, a))
  {
    hide HandleSignal, Move;
    SignalKept(t.life);
    if a.signalInfo == Ok(SigCont) && t.life.injectedSigcont { OwnSignalLeads(t, s, a); } else { ToldSignalLeads(t, s, a); }
  }

  /** The life in which a stop event leaves the tracee. */
  function Stopping(l: Life, s: Signal): Life {
    var m := Move(l, EventStop);
    if m.waitForAttachStop then
      m.(waitForAttachStop := false, restartMode := if m.injectedSigstop then m.restartMode else Syscall)
    else if s in {SigStop, SigTstp, SigTtin, SigTtou} then Move(m, GroupStop).(stopSignal := Some(s))
    else if s == SigTrap then m.(restartMode := Syscall)
    else m
  }

  lemma StopLeads(t: Tracee, s: Signal, a: Answers)
    ensures Leads(t, Stopping(t.life, s), t.calls.entered, HandleStopEvent(ChangeState(t, EventStop), s, a))
  {
    hide Deliver, Move;
    var u := ChangeState(t, EventStop);
    DeliverKeepsLife(MarkStopped(u, s), Stopped, a);
    if a.registers.Ok? {
      var v := MarkAttached(u);
      DeliverKeepsLife(v.(calls := v.calls.(initial := Some(a.registers.value))), Attached, a);
    }
  }

  lemma ExitEventLeads(t: Tracee, a: Answers)
    ensures Leads(t, Move(t.life, EventStop).(waitForExited := true), t.calls.entered,
                  HandleExitEvent(ChangeState(t, EventStop), a))
  {
    hide ChangeState;
    StopMoves(t, EventStop);
    ExitToldLeads(ChangeState(t, EventStop), a);
  }

  lemma ExitToldLeads(u: Tracee, a: Answers)
    ensures Leads(u, u.life.(waitForExited := true), u.calls.entered, HandleExitEvent(u, a))
  {
    hide Deliver, SameLife;
    forall lost: bool ensures DeliveredAlive(u, Exited(lost), a) { DeliveredIsAlive(u, Exited(lost), a); }
  }

  predicate DeliveredAlive(t: Tracee, c: Callback, a: Answers) {
    var r := Deliver(t, c, a);
    && r.tracee.isChild == t.isChild
    && (r.Ok?() && Followed(r.tracee) ==>
          r.tracee.calls == t.calls
          && SameLife(t.life.(waitForExited := true), r.tracee.life.(waitForExited := true)))
  }

  lemma DeliveredIsAlive(t: Tracee, c: Callback, a: Answers)
    ensures DeliveredAlive(t, c, a)
  {
    hide Deliver;
    DeliverKeepsLife(t, c, a);
  }

  lemma NoticeLeads(t: Tracee, notice: Callback, a: Answers)
    requires !t.life.detachAtNextStop
    ensures Leads(t, Onward(Move(t.life.(injectSignal := None), EventStop)), t.calls.entered,
                  ProcessNotice(t, notice, a))
  {
    hide Deliver, Move, Restart;
    var u := ChangeState(ResetSignal(t), EventStop);
    DeliverKeepsLife(u, notice, a);
    LeadsOn(t, u.life, t.calls.entered, Deliver(u, notice, a), a);
  }

  /** The life in which an event is left, before the restart. */
  function Handled(l: Life, entered: bool, s: Step): Life {
    match s.status
    case SyscallTrap => Move(l, if entered then SyscallExitStop else SyscallEnterStop)
    case EventTrap(StopEvent, signal) => Stopping(l, signal)
    case EventTrap(ExitEvent, _) => Move(l, EventStop).(waitForExited := true)
    case EventTrap(_, _) => Move(l, EventStop)
    case SignalTrap(signal) => Signalled(l, signal, s.answers.signalInfo == Ok(SigCont))
    case StoppedUntraced(signal) => Signalled(l, signal, s.answers.signalInfo == Ok(SigCont))
    case _ => l
  }

  function EnteredAfter(entered: bool, s: Step): bool { if s.status.SyscallTrap? then !entered else entered }

  lemma HandledLife(t: Tracee, s: Step)
    requires !s.status.Died? && !NeedsEngine(s.status)
    ensures var u := ResetSignal(t);
      Leads(u, Handled(u.life, t.calls.entered, s), EnteredAfter(t.calls.entered, s), Dispatch(u, s.status, s.answers))
  {
    hide Move, Restart, HandleSystemCall, HandleSignal, HandleStopEvent, HandleExitEvent;
    var (u, a) := (ResetSignal(t), s.answers);
    match s.status
    case SyscallTrap => if u.calls.entered { ExitLeads(u, a); } else { EntryLeads(u, a); }
    case EventTrap(StopEvent, signal) => StopLeads(u, signal, a);
    case EventTrap(ExitEvent, _) => ExitEventLeads(u, a);
    case SignalTrap(signal) => SignalLeads(u, signal, a);
    case StoppedUntraced(signal) => SignalLeads(u, signal, a);
    case _ =>
  }

  lemma StepLeads(t: Tracee, s: Step)
    requires !s.status.Died?
    ensures var l := t.life.(injectSignal := None);
      Leads(t, Onward(Handled(l, t.calls.entered, s)), EnteredAfter(t.calls.entered, s), Process(t, s))
  {
    hide DoDetach, Restart, Dispatch, Move, Stopping;
    var (u, a) := (ResetSignal(t), s.answers);
    if IsTrap(s.status) && t.life.detachAtNextStop {
      GoneWhenDetached(u, a.detached);
    } else if NeedsEngine(s.status) {
      NoticeLeads(t, s.notice, a);
    } else {
      HandledLife(t, s);
      LeadsOn(u, Handled(u.life, t.calls.entered, s), EnteredAfter(t.calls.entered, s), Dispatch(u, s.status, a), a);
    }
  }

  lemma GoneWhenDetached(t: Tracee, r: Request)
    ensures DoDetach(t, r).tracee.isChild == t.isChild
    ensures !(DoDetach(t, r).Ok?() && Followed(DoDetach(t, r).tracee))
  {}

  lemma SyscallReflects(l: Life, isChild: bool, past: seq<Step>, entered: bool, s: Step)
    requires Reflects(l, isChild, past, entered) && s.status.SyscallTrap?
    ensures Reflects(Onward(Handled(l.(injectSignal := None), entered, s)), isChild, past + [s], EnteredAfter(entered, s))
  {
    hide Began, EverStopped, Continued, ExitSeen, Mode, CallLast, Halted, Lifted, StopSignal, Passed;
    OneMore(isChild, past, s);
  }

  lemma StopReflects(l: Life, isChild: bool, past: seq<Step>, entered: bool, s: Step)
    requires Reflects(l, isChild, past, entered) && IsStopEvent(s.status)
    ensures Reflects(Onward(Handled(l.(injectSignal := None), entered, s)), isChild, past + [s], EnteredAfter(entered, s))
  {
    hide Began, EverStopped, Continued, ExitSeen, Mode, CallLast, Halted, Lifted, StopSignal, Passed;
    OneMore(isChild, past, s);
  }

  lemma SignalReflects(l: Life, isChild: bool, past: seq<Step>, entered: bool, s: Step)
    requires Reflects(l, isChild, past, entered) && IsSignalStop(s.status)
    ensures Reflects(Onward(Handled(l.(injectSignal := None), entered, s)), isChild, past + [s], EnteredAfter(entered, s))
  {
    hide Began, EverStopped, Continued, ExitSeen, Mode, CallLast, Halted, Lifted, StopSignal, Passed;
    OneMore(isChild, past, s);
  }

  lemma ExitEventReflects(l: Life, isChild: bool, past: seq<Step>, entered: bool, s: Step)
    requires Reflects(l, isChild, past, entered) && IsExitEvent(s.status)
    ensures Reflects(Onward(Handled(l.(injectSignal := None), entered, s)), isChild, past + [s], EnteredAfter(entered, s))
  {
    hide Began, EverStopped, Continued, ExitSeen, Mode, CallLast, Halted, Lifted, StopSignal, Passed;
    OneMore(isChild, past, s);
  }

  lemma EventReflects(l: Life, isChild: bool, past: seq<Step>, entered: bool, s: Step)
    requires Reflects(l, isChild, past, entered) && s.status.EventTrap? && !s.status.event.StopEvent? && !s.status.event.ExitEvent?
    ensures Reflects(Onward(Handled(l.(injectSignal := None), entered, s)), isChild, past + [s], EnteredAfter(entered, s))
  {
    hide Began, EverStopped, Continued, ExitSeen, Mode, CallLast, Halted, Lifted, StopSignal, Passed;
    OneMore(isChild, past, s);
  }

  lemma OtherReflects(l: Life, isChild: bool, past: seq<Step>, entered: bool, s: Step)
    requires Reflects(l, isChild, past, entered) && s.status.OtherStatus?
    ensures Reflects(Onward(Handled(l.(injectSignal := None), entered, s)), isChild, past + [s], EnteredAfter(entered, s))
  {
    hide Began, EverStopped, Continued, ExitSeen, Mode, CallLast, Halted, Lifted, StopSignal, Passed;
    OneMore(isChild, past, s);
  }

  lemma HandledReflects(l: Life, isChild: bool, past: seq<Step>, entered: bool, s: Step)
    requires Reflects(l, isChild, past, entered) && !s.status.Died?
    ensures Reflects(Onward(Handled(l.(injectSignal := None), entered, s)), isChild, past + [s], EnteredAfter(entered, s))
  {
    hide Reflects, Onward, Handled;
    match s.status
    case SyscallTrap => SyscallReflects(l, isChild, past, entered, s);
    case EventTrap(event, _) =>
      if event.StopEvent? { StopReflects(l, isChild, past, entered, s); }
      else if event.ExitEvent? { ExitEventReflects(l, isChild, past, entered, s); }
      else { EventReflects(l, isChild, past, entered, s); }
    case OtherStatus => OtherReflects(l, isChild, past, entered, s);
    case _ => SignalReflects(l, isChild, past, entered, s);
  }

  lemma DeadIsQuiet(t: Tracee, s: Step)
    requires s.status.Died?
    ensures !Process(t, s).Ok?() || !Followed(Process(t, s).tracee)
    ensures Process(t, s).tracee.isChild == t.isChild
  {
    hide Detach;
    StillDead(ChangeState(ResetSignal(t), Dead), Disappeared, s.answers);
  }

  lemma StillDead(t: Tracee, c: Callback, a: Answers)
    requires t.life.state == Dead
    ensures Deliver(t, c, a) == Done(t.(log := t.log + [c]))
  {}

  lemma StepLives(r: Run, s: Step, past: seq<Step>)
    requires Lives(r, past) && MayReport(r, s)
    ensures Lives(Advance(r, s), past + [s]) && Advance(r, s).tracee.isChild == r.tracee.isChild
  {
    hide Process, Handled, Reflects, Onward;
    if s.status.Died? {
      DeadIsQuiet(r.tracee, s);
    } else {
      StepLeads(r.tracee, s);
      var l := r.tracee.life;
      if !r.quiet {
        HandledReflects(l, r.tracee.isChild, past, r.tracee.calls.entered, s);
        if !Advance(r, s).quiet {
          PendingReflects(Onward(Handled(l.(injectSignal := None), r.tracee.calls.entered, s)),
                          Advance(r, s).tracee.life, r.tracee.isChild, past + [s], Advance(r, s).tracee.calls.entered);
        }
      }
    }
  }

  lemma PendingReflects(l: Life, m: Life, isChild: bool, past: seq<Step>, entered: bool)
    requires Reflects(l, isChild, past, entered) && SameLife(l, m)
    ensures Reflects(m, isChild, past, entered)
  {}

  // ----- what an event is told as

  /** Every request but perhaps the restart succeeds, and the consumer just listens. */
  predicate Answered(a: Answers) {
    a.registers.Ok? && a.signalInfo.Ok? && a.exitStatus.Ok? && a.eventPid.Ok? && !a.consumerDetaches
  }

  predicate Untroubled(a: Answers) { Answered(a) && a.restarted.Ok? }

  /** The thread ended from outside: its status is an exit, but the last thing it
      did was not to enter an exit call. */
  predicate IsLost(past: seq<Step>, inside: Option<SysNr>, a: Answers) {
    a.exitStatus == Ok(true) && !(CallLast(past) && inside in {Some(Exit), Some(ExitGroup)})
  }

  /** What an event other than a system call stop is told as, for a tracee inside
      the given call. */
  function Message(isChild: bool, past: seq<Step>, inside: Option<SysNr>, s: Step): seq<Callback> {
    match s.status
    case Died => if ExitSeen(past) then [] else [Disappeared]
    case EventTrap(StopEvent, _) => if !Began(past) then [Attached] else if IsGroupStop(past, s) then [Stopped] else []
    case EventTrap(ExitEvent, _) => [Exited(IsLost(past, inside, s.answers))]
    case EventTrap(UnhandledEvent, _) => []
    case EventTrap(_, _) => [s.notice]
    case SyscallTrap => []
    case OtherStatus => []
    case _ =>
      if s.answers.signalInfo.Err? || (isChild && !Continued(past) && s.answers.signalInfo.value == SigCont) then []
      else [Signaled(s.answers.signalInfo.value)]
  }

  function News(isChild: bool, past: seq<Step>, inside: Option<SysNr>, s: Step): seq<Callback> {
    Message(isChild, past, inside, s) + if IsOwnStop(isChild, past, s) then [Resumed] else []
  }

  /** A handler that told some of this, and all of it if nothing got in the way. */
  predicate Says(before: seq<Callback>, news: seq<Callback>, r: Result, a: Answers) {
    && before <= r.tracee.log <= before + news
    && (Untroubled(a) ==> r.tracee.log == before + news)
  }

  /** The handler of an event said what was to be said, if it went well. */
  predicate DispatchedAs(r: Run, past: seq<Step>, s: Step)
    requires !s.status.Died? && !NeedsEngine(s.status)
  {
    var res := Dispatch(ResetSignal(r.tracee), s.status, s.answers);
    var news := Message(r.tracee.isChild, past, r.tracee.calls.current, s);
    && Says(r.tracee.log, news, res, s.answers)
    && (res.Ok?() ==> res.tracee.log == r.tracee.log + news)
    && (Answered(s.answers) ==> res.Ok?() && (Followed(r.tracee) ==> Followed(res.tracee)))
  }

  lemma AtStop(t: Tracee, s: State)
    requires s in {EventStop, GroupStop, SignalDeliveryStop}
    ensures var u := ChangeState(t, s);
      && u.log == t.log && u.isChild == t.isChild && u.calls == t.calls && u.life.state == s
      && u.life.waitForAttachStop == t.life.waitForAttachStop && u.life.injectedSigcont == t.life.injectedSigcont
  {}

  lemma StopTold(u: Tracee, s: Signal, a: Answers)
    requires u.life.state == EventStop
    ensures var r := HandleStopEvent(u, s, a);
      var news := if u.life.waitForAttachStop then [Attached]
                  else if s in {SigStop, SigTstp, SigTtin, SigTtou} then [Stopped] else [];
      && u.log <= r.tracee.log <= u.log + news
      && (r.Ok?() ==> r.tracee.log == u.log + news)
      && (a.registers.Ok? && !a.consumerDetaches ==> r.Ok?() && Followed(r.tracee))
  {
    hide Deliver, ChangeState;
    AtStop(u, GroupStop);
    var v := MarkAttached(u);
    if a.registers.Ok? {
      DeliverKeepsLife(v.(calls := v.calls.(initial := Some(a.registers.value))), Attached, a);
    }
    DeliverKeepsLife(MarkStopped(u, s), Stopped, a);
  }

  lemma StopSays(r: Run, past: seq<Step>, s: Step)
    requires Reflects(r.tracee.life, r.tracee.isChild, past, r.tracee.calls.entered) && Consistent(r) && !r.quiet
    requires IsStopEvent(s.status)
    ensures DispatchedAs(r, past, s)
  {
    hide HandleStopEvent, ChangeState, Observe, Began, EverStopped, Continued, ExitSeen, CallLast, Mode, Halted,
      Lifted, StopSignal, Passed;
    var t := ResetSignal(r.tracee);
    AtStop(t, EventStop);
    StopTold(ChangeState(t, EventStop), s.status.eventSignal, s.answers);
  }

  lemma ExitEventSays(r: Run, past: seq<Step>, s: Step)
    requires Reflects(r.tracee.life, r.tracee.isChild, past, r.tracee.calls.entered) && Consistent(r) && !r.quiet
    requires IsExitEvent(s.status)
    ensures DispatchedAs(r, past, s)
  {
    hide Deliver, Observe, Began, EverStopped, Continued, ExitSeen, CallLast, Mode, Halted, Lifted, StopSignal, Passed;
    var (t, a) := (ResetSignal(r.tracee), s.answers);
    DeliverKeepsLife(ChangeState(t, EventStop), Exited(IsLost(past, t.calls.current, a)), a);
  }

  lemma SignalTold(t: Tracee, s: Signal, a: Answers)
    ensures var r := HandleSignal(t, s, a);
      var own := t.life.injectedSigcont && a.signalInfo == Ok(SigCont);
      && (r.Ok?() ==> a.signalInfo.Ok?)
      && r.tracee.log == t.log + (if a.signalInfo.Err? || own then [] else [Signaled(a.signalInfo.value)])
      && (a.signalInfo.Ok? && !a.consumerDetaches ==> r.Ok?() && Followed(r.tracee))
  {
    hide Deliver, ChangeState;
    AtStop(t, SignalDeliveryStop);
    if a.signalInfo.Ok? {
      DeliverKeepsLife(ChangeState(t, SignalDeliveryStop), Signaled(a.signalInfo.value), a);
    }
    assert t.log + [] == t.log;
  }

  lemma SignalSays(r: Run, past: seq<Step>, s: Step)
    requires Reflects(r.tracee.life, r.tracee.isChild, past, r.tracee.calls.entered) && Consistent(r) && !r.quiet
    requires IsSignalStop(s.status)
    ensures DispatchedAs(r, past, s)
  {
    hide HandleSignal, Observe, Began, EverStopped, Continued, ExitSeen, CallLast, Mode, Halted, Lifted, StopSignal, Passed;
    var signal := if s.status.SignalTrap? then s.status.trapSignal else s.status.stopSignal;
    SignalTold(ResetSignal(r.tracee), signal, s.answers);
  }

  lemma DispatchSays(r: Run, past: seq<Step>, s: Step)
    requires Reflects(r.tracee.life, r.tracee.isChild, past, r.tracee.calls.entered) && Consistent(r) && !r.quiet
    requires !s.status.Died? && !NeedsEngine(s.status) && !s.status.SyscallTrap?
    ensures DispatchedAs(r, past, s)
  {
    hide HandleStopEvent, HandleExitEvent, HandleSignal, Reflects, Consistent, ChangeState;
    AtStop(ResetSignal(r.tracee), EventStop);
    if IsStopEvent(s.status) { StopSays(r, past, s); }
    else if IsExitEvent(s.status) { ExitEventSays(r, past, s); }
    else if IsSignalStop(s.status) { SignalSays(r, past, s); }
  }

  lemma RestartSays(t: Tracee, a: Answers)
    ensures var again := Followed(t) && t.life.state == GroupStop && t.life.restartMode != Listen;
      Says(t.log, if again then [Resumed] else [], Restart(t, a), a)
  {
    hide Deliver, Move;
  }

  lemma StopResumes(l: Life, s: Signal, own: bool)
    requires !l.waitForAttachStop ==> l.injectedSigstop == own
    requires l.state == GroupStop ==> l.restartMode == Listen
    ensures var m := Stopping(l, s);
      m.state == GroupStop && m.restartMode != Listen
      <==> !l.waitForAttachStop && s in {SigStop, SigTstp, SigTtin, SigTtou} && own
  {}

  lemma MoveEnds(l: Life, s: State)
    ensures Move(l, s).state == s
  {}

  lemma OthersResumeNothing(l: Life, entered: bool, s: Step)
    requires l.state == GroupStop ==> l.restartMode == Listen
    requires !IsStopEvent(s.status) && !s.status.Died?
    ensures var m := Handled(l, entered, s); !(m.state == GroupStop && m.restartMode != Listen)
  {
    hide Move, Stopping;
    MoveEnds(l, EventStop);
    MoveEnds(l, SignalDeliveryStop);
    MoveEnds(l, SyscallEnterStop);
    MoveEnds(l, SyscallExitStop);
  }

  lemma ResumesExactly(l: Life, isChild: bool, past: seq<Step>, entered: bool, s: Step)
    requires Reflects(l, isChild, past, entered) && !s.status.Died?
    ensures var m := Handled(l.(injectSignal := None), entered, s);
      m.state == GroupStop && m.restartMode != Listen <==> IsOwnStop(isChild, past, s)
  {
    hide Began, EverStopped, Continued, ExitSeen, CallLast, Mode, Halted, Lifted, StopSignal, Passed, Stopping, Move;
    if IsStopEvent(s.status) {
      StopResumes(l.(injectSignal := None), s.status.eventSignal, isChild && !EverStopped(past));
    } else {
      OthersResumeNothing(l.(injectSignal := None), entered, s);
    }
  }

  lemma StepSays(r: Run, past: seq<Step>, s: Step)
    requires Lives(r, past) && Consistent(r) && !r.quiet && Followed(r.tracee) && MayReport(r, s)
    requires !(IsTrap(s.status) && r.tracee.life.detachAtNextStop) && !s.status.SyscallTrap?
    ensures Says(r.tracee.log, News(r.tracee.isChild, past, Observe(r.tracee.log).open, s), Process(r.tracee, s), s.answers)
  {
    hide Dispatch, Restart, Message, Reflects, Observe, Handled, IsOwnStop, Deliver;
    var news := Message(r.tracee.isChild, past, r.tracee.calls.current, s);
    var (t, a) := (ResetSignal(r.tracee), s.answers);
    if s.status.Died? {
      DeathSays(r, past, s);
    } else if NeedsEngine(s.status) {
      NoticeSays(r, past, s);
    } else {
      DispatchSays(r, past, s);
      var res := Dispatch(t, s.status, a);
      if res.Ok?() {
        HandledLife(r.tracee, s);
        ResumesExactly(r.tracee.life, r.tracee.isChild, past, r.tracee.calls.entered, s);
        RestartSays(res.tracee, a);
        assert r.tracee.log + news + [Resumed] == r.tracee.log + (news + [Resumed]);
      }
    }
  }

  lemma DeathSays(r: Run, past: seq<Step>, s: Step)
    requires Lives(r, past) && !r.quiet && s.status.Died?
    ensures Says(r.tracee.log, News(r.tracee.isChild, past, Observe(r.tracee.log).open, s), Process(r.tracee, s), s.answers)
  {
    hide Observe, Deliver;
    StillDead(ChangeState(ResetSignal(r.tracee), Dead), Disappeared, s.answers);
  }

  lemma NoticeSays(r: Run, past: seq<Step>, s: Step)
    requires NeedsEngine(s.status) && !r.tracee.life.detachAtNextStop
    ensures Says(r.tracee.log, News(r.tracee.isChild, past, Observe(r.tracee.log).open, s), Process(r.tracee, s), s.answers)
  {
    hide Observe, Deliver, Restart, Began, EverStopped;
    var u := ChangeState(ResetSignal(r.tracee), EventStop);
    DeliverKeepsLife(u, s.notice, s.answers);
    RestartSays(Deliver(u, s.notice, s.answers).tracee, s.answers);
  }

  // ----- every run

  function Start(id: nat, pid: Pid, isChild: bool): Run { NewRun(Attaching(id, pid, isChild)) }

  lemma {:induction false} RunLives(r: Run, steps: seq<Step>, past: seq<Step>)
    requires Lives(r, past) && Possible(r, steps)
    ensures Lives(RunAll(r, steps), past + steps) && RunAll(r, steps).tracee.isChild == r.tracee.isChild
    decreases |steps|
  {
    hide Lives, MayReport, Advance;
    if steps == [] {
      assert past + [] == past;
    } else {
      StepLives(r, steps[0], past);
      RunLives(Advance(r, steps[0]), steps[1..], past + [steps[0]]);
      assert past + [steps[0]] + steps[1..] == past + steps;
    }
  }

  lemma StartLives(id: nat, pid: Pid, isChild: bool, steps: seq<Step>)
    requires Possible(Start(id, pid, isChild), steps)
    ensures var r := RunAll(Start(id, pid, isChild), steps);
      Lives(r, steps) && r.tracee.isChild == isChild && Consistent(r)
  {
    RunLives(Start(id, pid, isChild), steps, []);
    RunKeeps(Start(id, pid, isChild), steps);
    assert [] + steps == steps;
  }

  lemma {:induction false} StillFollowed(r: Run, steps: seq<Step>)
    requires (!r.quiet ==> Followed(r.tracee)) && !RunAll(r, steps).quiet
    ensures Followed(RunAll(r, steps).tracee)
    decreases |steps|
  {
    if steps != [] {
      hide Process;
      StillFollowed(Advance(r, steps[0]), steps[1..]);
    }
  }

  /** Main result on all events but system call stops, for every run: what the
      consumer is told, in the event's own terms, and all of it unless a request
      fails or the consumer detaches. */
  lemma EventIsToldAsNews(id: nat, pid: Pid, isChild: bool, steps: seq<Step>, s: Step)
    requires Possible(Start(id, pid, isChild), steps)
    requires var r := RunAll(Start(id, pid, isChild), steps);
      && MayReport(r, s) && !r.quiet && !s.status.SyscallTrap?
      && !(IsTrap(s.status) && r.tracee.life.detachAtNextStop)
    ensures var r := RunAll(Start(id, pid, isChild), steps);
      var news := News(isChild, steps, Observe(r.tracee.log).open, s);
      var (before, after) := (r.tracee.log, Advance(r, s).tracee.log);
      && before <= after <= before + news
      && (Untroubled(s.answers) ==> after == before + news)
  {
    hide Process, News, Lives, Consistent, Untroubled, MayReport;
    StartLives(id, pid, isChild, steps);
    StillFollowed(Start(id, pid, isChild), steps);
    StepSays(RunAll(Start(id, pid, isChild), steps), steps, s);
  }

  /** Main result on restarts, for every run: as long as the tracee is followed, it
      was last restarted in the mode and with the signal that the events call for,
      it is in a group stop iff that is still to be kept up, and stopSignal() is that
      of the last one unless the tracer lifted it. */
  lemma RestartedAsDue(id: nat, pid: Pid, isChild: bool, steps: seq<Step>)
    requires Possible(Start(id, pid, isChild), steps)
    ensures var r := RunAll(Start(id, pid, isChild), steps);
      var l := r.tracee.life;
      !r.quiet ==>
        && l.restartMode == Mode(isChild, steps) && l.injectSignal == Passed(steps)
        && (l.state == GroupStop <==> Halted(isChild, steps))
        && (Halted(isChild, steps) ==> l.restartMode == Listen) && l.stopSignal == StopSignal(isChild, steps)
  {
    StartLives(id, pid, isChild, steps);
  }

  // ----- resumed()

  predicate OnlyOwn(isChild: bool, log: seq<Callback>, past: seq<Step>) {
    && multiset(log)[Resumed] <= 1
    && (Resumed in log ==> isChild && EverStopped(past))
  }

  lemma ResumedInNews(before: seq<Callback>, after: seq<Callback>, m: seq<Callback>, own: bool)
    requires before <= after <= before + m + (if own then [Resumed] else []) && Resumed !in m
    ensures multiset(after)[Resumed] <= multiset(before)[Resumed] + 1
    ensures !own ==> multiset(after)[Resumed] == multiset(before)[Resumed]
  {
    var more := after[|before|..];
    assert after == before + more;
    assert more <= m + (if own then [Resumed] else []);
    if |more| <= |m| {
      assert more == m[..|more|];
      assert Resumed !in more;
    } else {
      assert more == m + [Resumed];
    }
  }

  /** What a step adds to the log, with at most one Resumed. */
  predicate Adds(before: seq<Callback>, after: seq<Callback>, own: bool) {
    multiset(after)[Resumed] <= multiset(before)[Resumed] + if own then 1 else 0
  }

  lemma SyscallAdds(t: Tracee, a: Answers)
    ensures Adds(t.log, HandleSystemCall(t, a).tracee.log, false)
  {
    hide HandleSystemCall;
    WrongStopIsNeverReported(t, a);
    TraceeEnds.SyscallTrapGrows(t, a);
    var after := HandleSystemCall(t, a).tracee.log;
    if after != t.log { assert after == t.log + [after[|t.log|]]; }
  }

  lemma RestartAddsNothing(t: Tracee, a: Answers)
    ensures !Followed(t) || t.life.state != GroupStop ==> Restart(t, a).tracee.log == t.log
  {
    hide Restart;
    RestartSays(t, a);
    assert t.log + [] == t.log;
  }

  lemma TrapAdds(t: Tracee, s: Step)
    requires s.status.SyscallTrap?
    ensures Adds(t.log, Process(t, s).tracee.log, false)
  {
    hide HandleSystemCall, Restart, DoDetach;
    var (u, a) := (ResetSignal(t), s.answers);
    SyscallAdds(u, a);
    HandledLife(t, s);
    RestartAddsNothing(HandleSystemCall(u, a).tracee, a);
  }

  /** Of a tracee that was not restarted or is detached there is only its end. */
  lemma QuietAdds(r: Run, s: Step)
    requires r.quiet && MayReport(r, s)
    ensures Adds(r.tracee.log, Process(r.tracee, s).tracee.log, false)
  {
    hide Deliver, Restart, DoDetach;
    var (u, a) := (ResetSignal(r.tracee), s.answers);
    if IsExitEvent(s.status) && !u.life.detachAtNextStop {
      HandledLife(r.tracee, s);
      RestartAddsNothing(Dispatch(u, s.status, a).tracee, a);
    }
  }

  lemma StepAdds(r: Run, past: seq<Step>, s: Step)
    requires Lives(r, past) && Consistent(r) && MayReport(r, s) && (!r.quiet ==> Followed(r.tracee))
    ensures Adds(r.tracee.log, Advance(r, s).tracee.log, IsOwnStop(r.tracee.isChild, past, s))
  {
    hide Process, Message, IsOwnStop, Lives, Consistent, Followed, DoDetach;
    if r.quiet {
      QuietAdds(r, s);
    } else if s.status.SyscallTrap? {
      TrapAdds(r.tracee, s);
    } else if IsTrap(s.status) && r.tracee.life.detachAtNextStop {
      TraceeEnds.LeavingTrap(r.tracee, s);
    } else {
      StepSays(r, past, s);
      NoResumedInMessage(r, past, s);
      ResumedInNews(r.tracee.log, Advance(r, s).tracee.log,
                    Message(r.tracee.isChild, past, Observe(r.tracee.log).open, s), IsOwnStop(r.tracee.isChild, past, s));
    }
  }

  lemma NoResumedInMessage(r: Run, past: seq<Step>, s: Step)
    requires MayReport(r, s)
    ensures Resumed !in Message(r.tracee.isChild, past, Observe(r.tracee.log).open, s)
  {}

  lemma StepKeepsOwn(r: Run, past: seq<Step>, s: Step)
    requires Lives(r, past) && Consistent(r) && MayReport(r, s) && (!r.quiet ==> Followed(r.tracee))
    requires OnlyOwn(r.tracee.isChild, r.tracee.log, past)
    ensures OnlyOwn(r.tracee.isChild, Advance(r, s).tracee.log, past + [s])
  {
    hide Lives, MayReport, Process, Consistent, EverStopped, IsGroupStop;
    StepAdds(r, past, s);
    OneMore(r.tracee.isChild, past, s);
    assert multiset(r.tracee.log)[Resumed] > 0 <==> Resumed in r.tracee.log;
    assert multiset(Advance(r, s).tracee.log)[Resumed] > 0 <==> Resumed in Advance(r, s).tracee.log;
  }

  predicate Sound(r: Run, past: seq<Step>) {
    && Lives(r, past) && Consistent(r) && (!r.quiet ==> Followed(r.tracee))
    && OnlyOwn(r.tracee.isChild, r.tracee.log, past)
  }

  lemma StepSound(r: Run, past: seq<Step>, s: Step)
    requires Sound(r, past) && MayReport(r, s)
    ensures Sound(Advance(r, s), past + [s]) && Advance(r, s).tracee.isChild == r.tracee.isChild
  {
    hide Lives, MayReport, Process, Consistent, OnlyOwn;
    StepLives(r, s, past);
    StepKeeps(r, s);
    StepKeepsOwn(r, past, s);
  }

  lemma {:induction false} RunSound(r: Run, steps: seq<Step>, past: seq<Step>)
    requires Sound(r, past) && Possible(r, steps)
    ensures Sound(RunAll(r, steps), past + steps) && RunAll(r, steps).tracee.isChild == r.tracee.isChild
    decreases |steps|
  {
    hide Sound, MayReport, Advance;
    if steps == [] {
      assert past + [] == past;
    } else {
      StepSound(r, past, steps[0]);
      RunSound(Advance(r, steps[0]), steps[1..], past + [steps[0]]);
      assert past + [steps[0]] + steps[1..] == past + steps;
    }
  }

  /** resumed() is documented as the news of a SIGCONT. In fact it is told at most
      once, to a child process, of the stop that the tracer itself lifts, and
      never of any other tracee or any other group stop. */
  lemma ResumedIsOwnStop(id: nat, pid: Pid, isChild: bool, steps: seq<Step>)
    requires Possible(Start(id, pid, isChild), steps)
    ensures var log := RunAll(Start(id, pid, isChild), steps).tracee.log;
      && (Resumed in log ==> isChild && EverStopped(steps))
      && multiset(log)[Resumed] <= 1
  {
    RunSound(Start(id, pid, isChild), steps, []);
    assert [] + steps == steps;
  }

  // ----- the restart request

  /** If nothing else fails, an event fails exactly as its restart does, also when
      that only asks to go on listening. */
  lemma FailsAsRestart(r: Run, past: seq<Step>, s: Step)
    requires Lives(r, past) && Consistent(r) && !r.quiet && Followed(r.tracee)
    requires !(IsTrap(s.status) && r.tracee.life.detachAtNextStop)
    requires !s.status.Died? && !s.status.SyscallTrap? && Answered(s.answers)
    ensures Process(r.tracee, s).fault
         == if s.answers.restarted.Err? then Some(s.answers.restarted.fault) else None
  {
    hide Deliver, Dispatch, Observe, Message, Reflects, ChangeState;
    var (t, a) := (ResetSignal(r.tracee), s.answers);
    if NeedsEngine(s.status) {
      AtStop(t, EventStop);
      DeliverKeepsLife(ChangeState(t, EventStop), s.notice, a);
      RestartFails(Deliver(ChangeState(t, EventStop), s.notice, a).tracee, a);
    } else {
      DispatchSays(r, past, s);
      RestartFails(Dispatch(t, s.status, a).tracee, a);
    }
  }

  lemma RestartFails(t: Tracee, a: Answers)
    requires Followed(t) && !a.consumerDetaches
    ensures Restart(t, a).fault == if a.restarted.Err? then Some(a.restarted.fault) else None
  {
    hide Deliver;
    DeliverKeepsLife(ChangeState(t, Running), Resumed, a);
  }

  /** The same in every run. */
  lemma EventFailsAsRestart(id: nat, pid: Pid, isChild: bool, steps: seq<Step>, s: Step)
    requires Possible(Start(id, pid, isChild), steps)
    requires var r := RunAll(Start(id, pid, isChild), steps);
      && MayReport(r, s) && !r.quiet && !s.status.SyscallTrap? && !s.status.Died? && Answered(s.answers)
      && !(IsTrap(s.status) && r.tracee.life.detachAtNextStop)
    ensures Process(RunAll(Start(id, pid, isChild), steps).tracee, s).fault
         == if s.answers.restarted.Err? then Some(s.answers.restarted.fault) else None
  {
    hide Process, Lives, Consistent, MayReport, Answered;
    StartLives(id, pid, isChild, steps);
    StillFollowed(Start(id, pid, isChild), steps);
    FailsAsRestart(RunAll(Start(id, pid, isChild), steps), steps, s);
  }
}
