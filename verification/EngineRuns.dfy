// Structure of the engine over all runs: who is keyed where, what is stashed,
// and that RETRY happens at most once per event.
module EngineRuns {
  import opened Common
  import opened TraceeModel
  import opened EngineModel
  import opened TraceeRuns

  /** A handler leaves the object's identity alone, and the pid as well if the
      tracee is still followed afterwards. */
  predicate KeepsPid(t: Tracee, res: Result) {
    && res.tracee.id == t.id && res.tracee.isChild == t.isChild
    && (res.Ok?() && Followed(res.tracee) ==> res.tracee.life.pid == t.life.pid)
  }

  lemma DetachKeepsPid(t: Tracee, a: Answers)
    ensures KeepsPid(t, Detach(t, a)) && KeepsPid(t, DoDetach(t, a.detached))
  {}

  lemma DeliverKeepsPid(t: Tracee, c: Callback, a: Answers)
    ensures KeepsPid(t, Deliver(t, c, a))
  {
    hide Detach;
    DetachKeepsPid(t.(log := t.log + [c]), a);
  }

  lemma RestartKeepsPid(t: Tracee, a: Answers)
    ensures KeepsPid(t, Restart(t, a)) && (Followed(Restart(t, a).tracee) ==> Followed(t))
  {
    hide Deliver;
    DeliverKeepsPid(ChangeState(t, Running), Resumed, a);
  }

  lemma SyscallTrapKeepsPid(t: Tracee, a: Answers)
    ensures KeepsPid(t, HandleSystemCall(t, a))
  {
    hide Deliver, IdentifyCall, CloseCall;
    if a.info.Ok? && t.calls.entered && t.calls.current.Some? {
      var u, info := ChangeState(t, SyscallExitStop), a.info.value;
      var c := if Interrupts(info) then u.calls.(interrupted := u.calls.current) else u.calls;
      DeliverKeepsPid(u.(calls := c), SyscallExit(c.current.value, Interrupts(info)), a);
    } else if a.info.Ok? && !t.calls.entered {
      var u := ChangeState(t, SyscallEnterStop);
      var i := IdentifyCall(u.calls, a.info.value, a);
      DeliverKeepsPid(u.(calls := i.calls.(count := i.calls.count + 1)),
                      SyscallEntry(i.calls.current.value, i.resumed), a);
    }
  }

  lemma DispatchKeepsPid(t: Tracee, w: WaitStatus, a: Answers)
    requires !w.Died? && !NeedsEngine(w)
    ensures KeepsPid(t, Dispatch(t, w, a))
  {
    hide Deliver, HandleSystemCall;
    var u := ChangeState(t, EventStop);
    match w
    case SyscallTrap => SyscallTrapKeepsPid(t, a);
    case EventTrap(StopEvent, s) =>
      DeliverKeepsPid(MarkStopped(u, s), Stopped, a);
      var v := MarkAttached(u);
      if a.registers.Ok? {
        DeliverKeepsPid(v.(calls := v.calls.(initial := Some(a.registers.value))), Attached, a);
      }
    case EventTrap(ExitEvent, _) =>
      DeliverKeepsPid(u, Exited(true), a);
      DeliverKeepsPid(u, Exited(false), a);
    case EventTrap(_, _) =>
    case SignalTrap(s) => SignalKeepsPid(t, s, a);
    case StoppedUntraced(s) => SignalKeepsPid(t, s, a);
    case OtherStatus =>
  }

  lemma SignalKeepsPid(t: Tracee, s: Signal, a: Answers)
    ensures KeepsPid(t, HandleSignal(t, s, a))
  {
    hide Deliver;
    if a.signalInfo.Ok? {
      DeliverKeepsPid(ChangeState(t, SignalDeliveryStop), Signaled(a.signalInfo.value), a);
    }
  }

  lemma ProcessKeepsPid(t: Tracee, w: WaitStatus, a: Answers)
    requires !NeedsEngine(w)
    ensures KeepsPid(t, ProcessEvent(t, w, a))
    ensures w.Died? ==> ProcessEvent(t, w, a).tracee.life.state == Dead
  {
    hide Deliver, Dispatch, DoDetach, Restart;
    var t0 := ResetSignal(t);
    if w.Died? {
      DeathState(t0, a);
    } else {
      DetachKeepsPid(t0, a);
      DispatchKeepsPid(t0, w, a);
      RestartKeepsPid(Dispatch(t0, w, a).tracee, a);
    }
  }

  lemma DeathState(t: Tracee, a: Answers)
    ensures HandleDeath(t, a).tracee.life.state == Dead && KeepsPid(t, HandleDeath(t, a))
  {}

  // ----- one event, as the tracee that reports it sees it

  /** The notice the consumer gets for an event a tracee shares with its engine. */
  function NoticeOf(e: Engine, ev: WaitEvent, a: Answers): (c: Callback)
    ensures IsNotice(c)
  {
    match ev.status
    case EventTrap(ExecEvent, _) =>
      NewExecutionContext(if a.eventPid.Ok? && a.eventPid.value != ev.pid then Some(a.eventPid.value) else None)
    case EventTrap(NewTaskEvent(VforkDone), _) => VforkComplete(a.eventPid.Ok? && a.eventPid.value in e.tracees)
    case _ => NewChildProcess(if a.eventPid.Ok? then a.eventPid.value else 0)
  }

  function StepOf(e: Engine, ev: WaitEvent, a: Answers): Step { Step(ev.status, a, NoticeOf(e, ev, a)) }

  /** The tracee an event is for; it takes over the pid of a main thread that
      is not traced. */
  function Reporter(e: Engine, ev: WaitEvent, a: Answers): Tracee
    requires ev.pid in e.tracees
  {
    var t := e.tracees[ev.pid];
    if IsExecEvent(ev.status) && a.eventPid.Ok? && a.eventPid.value != ev.pid then SetPid(t, ev.pid) else t
  }

  /** The new task an event makes the engine learn about. */
  function NewTaskOf(e: Engine, ev: WaitEvent, a: Answers): Option<Pid>
    requires ev.pid in e.tracees
  {
    if IsNewTaskEvent(ev.status) && a.eventPid.Ok? && !e.tracees[ev.pid].life.detachAtNextStop
    then Some(a.eventPid.value) else None
  }

  predicate CompletesVfork(w: WaitStatus) { IsNewTaskEvent(w) && w.event.kind == VforkDone }

  /** A new task the consumer was told about; it may have rejected it. */
  function Newborn(id: nat, child: Pid, a: Answers): Result { Announce(Attaching(id, child, false), a) }

  /** What an event changes in the engine besides the tracee it is for. */
  function Besides(e: Engine, ev: WaitEvent, a: Answers): Engine
    requires ev.pid in e.tracees
  {
    var child := NewTaskOf(e, ev, a);
    if child.Some? then
      var e1 := if CompletesVfork(ev.status) then e else Birth(e, child.value, a);
      if TellsOf(e, ev, a).Ok?() then e1.(newly := child) else e1
    else if IsExitEvent(ev.status) then e.(exitSeen := e.exitSeen + {e.tracees[ev.pid].id})
    else e
  }

  /** The callback about a new task, as far as its creator is concerned. */
  function TellsOf(e: Engine, ev: WaitEvent, a: Answers): Result
    requires ev.pid in e.tracees
  {
    Deliver(ChangeState(ResetSignal(e.tracees[ev.pid]), EventStop), NoticeOf(e, ev, a), a)
  }

  /** The task whose stored stop is due after an event. */
  function DueOf(e: Engine, ev: WaitEvent, a: Answers): Option<Pid>
    requires ev.pid in e.tracees
  {
    if NewTaskOf(e, ev, a).Some? && TellsOf(e, ev, a).Ok?() then NewTaskOf(e, ev, a) else None
  }

  function Birth(e: Engine, child: Pid, a: Answers): Engine {
    Entered(e, child, Newborn(e.nextId, child, a).tracee)
  }

  /** The consumer calls detach() for the stopped tracee it is told about, and
      the kernel does not let go of it. */
  predicate RefusedInCallback(a: Answers) { a.consumerDetaches && a.detached == RequestRefused }

  /** What the kernel keeps about new tasks: they get a pid nobody has. */
  predicate PlausibleTask(e: Engine, ev: WaitEvent, a: Answers)
    requires ev.pid in e.tracees
  {
    NewTaskOf(e, ev, a).Some? && !CompletesVfork(ev.status) ==> a.eventPid.value !in e.tracees
  }

  /** What the engine needs to know about the creator of a new task: its call,
      and the arguments if that is a clone3(). */
  predicate CreatorKnown(e: Engine, ev: WaitEvent, a: Answers)
    requires ev.pid in e.tracees
  {
    NewTaskOf(e, ev, a).Some? ==>
      && e.tracees[ev.pid].calls.current.Some?
      && (CompletesVfork(ev.status) || (e.tracees[ev.pid].calls.current == Some(Clone3) ==> a.cloneArgs))
  }

  /** The event is not the execve() of a thread other than the main one whose
      main thread is traced as well. */
  predicate NoSubstitution(e: Engine, ev: WaitEvent, a: Answers) {
    IsExecEvent(ev.status) && a.eventPid.Ok? ==>
      a.eventPid.value == ev.pid || a.eventPid.value !in e.tracees
  }

  lemma NewbornIsFine(id: nat, child: Pid, a: Answers)
    ensures var r := Newborn(id, child, a);
      && r.Ok?() && Followed(r.tracee) && r.tracee.id == id && !r.tracee.isChild
      && r.tracee.log == [Announced]
      && r.tracee.life == Attaching(id, child, false).life.(detachAtNextStop := a.consumerRejects)
      && r.tracee.calls == Attaching(id, child, false).calls
  {}

  lemma CleanupOfFollowed(e: Engine, p: Pid, a: Answers)
    requires p in e.tracees && Followed(e.tracees[p])
    ensures Cleanup(e, p, a) == Outcome(e, None)
  {}

  lemma AttachStep(e: Engine, p: Pid, t: Tracee, child: Pid, a: Answers)
    requires child !in e.tracees && !MissesArgs(t, a)
    ensures var r := Deliver(t, NewChildProcess(child), a);
      var b := Birth(e, child, a);
      AutoAttach(e, p, t, child, a)
      == if r.Ok?() then Own(b.(newly := Some(child)), p, Restart(r.tracee, a)) else Own(b, p, r)
  {
    hide Restart, Deliver, Cleanup, Announce;
    NewbornIsFine(e.nextId, child, a);
    var (attaching, newborn) := (Attaching(e.nextId, child, false), Newborn(e.nextId, child, a).tracee);
    assert e.tracees[child := attaching][child := newborn] == e.tracees[child := newborn];
    CleanupOfFollowed(Birth(e, child, a), child, a);
  }

  lemma NewTaskStep(e: Engine, ev: WaitEvent, a: Answers)
    requires ev.pid in e.tracees && PlausibleTask(e, ev, a) && CreatorKnown(e, ev, a) && IsNewTaskEvent(ev.status)
    ensures HandleNewTask(e, ev.pid, ev.status.event.kind, a)
            == Own(Besides(e, ev, a), ev.pid, ProcessNotice(e.tracees[ev.pid], NoticeOf(e, ev, a), a))
  {
    hide Restart, Deliver, DoDetach, AutoAttach, Birth;
    if NewTaskOf(e, ev, a).Some? && !CompletesVfork(ev.status) {
      AttachStep(e, ev.pid, ChangeState(ResetSignal(e.tracees[ev.pid]), EventStop), a.eventPid.value, a);
    }
  }

  lemma SetPidCommutes(t: Tracee, p: Pid, r: Request)
    ensures ChangeState(ResetSignal(SetPid(t, p)), EventStop) == SetPid(ChangeState(ResetSignal(t), EventStop), p)
    ensures DoDetach(ResetSignal(SetPid(t, p)), r) == DoDetach(ResetSignal(t), r)
  {}

  lemma ExecStep(e: Engine, ev: WaitEvent, a: Answers)
    requires ev.pid in e.tracees && IsExecEvent(ev.status) && NoSubstitution(e, ev, a)
    ensures HandleExec(e, ev.pid, a)
            == Own(Besides(e, ev, a), ev.pid, ProcessNotice(Reporter(e, ev, a), NoticeOf(e, ev, a), a))
  {
    hide Restart, Deliver, Move, DoDetach;
    SetPidCommutes(e.tracees[ev.pid], ev.pid, a.detached);
  }

  /** Without a substitution, an event means for the tracee it is for exactly
      what it means for a tracee alone, and otherwise only enters a new task. */
  lemma KnownStep(e: Engine, ev: WaitEvent, a: Answers)
    requires ev.pid in e.tracees && PlausibleTask(e, ev, a) && CreatorKnown(e, ev, a) && NoSubstitution(e, ev, a)
    ensures HandleKnown(e, ev, a) == Own(Besides(e, ev, a), ev.pid, Process(Reporter(e, ev, a), StepOf(e, ev, a)))
  {
    hide ProcessEvent, ProcessNotice, HandleNewTask, HandleExec;
    if IsNewTaskEvent(ev.status) {
      NewTaskStep(e, ev, a);
    } else if IsExecEvent(ev.status) {
      ExecStep(e, ev, a);
    }
  }

  // ----- the structure of the engine

  /** A tracee that can still report is keyed under its own pid. */
  predicate Keyed(e: Engine, p: Pid)
    requires p in e.tracees
  {
    e.tracees[p].id in e.quiet || (Followed(e.tracees[p]) && e.tracees[p].life.pid == Some(p))
  }

  ghost predicate AllKeyed(e: Engine, but: Option<Pid>) {
    forall p | p in e.tracees && Some(p) != but :: Keyed(e, p)
  }

  /** No object is in the map twice, nor after it left; identities are fresh. */
  ghost predicate Identities(e: Engine) {
    && (forall p | p in e.tracees :: e.tracees[p].id < e.nextId && e.tracees[p].id !in e.retired)
    && (forall p, q | p in e.tracees && q in e.tracees && p != q :: e.tracees[p].id != e.tracees[q].id)
    && (forall i | i in e.retired || i in e.quiet || i in e.exitSeen :: i < e.nextId)
  }

  ghost predicate OnlyStopsStashed(e: Engine) { forall p | p in e.stash :: IsStopEvent(e.stash[p]) }

  ghost predicate Structured(e: Engine, but: Option<Pid>) {
    Identities(e) && AllKeyed(e, but) && OnlyStopsStashed(e)
  }

  lemma KeepKeeps(e: Engine, p: Pid, t: Tracee, r: Result, but: Option<Pid>)
    requires Structured(e, but) && p in e.tracees && t.id == e.tracees[p].id && KeepsPid(t, r)
    requires but == None || but == Some(p)
    requires r.Ok?() && Followed(r.tracee) && t.id !in e.quiet ==> t.life.pid == Some(p)
    ensures Structured(Keep(e, p, r), None)
  {}

  lemma BesidesKeep(e: Engine, ev: WaitEvent, a: Answers, but: Option<Pid>)
    requires Structured(e, but) && ev.pid in e.tracees && PlausibleTask(e, ev, a)
    ensures var b := Besides(e, ev, a);
      && Structured(b, but) && b.tracees.Keys == e.tracees.Keys + Births(e, ev, a)
      && ev.pid in b.tracees && b.tracees[ev.pid] == e.tracees[ev.pid]
      && b.stash == e.stash && b.quiet == e.quiet && b.retired == e.retired
  {
    hide Entered, Newborn, TellsOf, Structured;
    StructuredIds(e, but, ev.pid);
    var child := NewTaskOf(e, ev, a);
    if child.Some? && !CompletesVfork(ev.status) {
      NewbornIsFine(e.nextId, child.value, a);
      EnterKeeps(e, child.value, Newborn(e.nextId, child.value, a).tracee, but);
    }
    var b0 := if child.Some? && !CompletesVfork(ev.status) then Birth(e, child.value, a) else e;
    NotedKeeps(b0, Besides(e, ev, a), e.tracees[ev.pid].id, but);
  }

  lemma StructuredIds(e: Engine, but: Option<Pid>, p: Pid)
    requires Structured(e, but) && p in e.tracees
    ensures e.tracees[p].id < e.nextId
  {}

  function Entered(e: Engine, child: Pid, t: Tracee): Engine {
    e.(tracees := e.tracees[child := t], nextId := e.nextId + 1)
  }

  lemma EnterKeeps(e: Engine, child: Pid, t: Tracee, but: Option<Pid>)
    requires Structured(e, but) && child !in e.tracees
    requires t.id == e.nextId && Followed(t) && t.life.pid == Some(child)
    ensures var b := Entered(e, child, t);
      && Structured(b, but) && b.tracees.Keys == e.tracees.Keys + {child}
      && (forall p | p in e.tracees :: b.tracees[p] == e.tracees[p])
      && b.stash == e.stash && b.quiet == e.quiet && b.retired == e.retired && e.nextId <= b.nextId
      && b.newly == e.newly && b.exitSeen == e.exitSeen
  {
    var b := Entered(e, child, t);
    forall p | p in b.tracees && Some(p) != but ensures Keyed(b, p) {
      if p != child { assert Keyed(e, p); }
    }
  }

  /** Neither the marker nor a seen exit changes the structure. */
  lemma NotedKeeps(e: Engine, b: Engine, id: nat, but: Option<Pid>)
    requires Structured(e, but) && b == e.(newly := b.newly, exitSeen := b.exitSeen)
    requires b.exitSeen <= e.exitSeen + {id} && id < e.nextId
    ensures Structured(b, but)
  {
    forall p | p in b.tracees && Some(p) != but ensures Keyed(b, p) { assert Keyed(e, p); }
  }

  function Births(e: Engine, ev: WaitEvent, a: Answers): set<Pid>
    requires ev.pid in e.tracees
  {
    var child := NewTaskOf(e, ev, a);
    if child.Some? && !CompletesVfork(ev.status) then {child.value} else {}
  }

  lemma NoticeKeepsPid(t: Tracee, notice: Callback, a: Answers)
    ensures KeepsPid(t, ProcessNotice(t, notice, a))
  {
    hide Deliver, DoDetach, Restart;
    var t0 := ResetSignal(t);
    var t1 := ChangeState(t0, EventStop);
    DetachKeepsPid(t0, a);
    DeliverKeepsPid(t1, notice, a);
    RestartKeepsPid(Deliver(t1, notice, a).tracee, a);
  }

  lemma StepKeepsPid(t: Tracee, s: Step)
    ensures KeepsPid(t, Process(t, s))
  {
    hide ProcessEvent, ProcessNotice;
    if NeedsEngine(s.status) {
      NoticeKeepsPid(t, s.notice, s.answers);
    } else {
      ProcessKeepsPid(t, s.status, s.answers);
    }
  }

  /** An event whose tracee was just moved to the pid it is reported under. */
  predicate JustRekeyed(ev: WaitEvent, a: Answers) {
    IsExecEvent(ev.status) && (a.eventPid.Ok? ==> a.eventPid.value != ev.pid)
  }

  lemma UnansweredExec(t: Tracee, notice: Callback, a: Answers)
    requires a.eventPid.Err?
    ensures var r := ProcessNotice(t, notice, a); !(r.Ok?() && Followed(r.tracee))
  {}

  lemma ReporterPid(e: Engine, ev: WaitEvent, a: Answers, but: Option<Pid>)
    requires ev.pid in e.tracees && AllKeyed(e, but)
    requires but == None || (but == Some(ev.pid) && JustRekeyed(ev, a))
    ensures var t := Reporter(e, ev, a);
      var r := Process(t, StepOf(e, ev, a));
      && t.id == e.tracees[ev.pid].id
      && (r.Ok?() && Followed(r.tracee) && t.id !in e.quiet ==> t.life.pid == Some(ev.pid))
  {
    hide ProcessEvent, ProcessNotice;
    if a.eventPid.Err? { UnansweredExec(Reporter(e, ev, a), NoticeOf(e, ev, a), a); }
    if but == None { assert Keyed(e, ev.pid); }
  }

  /** What HandleKnown and the cleanup after it leave alone. */
  ghost predicate Frame(e: Engine, ev: WaitEvent, a: Answers, e1: Engine)
    requires ev.pid in e.tracees
  {
    && e1.stash == e.stash
    && e1.tracees.Keys <= e.tracees.Keys + Births(e, ev, a)
    && e1.newly == (if DueOf(e, ev, a).Some? then DueOf(e, ev, a) else e.newly)
  }

  lemma KnownKeeps(e: Engine, ev: WaitEvent, a: Answers, but: Option<Pid>)
    requires Structured(e, but) && ev.pid in e.tracees && NoSubstitution(e, ev, a)
    requires PlausibleTask(e, ev, a) && CreatorKnown(e, ev, a)
    requires but == None || (but == Some(ev.pid) && JustRekeyed(ev, a))
    ensures var o := HandleKnown(e, ev, a);
      Structured(o.engine, None) && Frame(e, ev, a, o.engine)
  {
    hide Process, Besides, Births, Structured, PlausibleTask, CreatorKnown, HandleKnown, NewTaskOf, DueOf;
    KnownStep(e, ev, a);
    var t, b := Reporter(e, ev, a), Besides(e, ev, a);
    assert AllKeyed(e, but) by { StructuredKeyed(e, but); }
    ReporterPid(e, ev, a, but);
    BesidesKeep(e, ev, a, but);
    StepKeepsPid(t, StepOf(e, ev, a));
    KeepKeeps(b, ev.pid, t, Process(t, StepOf(e, ev, a)), but);
    BesidesNewly(e, ev, a);
  }

  lemma StructuredKeyed(e: Engine, but: Option<Pid>)
    requires Structured(e, but)
    ensures AllKeyed(e, but)
  {}

  lemma BesidesNewly(e: Engine, ev: WaitEvent, a: Answers)
    requires ev.pid in e.tracees
    ensures Besides(e, ev, a).newly == if DueOf(e, ev, a).Some? then DueOf(e, ev, a) else e.newly
  {
    hide Deliver, Newborn;
  }

  lemma UnknownCreator(e: Engine, ev: WaitEvent, a: Answers)
    requires ev.pid in e.tracees && PlausibleTask(e, ev, a) && !CreatorKnown(e, ev, a)
    ensures var t := ChangeState(ResetSignal(e.tracees[ev.pid]), EventStop);
      var child := a.eventPid.value;
      var b := if t.calls.current.None? then e else Entered(e, child, Attaching(e.nextId, child, false));
      HandleKnown(e, ev, a) == Own(b, ev.pid, Threw(t, NullCall))
  {
    hide Restart, Deliver, DoDetach, Announce;
  }

  /** A new task whose creator's call, or its arguments, are missing: trace() is
      left, but what is in the map is in order. */
  lemma UnknownCreatorKeeps(e: Engine, ev: WaitEvent, a: Answers)
    requires Structured(e, None) && ev.pid in e.tracees && PlausibleTask(e, ev, a) && !CreatorKnown(e, ev, a)
    ensures var (e1, v) := HandleOne(e, ev, a);
      v == Escaped(NullCall) && Structured(e1, None)
  {
    hide HandleKnown, Structured, ChangeState;
    UnknownCreator(e, ev, a);
    var t := ChangeState(ResetSignal(e.tracees[ev.pid]), EventStop);
    ResetKeepsId(e.tracees[ev.pid]);
    var born := Attaching(e.nextId, a.eventPid.value, false);
    if t.calls.current.Some? { EnterKeeps(e, a.eventPid.value, born, None); }
    var b := if t.calls.current.None? then e else Entered(e, a.eventPid.value, born);
    KeepKeeps(b, ev.pid, e.tracees[ev.pid], Threw(t, NullCall), None);
  }

  lemma ResetKeepsId(t: Tracee)
    ensures KeepsPid(t, Done(ChangeState(ResetSignal(t), EventStop)))
    ensures ChangeState(ResetSignal(t), EventStop).calls == t.calls
  {}

  /** An object leaves the map for good. */
  lemma RemovalKeeps(e: Engine, p: Pid, gone: Tracee)
    requires Structured(e, None) && p in e.tracees && gone.id == e.tracees[p].id
    ensures Structured(e.(tracees := e.tracees - {p}, retired := e.retired[gone.id := gone]), None)
  {
    var e1 := e.(tracees := e.tracees - {p}, retired := e.retired[gone.id := gone]);
    forall q | q in e1.tracees ensures Keyed(e1, q) { assert Keyed(e, q); }
  }

  lemma SubstituteKeeps(e: Engine, p: Pid, main: Tracee, former: Pid, a: Answers)
    requires Structured(e, None) && p in e.tracees && former in e.tracees && former != p
    requires main.id == e.tracees[p].id
    ensures var (e1, r) := Substitute(e, p, main, former, a);
      && Structured(e1, None) && p in e1.tracees && e1.tracees[p] == e.tracees[p]
      && r.tracee.id == main.id && r.tracee.isChild == main.isChild && r.tracee.life == main.life
      && e1.stash == e.stash && e1.newly == e.newly && e1.tracees.Keys <= e.tracees.Keys && e.quiet <= e1.quiet
  {
    hide ChangeState, Detach, Structured;
    var b := a.(detached := a.formerReleased, interrupted := a.formerReleased);
    var d := Detach(e.tracees[former], b);
    DetachKeepsPid(e.tracees[former], b);
    StructuredKeyed(e, None);
    assert Keyed(e, former);
    KeepKeeps(e, former, e.tracees[former], d, None);
    DeadKeepsId(d.tracee);
    RemovalKeeps(e, former, ChangeState(d.tracee, Dead));
  }

  lemma DeadKeepsId(t: Tracee)
    ensures ChangeState(t, Dead).id == t.id
  {}

  lemma SubstitutionKeeps(e: Engine, ev: WaitEvent, a: Answers)
    requires Structured(e, None) && ev.pid in e.tracees && IsExecEvent(ev.status) && !NoSubstitution(e, ev, a)
    ensures var o := HandleExec(e, ev.pid, a);
      Structured(o.engine, None) && Frame(e, ev, a, o.engine)
  {
    hide Deliver, DoDetach, Restart, Substitute, Structured;
    var p, former := ev.pid, a.eventPid.value;
    var t0 := ResetSignal(e.tracees[p]);
    var t1 := ChangeState(t0, EventStop);
    StructuredKeyed(e, None);
    assert Keyed(e, p);
    if t0.life.detachAtNextStop {
      DetachKeepsPid(t0, a);
      KeepKeeps(e, p, t0, DoDetach(t0, a.detached), None);
    } else {
      SubstituteKeeps(e, p, t1, former, a);
      var (e1, r) := Substitute(e, p, t1, former, a);
      StructuredKeyed(e1, None);
      if r.Ok?() {
        var notice := NewExecutionContext(Some(former));
        var r1 := Deliver(r.tracee, notice, a);
        DeliverKeepsPid(r.tracee, notice, a);
        RestartKeepsPid(r1.tracee, a);
        KeepKeeps(e1, p, r.tracee, if r1.Ok?() then Restart(r1.tracee, a) else r1, None);
      } else {
        KeepKeeps(e1, p, r.tracee, r, None);
      }
    }
  }

  lemma CleanupKeeps(e: Engine, p: Pid, a: Answers)
    requires Structured(e, None)
    ensures var o := Cleanup(e, p, a);
      && Structured(o.engine, None)
      && o.engine.tracees.Keys <= e.tracees.Keys
      && o.engine.stash == e.stash && o.engine.newly == e.newly
  {
    hide DoDetach;
    if p in e.tracees { DetachKeepsPid(e.tracees[p], a.(detached := a.cleanedUp)); }
  }

  lemma OneKeeps(e: Engine, ev: WaitEvent, a: Answers, but: Option<Pid>)
    requires Structured(e, but) && ev.pid in e.tracees && PlausibleTask(e, ev, a)
    requires but == None || (but == Some(ev.pid) && JustRekeyed(ev, a) && NoSubstitution(e, ev, a))
    ensures var (e1, v) := HandleOne(e, ev, a);
      && Structured(e1, None)
      && (if CreatorKnown(e, ev, a) then Frame(e, ev, a, e1) else v == Escaped(NullCall))
  {
    hide Structured, HandleKnown, Cleanup, Frame, PlausibleTask, CreatorKnown, Births;
    if !CreatorKnown(e, ev, a) {
      CreatorOfTask(e, ev, a);
      UnknownCreatorKeeps(e, ev, a);
    } else {
      if NoSubstitution(e, ev, a) {
        KnownKeeps(e, ev, a, but);
      } else {
        SubstitutionHere(e, ev, a);
        SubstitutionKeeps(e, ev, a);
      }
      var o := HandleKnown(e, ev, a);
      CleanupKeeps(o.engine, ev.pid, a);
      FrameThenLess(e, ev, a, o.engine, Cleanup(o.engine, ev.pid, a).engine);
    }
  }

  lemma CreatorOfTask(e: Engine, ev: WaitEvent, a: Answers)
    requires ev.pid in e.tracees && !CreatorKnown(e, ev, a)
    ensures IsNewTaskEvent(ev.status) && !JustRekeyed(ev, a)
  {}

  lemma SubstitutionHere(e: Engine, ev: WaitEvent, a: Answers)
    requires ev.pid in e.tracees && !NoSubstitution(e, ev, a)
    ensures IsExecEvent(ev.status) && HandleKnown(e, ev, a) == HandleExec(e, ev.pid, a)
  {
    hide HandleExec, HandleNewTask, ProcessEvent;
  }

  lemma FrameThenLess(e: Engine, ev: WaitEvent, a: Answers, e1: Engine, e2: Engine)
    requires ev.pid in e.tracees && Frame(e, ev, a, e1)
    requires e2.tracees.Keys <= e1.tracees.Keys && e2.stash == e1.stash && e2.newly == e1.newly
    ensures Frame(e, ev, a, e2)
  {}

  // ----- all runs of the engine

  /** No pid is both traced and has its stop event stored, but for some. */
  ghost predicate Apart(e: Engine, left: set<Pid>) {
    forall p | p in e.stash && p in e.tracees :: p in left
  }

  /** Between two events: nothing is half done. A map stores at most one event
      per pid. */
  ghost predicate AtRest(e: Engine) { Structured(e, None) && e.newly == None }

  ghost predicate Resting(e: Engine, left: set<Pid>) { AtRest(e) && Apart(e, left) }

  /** One round of trace(): an event, and the answers given while it is handled,
      handled again after RETRY, and while a stored event is handled after it. */
  datatype Round = Round(ev: WaitEvent, answers: Answers, again: Answers, delayed: Answers)

  function Traced(e: Engine, r: Round): (Engine, Verdict) { TraceOne(e, r.ev, r.answers, r.again, r.delayed) }

  /** A pid that shows up through execve() was a running main thread, so it has
      no stop stored; and asked twice, the kernel does not change its answer. */
  predicate PlausibleRound(e: Engine, r: Round) {
    if r.ev.pid in e.tracees then PlausibleTask(e, r.ev, r.answers)
    else IsExecEvent(r.ev.status) ==>
      r.ev.pid !in e.stash && (r.again.eventPid.Ok? ==> r.again.eventPid == r.answers.eventPid)
  }

  /** The new task of an event in whose callback the consumer's detach of the
      creator was refused: the exception leaves the engine without the marker. */
  function RefusedWith(e: Engine, ev: WaitEvent, a: Answers): set<Pid>
    requires ev.pid in e.tracees
  {
    if DueOf(e, ev, a).None? then Births(e, ev, a) else {}
  }

  function RefusedIn(e: Engine, r: Round): set<Pid> {
    if r.ev.pid in e.tracees then RefusedWith(e, r.ev, r.answers) else {}
  }

  /** At most the new task has its stop stored and is traced. */
  ghost predicate ApartButNew(e: Engine, left: set<Pid>) {
    forall p | p in e.stash && p in e.tracees :: e.newly == Some(p) || p in left
  }

  lemma DelayedKeeps(e: Engine, a: Answers, left: set<Pid>)
    requires Structured(e, None) && ApartButNew(e, left)
    ensures var (e1, v) := HandleDelayed(e, a);
      && Structured(e1, None)
      && (!v.Escaped? ==> Resting(e1, left))
      && (v == Decided(Handled) || v.Escaped?)
  {
    hide HandleOne, Identities, AllKeyed;
    var e0 := e.(newly := None);
    StructuredAlike(e, e0);
    if e.newly.Some? && e.newly.value in e.stash {
      var ev := WaitEvent(e.newly.value, e.stash[e.newly.value]);
      if ev.pid in e.tracees {
        StopBearsNothing(e0, ev, a);
        OneKeeps(e0, ev, a, None);
        var (e1, v) := HandleOne(e0, ev, a);
        StructuredUnstash(e1, ev.pid);
        ApartOnceGone(e0, e1, ev.pid, left);
      } else {
        StoredAgain(e0, ev, a);
        StructuredUnstash(e0, ev.pid);
      }
    }
  }

  lemma StopBearsNothing(e: Engine, ev: WaitEvent, a: Answers)
    requires ev.pid in e.tracees && IsStopEvent(ev.status)
    ensures Births(e, ev, a) == {} && DueOf(e, ev, a) == None && CreatorKnown(e, ev, a)
  {}

  lemma ApartOnceGone(e: Engine, e1: Engine, p: Pid, left: set<Pid>)
    requires forall q | q in e.stash && q in e.tracees :: q == p || q in left
    requires e1.stash == e.stash && e1.tracees.Keys <= e.tracees.Keys
    ensures Apart(e1.(stash := e1.stash - {p}), left)
  {}

  lemma StoredAgain(e: Engine, ev: WaitEvent, a: Answers)
    requires ev.pid !in e.tracees && IsStopEvent(ev.status)
    ensures HandleOne(e, ev, a) == (e, Decided(Store))
  {}

  lemma StructuredAlike(e: Engine, e1: Engine)
    requires Structured(e, None) && e1 == e.(newly := e1.newly)
    ensures Structured(e1, None)
  {}

  lemma StructuredUnstash(e: Engine, p: Pid)
    requires Structured(e, None)
    ensures Structured(e.(stash := e.stash - {p}), None)
  {}

  /** An event for a known pid, up to and including a stored event after it. */
  lemma KnownEventRests(e: Engine, ev: WaitEvent, a: Answers, delayed: Answers, but: Option<Pid>, left: set<Pid>)
    requires Structured(e, but) && e.newly == None && Apart(e, left)
    requires ev.pid in e.tracees && PlausibleTask(e, ev, a)
    requires but == None || (but == Some(ev.pid) && JustRekeyed(ev, a) && NoSubstitution(e, ev, a))
    ensures var (e1, v) := HandleEvent(e, ev, a, delayed);
      && Structured(e1, None)
      && (!v.Escaped? ==> Resting(e1, left + RefusedWith(e, ev, a)))
      && (v == Decided(Handled) || v.Escaped?)
  {
    hide Structured, HandleOne, HandleDelayed, Resting, RefusedWith;
    OneKeeps(e, ev, a, but);
    var (e1, v) := HandleOne(e, ev, a);
    KnownIsHandled(e, ev, a);
    if !v.Escaped? {
      assert ApartButNew(e1, left + RefusedWith(e, ev, a)) by {
        hide PlausibleTask;
        BirthsAreNew(e, ev, a, e1, left);
      }
      DelayedKeeps(e1, delayed, left + RefusedWith(e, ev, a));
    }
  }

  lemma BirthsAreNew(e: Engine, ev: WaitEvent, a: Answers, e1: Engine, left: set<Pid>)
    requires e.newly == None && Apart(e, left) && ev.pid in e.tracees && Frame(e, ev, a, e1)
    ensures ApartButNew(e1, left + RefusedWith(e, ev, a))
  {
    hide TellsOf;
  }

  lemma KnownIsHandled(e: Engine, ev: WaitEvent, a: Answers)
    requires ev.pid in e.tracees
    ensures var v := HandleOne(e, ev, a).1; v == Decided(Handled) || v.Escaped?
  {
    hide HandleKnown, Cleanup;
  }

  function Objects(e: Engine): set<Tracee> { set p | p in e.tracees :: e.tracees[p] }

  /** tryUpdateTraceePID() moves one object to another key and no more. */
  lemma RekeyKeepsObjects(e: Engine, former: Pid, p: Pid)
    requires former in e.tracees && p !in e.tracees
    ensures var e1 := Rekey(e, former, p);
      && Objects(e1) == Objects(e)
      && e1.tracees.Keys == e.tracees.Keys - {former} + {p}
      && e1.tracees[p] == e.tracees[former]
      && (forall q | q in e.tracees && q != former :: q in e1.tracees && e1.tracees[q] == e.tracees[q])
      && e1 == e.(tracees := e1.tracees)
  {
    var e1 := Rekey(e, former, p);
    forall q | q in e.tracees ensures e.tracees[q] in Objects(e1) {
      var q1 := if q == former then p else q;
      assert q1 in e1.tracees && e1.tracees[q1] == e.tracees[q];
    }
  }

  lemma RekeyKeeps(e: Engine, former: Pid, p: Pid)
    requires Structured(e, None) && former in e.tracees && p !in e.tracees
    ensures Structured(Rekey(e, former, p), Some(p))
  {
    var e1 := Rekey(e, former, p);
    forall q | q in e1.tracees && q != p ensures Keyed(e1, q) { assert Keyed(e, q); }
  }

  /** RETRY is decided only for a pid that became known thereby. */
  lemma RetryMeansKnown(e: Engine, ev: WaitEvent, a: Answers, delayed: Answers)
    ensures var (e1, v) := HandleEvent(e, ev, a, delayed);
      v == Decided(Retry) ==>
        && ev.pid !in e.tracees && ev.pid in e1.tracees && IsExecEvent(ev.status)
        && a.eventPid.Ok? && a.eventPid.value in e.tracees
        && e1 == Rekey(e, a.eventPid.value, ev.pid)
  {
    hide HandleKnown, Cleanup;
    if ev.pid in e.tracees { KnownIsHandled(e, ev, a); }
  }

  /** So trace() handles no event a third time, whatever the kernel answers. */
  lemma AtMostTwoPasses(e: Engine, r: Round)
    ensures Traced(e, r).1 != Decided(Retry)
  {
    hide HandleEvent, Rekey;
    RetryMeansKnown(e, r.ev, r.answers, r.delayed);
    RetryMeansKnown(HandleEvent(e, r.ev, r.answers, r.delayed).0, r.ev, r.again, r.delayed);
  }

  lemma RoundRests(e: Engine, r: Round, left: set<Pid>)
    requires Resting(e, left) && PlausibleRound(e, r)
    ensures var (e1, v) := Traced(e, r);
      && Structured(e1, None)
      && (!v.Escaped? ==> Resting(e1, left + RefusedIn(e, r)))
  {
    hide HandleEvent, Structured, Rekey, HandleOne, HandleDelayed, RefusedWith;
    var ev := r.ev;
    if ev.pid in e.tracees {
      KnownEventRests(e, ev, r.answers, r.delayed, None, left);
    } else {
      assert left + RefusedIn(e, r) == left;
      UnknownEvent(e, ev, r.answers, r.delayed);
      RetryMeansKnown(e, ev, r.answers, r.delayed);
      var (e1, v) := HandleEvent(e, ev, r.answers, r.delayed);
      if v == Decided(Retry) {
        RekeyKeeps(e, r.answers.eventPid.value, ev.pid);
        RekeyKeepsObjects(e, r.answers.eventPid.value, ev.pid);
        NoTaskInExec(e1, ev, r.again);
        KnownEventRests(e1, ev, r.again, r.delayed, Some(ev.pid), left);
        assert left + RefusedWith(e1, ev, r.again) == left;
      } else if v == Decided(Store) && ev.pid !in e.stash {
        StashRests(e, ev, left);
      }
    }
  }

  lemma NoTaskInExec(e: Engine, ev: WaitEvent, a: Answers)
    requires IsExecEvent(ev.status) && ev.pid in e.tracees
    ensures PlausibleTask(e, ev, a) && CreatorKnown(e, ev, a) && RefusedWith(e, ev, a) == {}
  {}

  lemma UnknownEvent(e: Engine, ev: WaitEvent, a: Answers, delayed: Answers)
    requires ev.pid !in e.tracees
    ensures var (e1, v) := HandleEvent(e, ev, a, delayed);
      && (v != Decided(Retry) ==> e1 == e)
      && (v == Decided(Store) ==> IsStopEvent(ev.status))
      && v != Decided(Handled)
  {}

  lemma StashRests(e: Engine, ev: WaitEvent, left: set<Pid>)
    requires Resting(e, left) && IsStopEvent(ev.status) && ev.pid !in e.tracees
    ensures Resting(e.(stash := e.stash[ev.pid := ev.status]), left)
  {}

  function TraceAll(e: Engine, rounds: seq<Round>): Engine
    decreases |rounds|
  {
    if rounds == [] then e else TraceAll(Traced(e, rounds[0]).0, rounds[1..])
  }

  /** Rounds that the kernel may cause and no exception leaves trace() in. */
  predicate PlausibleRounds(e: Engine, rounds: seq<Round>)
    decreases |rounds|
  {
    rounds == [] ||
    (PlausibleRound(e, rounds[0]) && !Traced(e, rounds[0]).1.Escaped?
     && PlausibleRounds(Traced(e, rounds[0]).0, rounds[1..]))
  }

  /** The engine when trace() begins: some tracees were added, nothing happened. */
  ghost predicate Fresh(e: Engine) {
    && e.stash == map[] && e.newly == None && e.retired == map[] && e.quiet == {} && e.exitSeen == {}
    && (forall p | p in e.tracees ::
          e.tracees[p].id < e.nextId && e.tracees[p] == Attaching(e.tracees[p].id, p, e.tracees[p].isChild))
    && (forall p, q | p in e.tracees && q in e.tracees && p != q :: e.tracees[p].id != e.tracees[q].id)
  }

  /** The new tasks for which that happened in a run. */
  function AllRefused(e: Engine, rounds: seq<Round>): set<Pid>
    decreases |rounds|
  {
    if rounds == [] then {} else RefusedIn(e, rounds[0]) + AllRefused(Traced(e, rounds[0]).0, rounds[1..])
  }

  lemma {:induction false} RunRests(e: Engine, rounds: seq<Round>, left: set<Pid>)
    requires Resting(e, left) && PlausibleRounds(e, rounds)
    ensures Resting(TraceAll(e, rounds), left + AllRefused(e, rounds))
    decreases |rounds|
  {
    if rounds == [] {
      assert left + {} == left;
    } else {
      hide Resting, Traced, PlausibleRound, RefusedIn;
      RoundRests(e, rounds[0], left);
      var (e1, refused) := (Traced(e, rounds[0]).0, RefusedIn(e, rounds[0]));
      RunRests(e1, rounds[1..], left + refused);
      assert left + refused + AllRefused(e1, rounds[1..]) == left + (refused + AllRefused(e1, rounds[1..]));
    }
  }

  lemma FreshRests(e: Engine)
    requires Fresh(e)
    ensures Resting(e, {})
  {}

  /** Main result on structure, for every interleaving of events, execve() of
      any thread included: between two events every tracee that can report is
      keyed under its own pid, no object is held twice, and no pid is both
      stashed and traced, but for new tasks in whose callback the detach of
      their creator was refused. */
  lemma StructureInEveryRun(e: Engine, rounds: seq<Round>)
    requires Fresh(e) && PlausibleRounds(e, rounds)
    ensures var e1 := TraceAll(e, rounds);
      && AllKeyed(e1, None) && Identities(e1) && OnlyStopsStashed(e1)
      && e1.newly == None && Apart(e1, AllRefused(e, rounds))
  {
    FreshRests(e);
    RunRests(e, rounds, {});
  }

  /** Also when an exception leaves trace() in the middle of an event: what is in
      the maps then is in order. */
  lemma StructureAfterException(e: Engine, rounds: seq<Round>, last: Round)
    requires Fresh(e) && PlausibleRounds(e, rounds) && PlausibleRound(TraceAll(e, rounds), last)
    ensures var e1 := Traced(TraceAll(e, rounds), last).0;
      AllKeyed(e1, None) && Identities(e1) && OnlyStopsStashed(e1)
  {
    hide Traced, PlausibleRound;
    FreshRests(e);
    RunRests(e, rounds, {});
    RoundRests(TraceAll(e, rounds), last, {} + AllRefused(e, rounds));
  }
}
