// The supervisor of many tracees (src/Engine.cxx) as a state machine over the
// wait events of all of them.
module EngineModel {
  import opened Common
  import opened TraceeModel

  /** The first three components are the source's. The others record what is
      needed to speak about runs: the objects that left the map, the next free
      identity, the objects the kernel says nothing more about than their death
      (an exception left them un-restarted, they were detached, or they died),
      and those whose PTRACE_EVENT_EXIT was seen. */
  datatype Engine = Engine(
    tracees: map<Pid, Tracee>,     // m_tracees
    stash: map<Pid, WaitStatus>,   // m_unknown_events
    newly: Option<Pid>,            // m_newly_attached_pid
    retired: map<nat, Tracee>,
    nextId: nat,
    quiet: set<nat>,
    exitSeen: set<nat>)

  datatype WaitEvent = WaitEvent(pid: Pid, status: WaitStatus)

  datatype Decision = Retry | Drop | Store | Handled

  /** handleEvent() returns a decision or is left by an exception. */
  datatype Verdict = Decided(decision: Decision) | Escaped(fault: Fault)

  datatype Outcome = Outcome(engine: Engine, fault: Option<Fault>)

  function Quieted(quiet: set<nat>, r: Result): set<nat> {
    if r.Ok?() && Followed(r.tracee) then quiet else quiet + {r.tracee.id}
  }

  /** Keep the state a handler left a tracee in, fault or not. */
  function Keep(e: Engine, p: Pid, r: Result): Engine {
    e.(tracees := e.tracees[p := r.tracee], quiet := Quieted(e.quiet, r))
  }

  function Own(e: Engine, p: Pid, r: Result): Outcome { Outcome(Keep(e, p, r), r.fault) }

  function Retire(e: Engine, p: Pid): Engine
    requires p in e.tracees
  {
    e.(tracees := e.tracees - {p}, retired := e.retired[e.tracees[p].id := e.tracees[p]])
  }

  /** checkCleanupTracee(); a detached child process stays until it died. */
  function Cleanup(e: Engine, p: Pid, a: Answers): Outcome {
    if p !in e.tracees then Outcome(e, None)
    else
      var t := e.tracees[p];
      if t.life.state == Detached then Outcome(if t.isChild then e else Retire(e, p), None)
      else if t.life.state == Dead then
        var r := DoDetach(t, a.cleanedUp);
        if !r.Ok?() then Own(e, p, r) else Outcome(Retire(Keep(e, p, r), p), None)
      else Outcome(e, None)
  }

  // ----- new tasks

  /** Enter a tracee for a new task, unless its pid is already traced. */
  function Admit(e: Engine, child: Pid): Engine {
    if child in e.tracees then e
    else e.(tracees := e.tracees[child := Attaching(e.nextId, child, false)], nextId := e.nextId + 1)
  }

  /** newChildProcess() for the child: announced, and perhaps rejected. */
  function Announce(t: Tracee, a: Answers): Result {
    var t1 := t.(log := t.log + [Announced]);
    if a.consumerRejects then Detach(t1, a) else Done(t1)
  }

  /** hasClonedThread() looks into the arguments of a clone3() without asking
      whether they could be read. */
  predicate MissesArgs(t: Tracee, a: Answers) { t.calls.current == Some(Clone3) && !a.cloneArgs }

  function AutoAttach(e: Engine, p: Pid, t: Tracee, child: Pid, a: Answers): Outcome {
    var e1 := Admit(e, child);
    if MissesArgs(t, a) then Own(e1, p, Threw(t, NullCall))
    else
      var r := Deliver(t, NewChildProcess(child), a);
      var c := Announce(e1.tracees[child], a);
      var e2 := Keep(e1, child, c);
      if !r.Ok?() then Own(e2, p, r)
      else if !c.Ok?() then Own(e2, p, Threw(r.tracee, c.fault.value))
      else FinishAttach(e2, p, r.tracee, child, a)
  }

  function FinishAttach(e: Engine, p: Pid, t: Tracee, child: Pid, a: Answers): Outcome {
    var o := Cleanup(e, child, a);
    if o.fault.Some? then Own(o.engine, p, Threw(t, o.fault.value))
    else Own(o.engine.(newly := Some(child)), p, Restart(t, a))
  }

  function CompleteVfork(e: Engine, p: Pid, t: Tracee, child: Pid, a: Answers): Outcome {
    var r := Deliver(t, VforkComplete(child in e.tracees), a);
    if !r.Ok?() then Own(e, p, r)
    else Own(e.(newly := Some(child)), p, Restart(r.tracee, a))
  }

  function HandleNewTask(e: Engine, p: Pid, kind: NewTask, a: Answers): Outcome
    requires p in e.tracees
  {
    var t0 := ResetSignal(e.tracees[p]);
    if t0.life.detachAtNextStop then Own(e, p, DoDetach(t0, a.detached))
    else
      var t1 := ChangeState(t0, EventStop);
      if a.eventPid.Err? then Own(e, p, Threw(t1, a.eventPid.fault))
      else if t1.calls.current.None? then Own(e, p, Threw(t1, NullCall))
      else if kind == VforkDone then CompleteVfork(e, p, t1, a.eventPid.value, a)
      else AutoAttach(e, p, t1, a.eventPid.value, a)
  }

  // ----- execve

  /** handleSubstitution() and syncState(): the exec'ing thread continues as
      the main thread's tracee object. */
  function Substitute(e: Engine, p: Pid, main: Tracee, former: Pid, a: Answers): (Engine, Result)
    requires former in e.tracees
  {
    var d := Detach(e.tracees[former], a.(detached := a.formerReleased, interrupted := a.formerReleased));
    if !d.Ok?() then (Keep(e, former, d), Threw(main, d.fault.value))
    else
      var gone := ChangeState(d.tracee, Dead);
      (e.(tracees := e.tracees - {former}, retired := e.retired[gone.id := gone]),
       Done(SyncState(main, d.tracee)))
  }

  function SyncAfterExec(e: Engine, p: Pid, t: Tracee, former: Pid, a: Answers): (Engine, Result) {
    if former == p then (e, Done(t))
    else if former in e.tracees then Substitute(e, p, t, former, a)
    else (e, Done(SetPid(t, p)))
  }

  /** The rest of an execve() event after a result so far: the notice, and the
      restart. */
  function Finished(r: Result, notice: Callback, a: Answers): Result {
    if !r.Ok?() then r
    else
      var r1 := Deliver(r.tracee, notice, a);
      if r1.Ok?() then Restart(r1.tracee, a) else r1
  }

  function HandleExec(e: Engine, p: Pid, a: Answers): Outcome
    requires p in e.tracees
  {
    var t0 := ResetSignal(e.tracees[p]);
    if t0.life.detachAtNextStop then Own(e, p, DoDetach(t0, a.detached))
    else
      var t1 := ChangeState(t0, EventStop);
      if a.eventPid.Err? then Own(e, p, Threw(t1, a.eventPid.fault))
      else
        var former := a.eventPid.value;
        var (e1, r) := SyncAfterExec(e, p, t1, former, a);
        Own(e1, p, Finished(r, NewExecutionContext(if former == p then None else Some(former)), a))
  }

  // ----- one event

  /** Tracee::processEvent() as the engine calls it. */
  function HandleKnown(e: Engine, ev: WaitEvent, a: Answers): Outcome
    requires ev.pid in e.tracees
  {
    match ev.status
    case EventTrap(NewTaskEvent(kind), _) => HandleNewTask(e, ev.pid, kind, a)
    case EventTrap(ExecEvent, _) => HandleExec(e, ev.pid, a)
    case _ =>
      var t := e.tracees[ev.pid];
      var e1 := if IsExitEvent(ev.status) then e.(exitSeen := e.exitSeen + {t.id}) else e;
      Own(e1, ev.pid, ProcessEvent(t, ev.status, a))
  }

  function HandleUnknown(e: Engine, ev: WaitEvent, a: Answers): (Engine, Verdict)
    requires ev.pid !in e.tracees
  {
    match ev.status
    case EventTrap(ExecEvent, _) =>
      if a.eventPid.Err? then (e, Escaped(a.eventPid.fault))
      else if a.eventPid.value in e.tracees then (Rekey(e, a.eventPid.value, ev.pid), Decided(Retry))
      else (e, Decided(Drop))
    case EventTrap(StopEvent, _) => (e, Decided(Store))
    case _ => (e, Decided(Drop))
  }

  /** tryUpdateTraceePID(): the object stays, under another key. */
  function Rekey(e: Engine, former: Pid, p: Pid): Engine
    requires former in e.tracees
  {
    e.(tracees := (e.tracees - {former})[p := e.tracees[former]])
  }

  predicate IsApiError(f: Fault) { f == Gone || f == Refused }

  /** handleEvent() up to the look at delayed events. */
  function HandleOne(e: Engine, ev: WaitEvent, a: Answers): (Engine, Verdict) {
    if ev.pid !in e.tracees then HandleUnknown(e, ev, a)
    else
      var o := HandleKnown(e, ev, a);
      if o.fault.Some? && !IsApiError(o.fault.value) then (o.engine, Escaped(o.fault.value))
      else
        var c := Cleanup(o.engine, ev.pid, a);
        (c.engine, if c.fault.Some? then Escaped(c.fault.value) else Decided(Handled))
  }

  /** checkUnknownEvents(): deliver the event that came before its creation
      event. The answers are those given while it is handled. */
  function HandleDelayed(e: Engine, a: Answers): (Engine, Verdict) {
    if e.newly.None? then (e, Decided(Handled))
    else
      var p, e1 := e.newly.value, e.(newly := None);
      if p !in e1.stash then (e1, Decided(Handled))
      else
        var (e2, v) := HandleOne(e1, WaitEvent(p, e1.stash[p]), a);
        if v.Escaped? then (e2, v) else (e2.(stash := e2.stash - {p}), Decided(Handled))
  }

  function HandleEvent(e: Engine, ev: WaitEvent, a: Answers, delayed: Answers): (Engine, Verdict) {
    var (e1, v) := HandleOne(e, ev, a);
    if v != Decided(Handled) then (e1, v) else HandleDelayed(e1, delayed)
  }

  /** What trace() does with a decision other than RETRY; the map insertion
      does not replace an event that is already stored. */
  function Settle(e: Engine, ev: WaitEvent, v: Verdict): Engine {
    if v == Decided(Store) && ev.pid !in e.stash then e.(stash := e.stash[ev.pid := ev.status]) else e
  }

  /** One round of the trace() loop: an event, answered again after RETRY. */
  function TraceOne(e: Engine, ev: WaitEvent, a: Answers, again: Answers, delayed: Answers): (Engine, Verdict) {
    var (e1, v1) := HandleEvent(e, ev, a, delayed);
    if v1 != Decided(Retry) then (Settle(e1, ev, v1), v1)
    else
      var (e2, v2) := HandleEvent(e1, ev, again, delayed);
      (Settle(e2, ev, v2), v2)
  }
}
