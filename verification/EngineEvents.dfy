// Two events that involve several tracees at once: the birth of a new task,
// whose first stop may come too early, and the execve() of one of many threads.
module EngineEvents {
  import opened Common
  import opened TraceeModel
  import opened EngineModel
  import opened TraceeRuns
  import opened EngineRuns
  import opened EngineCallbacks

  // ----- a first stop before or after the creation event

  predicate Creates(e: Engine, creation: WaitEvent, a: Answers, child: Pid) {
    && creation.pid in e.tracees && child !in e.tracees
    && IsNewTaskEvent(creation.status) && !CompletesVfork(creation.status)
    && a.eventPid == Ok(child)
    && e.tracees[creation.pid].calls.current.Some?
    && (e.tracees[creation.pid].calls.current == Some(Clone3) ==> a.cloneArgs)
  }

  lemma StashIsBystander(e: Engine, ev: WaitEvent, a: Answers, stash: map<Pid, WaitStatus>)
    requires ev.pid in e.tracees && NoSubstitution(e, ev, a) && !CompletesVfork(ev.status)
    requires PlausibleTask(e, ev, a) && CreatorKnown(e, ev, a)
    ensures var (e1, v) := HandleOne(e, ev, a);
      && HandleOne(e.(stash := stash), ev, a) == (e1.(stash := stash), v)
      && e1.stash == e.stash
  {
    hide HandleKnown, Cleanup;
    KnownBystander(e, ev, a, stash);
    CleanupBystander(HandleKnown(e, ev, a).engine, ev.pid, a, stash);
  }

  lemma KnownBystander(e: Engine, ev: WaitEvent, a: Answers, stash: map<Pid, WaitStatus>)
    requires ev.pid in e.tracees && NoSubstitution(e, ev, a) && !CompletesVfork(ev.status)
    requires PlausibleTask(e, ev, a) && CreatorKnown(e, ev, a)
    ensures var o := HandleKnown(e, ev, a);
      && HandleKnown(e.(stash := stash), ev, a) == Outcome(o.engine.(stash := stash), o.fault)
      && o.engine.stash == e.stash
  {
    hide Process, HandleKnown, Newborn, TellsOf;
    var e0 := e.(stash := stash);
    KnownStep(e, ev, a);
    KnownStep(e0, ev, a);
    assert StepOf(e0, ev, a) == StepOf(e, ev, a);
    ToldAlone(e, ev, a, stash);
  }

  lemma ToldAlone(e: Engine, ev: WaitEvent, a: Answers, stash: map<Pid, WaitStatus>)
    requires ev.pid in e.tracees
    ensures TellsOf(e.(stash := stash), ev, a) == TellsOf(e, ev, a)
  {
    hide Deliver;
  }

  lemma CleanupBystander(e: Engine, p: Pid, a: Answers, stash: map<Pid, WaitStatus>)
    ensures var o := Cleanup(e, p, a);
      && Cleanup(e.(stash := stash), p, a) == Outcome(o.engine.(stash := stash), o.fault)
      && o.engine.stash == e.stash
  {
    hide DoDetach;
  }

  function EarlyThenCreated(e: Engine, stop: WaitEvent, creation: WaitEvent, a: Answers, d: Answers): (Engine, Verdict) {
    Traced(Traced(e, Round(stop, d, d, d)).0, Round(creation, a, a, d))
  }

  function CreatedThenStopped(e: Engine, stop: WaitEvent, creation: WaitEvent, a: Answers, d: Answers): (Engine, Verdict) {
    Traced(Traced(e, Round(creation, a, a, d)).0, Round(stop, d, d, d))
  }

  lemma EarlyIsStored(e: Engine, stop: WaitEvent, d: Answers)
    requires IsStopEvent(stop.status) && stop.pid !in e.tracees && stop.pid !in e.stash
    ensures Traced(e, Round(stop, d, d, d)) == (e.(stash := e.stash[stop.pid := stop.status]), Decided(Store))
  {}

  lemma StoppedAfter(e: Engine, stop: WaitEvent, d: Answers)
    requires IsStopEvent(stop.status) && stop.pid in e.tracees && e.newly == None
    ensures Traced(e, Round(stop, d, d, d)) == HandleOne(e, stop, d)
  {
    hide HandleOne;
    KnownIsHandled(e, stop, d);
    OneStopNewly(e, stop, d);
  }

  lemma OneStopNewly(e: Engine, stop: WaitEvent, d: Answers)
    requires IsStopEvent(stop.status) && stop.pid in e.tracees
    ensures HandleOne(e, stop, d).0.newly == e.newly
  {
    hide ProcessEvent, DoDetach;
  }

  /** Whether a new task's first stop comes before its creation event or after
      it makes no difference to anything: not to the tracees, not to what the
      consumer heard about each of them, not to what is left in the stash. */
  lemma EarlyStopMakesNoDifference(e: Engine, stop: WaitEvent, creation: WaitEvent, a: Answers, d: Answers)
    requires AtRest(e) && IsStopEvent(stop.status) && Creates(e, creation, a, stop.pid) && stop.pid !in e.stash
    requires !RefusedInCallback(a)
    requires !EarlyThenCreated(e, stop, creation, a, d).1.Escaped?
    requires !CreatedThenStopped(e, stop, creation, a, d).1.Escaped?
    requires !Traced(e, Round(creation, a, a, d)).1.Escaped?
    ensures EarlyThenCreated(e, stop, creation, a, d).0 == CreatedThenStopped(e, stop, creation, a, d).0
  {
    hide HandleOne, Newborn, Besides;
    var c := stop.pid;
    EarlyIsStored(e, stop, d);
    var stash := e.stash[c := stop.status];
    assert PlausibleTask(e, creation, a) && CreatorKnown(e, creation, a);
    StashIsBystander(e, creation, a, stash);
    NewlyOnlyFromTasks(e, creation, a, None);
    var (e1, v) := HandleOne(e, creation, a);
    KnownIsHandled(e, creation, a);
    var e2 := e1.(newly := None);
    if e1.newly.Some? {
      NewbornWaits(e, creation, a);
      StashIsBystander(e2, stop, d, stash);
      OneStopNewly(e2, stop, d);
      StoppedAfter(e2, stop, d);
      assert (stash - {c}) == e.stash;
    } else {
      LeavingParent(e, creation, a);
      EarlyIsStored(e1, stop, d);
    }
  }

  lemma ToldUnlessRefused(e: Engine, ev: WaitEvent, a: Answers)
    requires ev.pid in e.tracees && !RefusedInCallback(a)
    ensures TellsOf(e, ev, a).Ok?()
  {}

  lemma LeavingParent(e: Engine, creation: WaitEvent, a: Answers)
    requires Structured(e, None) && creation.pid in e.tracees
    requires PlausibleTask(e, creation, a) && CreatorKnown(e, creation, a)
    requires NewTaskOf(e, creation, a).None?
    ensures HandleOne(e, creation, a).0.tracees.Keys <= e.tracees.Keys
  {
    hide HandleOne, Structured;
    OneKeeps(e, creation, a, None);
  }

  /** The consumer's callback left newChildProcess() with an exception before the
      engine noted whose stored stop is due. */
  lemma RefusedInNewChild(e: Engine, creation: WaitEvent, a: Answers, child: Pid)
    requires Creates(e, creation, a, child) && RefusedInCallback(a)
    requires var t := e.tracees[creation.pid];
      t.life.pid.Some? && Followed(t) && !t.life.detachAtNextStop
    ensures var (e1, v) := HandleOne(e, creation, a);
      && v == Decided(Handled)
      && child in e1.tracees && e1.stash == e.stash && e1.newly == e.newly
  {
    hide Newborn, Quieted, Restart, FinishAttach;
    NewbornIsFine(e.nextId, child, a);
  }

  /** So a stop that came early is left in the stash while its tracee is there,
      exactly if that happens. */
  lemma StrandedExactly(e: Engine, stop: WaitEvent, creation: WaitEvent, a: Answers, d: Answers)
    requires AtRest(e) && IsStopEvent(stop.status) && Creates(e, creation, a, stop.pid) && stop.pid !in e.stash
    requires e.tracees[creation.pid].id !in e.quiet && !e.tracees[creation.pid].life.detachAtNextStop
    requires !EarlyThenCreated(e, stop, creation, a, d).1.Escaped?
    ensures var e2 := EarlyThenCreated(e, stop, creation, a, d).0;
      stop.pid in e2.tracees && stop.pid in e2.stash <==> RefusedInCallback(a)
  {
    hide HandleOne, Structured;
    EarlyIsStored(e, stop, d);
    var e0 := Traced(e, Round(stop, d, d, d)).0;
    var left := set p | p in e.stash && p in e.tracees;
    StashRests(e, stop, left);
    if RefusedInCallback(a) {
      StructuredKeyed(e, None);
      assert Keyed(e, creation.pid);
      RefusedInNewChild(e0, creation, a, stop.pid);
    } else {
      assert PlausibleTask(e0, creation, a);
      ToldUnlessRefused(e0, creation, a);
      RoundRests(e0, Round(creation, a, a, d), left);
    }
  }

  /** The consumer rejects a tracee in newChildProcess() that is stopped. */
  lemma StoppedAnnounced(t: Tracee, a: Answers)
    requires Followed(t) && t.life.pid.Some? && t.life.state !in {Running, Unknown}
    ensures var r := Announce(t, a);
      && r.tracee.id == t.id && r.tracee.isChild == t.isChild && r.tracee.log == t.log + [Announced]
      && (r.Ok?() <==> !(a.consumerRejects && a.detached == RequestRefused))
      && (!r.Ok?() ==> r.fault == Some(Refused))
      && (r.tracee.life.state == Detached <==> a.consumerRejects && a.detached == Accepted)
      && (r.tracee.life.state == Dead <==> a.consumerRejects && a.detached == RequestGone)
  {}

  /** The new task's pid is that of a tracee: its object is not replaced but
      announced, and dropped at once if the consumer rejects it while it is
      stopped. If the kernel refuses that, the creator is left as it is, stopped,
      and no stored stop is looked for. */
  lemma KnownTaskIsAnnounced(e: Engine, creation: WaitEvent, a: Answers, child: Pid)
    requires creation.pid in e.tracees && child in e.tracees && child != creation.pid
    requires IsNewTaskEvent(creation.status) && !CompletesVfork(creation.status) && a.eventPid == Ok(child)
    requires var t := e.tracees[creation.pid];
      && t.calls.current.Some? && (t.calls.current == Some(Clone3) ==> a.cloneArgs)
      && !t.life.detachAtNextStop && !a.consumerDetaches && a.restarted.Ok?
    requires var c := e.tracees[child];
      Followed(c) && c.life.pid.Some? && c.life.state !in {Running, Unknown} && !c.isChild
    ensures var (e1, v) := HandleOne(e, creation, a);
      var (t, c) := (e.tracees[creation.pid], e.tracees[child]);
      var refused := a.consumerRejects
        && (a.detached == RequestRefused || (a.detached == RequestGone && a.cleanedUp == RequestRefused));
      && v == Decided(Handled)
      && creation.pid in e1.tracees && e1.tracees[creation.pid].log == t.log + [NewChildProcess(child)]
      && (child in e1.tracees <==> !a.consumerRejects || refused)
      && (child in e1.tracees ==> e1.tracees[child].id == c.id && e1.tracees[child].log == c.log + [Announced])
      && (refused ==> e1.newly == e.newly && e1.tracees[creation.pid].life.state == EventStop)
      && (!refused ==> e1.newly == Some(child))
  {
    hide Restart, Announce, Cleanup, Quieted, ChangeState;
    var (t, c) := (e.tracees[creation.pid], e.tracees[child]);
    var u := ChangeState(ResetSignal(t), EventStop);
    MovedToStop(ResetSignal(t));
    StoppedAnnounced(c, a);
    var told := u.(log := u.log + [NewChildProcess(child)]);
    CleanupOfOther(Keep(e, child, Announce(c, a)), child, a);
    RestartedQuietly(told, a);
    CleanupOfFollowed(HandleKnown(e, creation, a).engine, creation.pid, a);
  }

  lemma CleanupOfOther(e: Engine, p: Pid, a: Answers)
    requires p in e.tracees && !e.tracees[p].isChild
    ensures var (t, c) := (e.tracees[p], Cleanup(e, p, a));
      var refused := t.life.state == Dead && a.cleanedUp == RequestRefused;
      && c.fault == (if refused then Some(Refused) else None)
      && (p in c.engine.tracees <==> Followed(t) || refused)
      && (p in c.engine.tracees ==> c.engine.tracees[p].id == t.id && c.engine.tracees[p].log == t.log)
      && c.engine.tracees - {p} == e.tracees - {p} && c.engine.newly == e.newly
  {
    hide ChangeState, Forget;
  }

  lemma RestartedQuietly(t: Tracee, a: Answers)
    requires t.life.state == EventStop && a.restarted.Ok?
    ensures var r := Restart(t, a);
      r.Ok?() && r.tracee.log == t.log && Followed(r.tracee)
  {
    hide Deliver;
  }

  lemma NoticeFaults(t: Tracee, notice: Callback, a: Answers)
    ensures ProcessNotice(t, notice, a).fault != Some(NullCall)
  {
    hide Move;
  }

  lemma CleanupFaults(e: Engine, p: Pid, a: Answers)
    ensures Cleanup(e, p, a).fault in {None, Some(Refused)}
  {
    hide Move;
  }

  /** The creation event dereferences something that is not there exactly if the
      creator's current call is missing, or it is a clone3() whose arguments
      could not be read: the new task is entered by then, but the consumer is
      not told, and trace() is left. */
  lemma CreationFaultsExactly(e: Engine, creation: WaitEvent, a: Answers)
    requires creation.pid in e.tracees && IsNewTaskEvent(creation.status) && PlausibleTask(e, creation, a)
    ensures HandleOne(e, creation, a).1 == Escaped(NullCall) <==> !CreatorKnown(e, creation, a)
  {
    hide HandleKnown, Cleanup, ProcessNotice, Besides, Restart, PlausibleTask, CreatorKnown;
    if CreatorKnown(e, creation, a) {
      KnownStep(e, creation, a);
      NoticeFaults(Reporter(e, creation, a), NoticeOf(e, creation, a), a);
      CleanupFaults(HandleKnown(e, creation, a).engine, creation.pid, a);
    } else {
      UnknownCreator(e, creation, a);
    }
  }

  /** In particular for a clone3(): its creation event goes unreported exactly
      if its argument structure could not be read. */
  lemma UnreadArgsFault(e: Engine, creation: WaitEvent, a: Answers)
    requires creation.pid in e.tracees && PlausibleTask(e, creation, a)
    requires NewTaskOf(e, creation, a).Some? && !CompletesVfork(creation.status)
    requires e.tracees[creation.pid].calls.current == Some(Clone3)
    ensures var (e1, v) := HandleOne(e, creation, a);
      && (v == Escaped(NullCall) <==> !a.cloneArgs)
      && (!a.cloneArgs ==>
            && e1.tracees[creation.pid].log == e.tracees[creation.pid].log
            && a.eventPid.value in e1.tracees && e1.tracees[a.eventPid.value].log == [])
  {
    hide HandleOne, HandleKnown, ChangeState;
    CreationFaultsExactly(e, creation, a);
    if !a.cloneArgs { UnreadArgsEngine(e, creation, a); }
  }

  lemma UnreadArgsEngine(e: Engine, creation: WaitEvent, a: Answers)
    requires creation.pid in e.tracees && PlausibleTask(e, creation, a)
    requires NewTaskOf(e, creation, a).Some? && !CompletesVfork(creation.status)
    requires e.tracees[creation.pid].calls.current == Some(Clone3) && !a.cloneArgs
    ensures var e1 := HandleOne(e, creation, a).0;
      && creation.pid in e1.tracees && e1.tracees[creation.pid].log == e.tracees[creation.pid].log
      && a.eventPid.value in e1.tracees && e1.tracees[a.eventPid.value].log == []
  {
    hide HandleKnown, ChangeState;
    UnknownCreator(e, creation, a);
    MovedToStop(ResetSignal(e.tracees[creation.pid]));
  }

  /** What its first stop does to a new task: it is attached, or, if the
      consumer rejected it, released without another callback. */
  lemma FirstStop(id: nat, child: Pid, a: Answers, stop: WaitStatus, d: Answers)
    requires IsStopEvent(stop)
    ensures var t := Newborn(id, child, a).tracee;
      var r := ProcessEvent(t, stop, d);
      && r.tracee.id == id && !r.tracee.isChild
      && (a.consumerRejects ==> r == DoDetach(ResetSignal(t), d.detached))
      && (!a.consumerRejects && !d.consumerDetaches && d.registers.Ok? ==>
            && r.tracee.log == [Announced, Attached] && Followed(r.tracee)
            && r.tracee.life.pid == Some(child)
            && r.tracee.life.restartMode == Syscall
            && r.fault == (if d.restarted.Ok? then None else Some(d.restarted.fault)))
  {
    NewbornIsFine(id, child, a);
    assert [Announced] + [Attached] == [Announced, Attached];
  }

  lemma FirstStopHandled(e: Engine, id: nat, stop: WaitEvent, a: Answers, d: Answers)
    requires IsStopEvent(stop.status) && stop.pid in e.tracees
    requires e.tracees[stop.pid] == Newborn(id, stop.pid, a).tracee
    requires !HandleOne(e, stop, d).1.Escaped?
    ensures var e1 := HandleOne(e, stop, d).0;
      && e1.stash == e.stash && e1.newly == e.newly
      && (forall q | q in e.tracees && q != stop.pid :: q in e1.tracees && e1.tracees[q] == e.tracees[q])
      && (a.consumerRejects && d.detached != RequestRefused ==>
            stop.pid !in e1.tracees && id in e1.retired && e1.retired[id].log == [Announced])
      && (!a.consumerRejects && !d.consumerDetaches && d.registers.Ok? ==>
            stop.pid in e1.tracees && e1.tracees[stop.pid].id == id
            && e1.tracees[stop.pid].log == [Announced, Attached])
  {
    hide ProcessEvent, DoDetach, Newborn;
    FirstStop(id, stop.pid, a, stop.status, d);
    NewbornIsFine(id, stop.pid, a);
    var t := ResetSignal(Newborn(id, stop.pid, a).tracee);
    Released(t, d.detached);
    Released(ProcessEvent(Newborn(id, stop.pid, a).tracee, stop.status, d).tracee, d.cleanedUp);
  }

  lemma Released(t: Tracee, r: Request)
    ensures var d := DoDetach(t, r);
      && d.tracee.id == t.id && d.tracee.log == t.log && d.tracee.isChild == t.isChild
      && (d.Ok?() <==> r != RequestRefused)
      && (d.Ok?() ==> d.tracee.life.state == if r == Accepted then Detached else Dead)
  {}

  /** The stop of a new task is handled exactly once, right after the creation
      event, and the consumer hears newChildProcess() before anything else of
      the child; of a rejected child it hears nothing more. */
  lemma EarlyStopIsDelivered(e: Engine, stop: WaitEvent, creation: WaitEvent, a: Answers, d: Answers)
    requires AtRest(e) && IsStopEvent(stop.status)
    requires Creates(e, creation, a, stop.pid) && stop.pid !in e.stash
    requires !RefusedInCallback(a) && !e.tracees[creation.pid].life.detachAtNextStop
    requires !EarlyThenCreated(e, stop, creation, a, d).1.Escaped?
    ensures var e2, child, id := EarlyThenCreated(e, stop, creation, a, d).0, stop.pid, e.nextId;
      && e2.stash == e.stash
      && (a.consumerRejects && d.detached != RequestRefused ==>
            child !in e2.tracees && id in e2.retired && e2.retired[id].log == [Announced])
      && (!a.consumerRejects && !d.consumerDetaches && d.registers.Ok? ==>
            child in e2.tracees && e2.tracees[child].id == id && e2.tracees[child].log == [Announced, Attached])
  {
    hide HandleOne, Newborn, Besides;
    var c, stash := stop.pid, e.stash[stop.pid := stop.status];
    EarlyIsStored(e, stop, d);
    assert PlausibleTask(e, creation, a) && CreatorKnown(e, creation, a);
    StashIsBystander(e, creation, a, stash);
    NewlyOnlyFromTasks(e, creation, a, None);
    KnownIsHandled(e, creation, a);
    NewbornWaits(e, creation, a);
    var e2 := HandleOne(e, creation, a).0.(stash := stash, newly := None);
    FirstStopHandled(e2, e.nextId, stop, a, d);
    assert stash - {c} == e.stash;
  }

  /** All requests succeed, and the consumer detaches from nobody. */
  function Smoothly(child: Pid): Answers {
    Answers(Ok(SyscallInfo(NeitherStop, Other(0), X86_64, true, true, None)), Ok(()), Ok(()), Ok(()), Ok(()),
            Ok(SigCont), Ok(true), Ok(child), Ok((X86_64, Other(0))), Ok(()),
            Accepted, Accepted, Accepted, Accepted, true, false, false)
  }

  /** One tracee that runs inside a call. */
  function InsideCall(p: Pid, nr: SysNr): Engine {
    var t := Attaching(0, p, false);
    var l := t.life.(state := Running, prevState := SyscallEnterStop, waitForAttachStop := false, restartMode := Syscall);
    Engine(map[p := t.(life := l, calls := t.calls.(entered := true, current := Some(nr), count := 1))],
           map[], None, map[], 1, {}, {})
  }

  lemma ParentGoesOn(p: Pid, child: Pid, nr: SysNr)
    ensures var (t, a) := (InsideCall(p, nr).tracees[p], Smoothly(child));
      var r := ProcessNotice(t, NewChildProcess(child), a);
      && r.Ok?() && Followed(r.tracee) && r.tracee.log == [NewChildProcess(child)]
  {
    assert [] + [NewChildProcess(child)] == [NewChildProcess(child)];
  }

  lemma StopGoesThrough(e: Engine, id: nat, stop: WaitEvent, a: Answers, d: Answers)
    requires IsStopEvent(stop.status) && stop.pid in e.tracees
    requires e.tracees[stop.pid] == Newborn(id, stop.pid, a).tracee
    requires !a.consumerRejects && !d.consumerDetaches && d.registers.Ok? && d.restarted.Ok?
    ensures HandleOne(e, stop, d).1 == Decided(Handled) && HandleOne(e, stop, d).0.tracees.Keys == e.tracees.Keys
  {
    hide ProcessEvent, DoDetach, Newborn;
    FirstStop(id, stop.pid, a, stop.status, d);
  }

  lemma ForkHandled(e: Engine, p: Pid, child: Pid, nr: SysNr)
    requires p != child && e == InsideCall(p, nr).(stash := e.stash)
    ensures var creation := WaitEvent(p, EventTrap(NewTaskEvent(ViaFork), SigTrap));
      var (e1, v) := HandleOne(e, creation, Smoothly(child));
      && v == Decided(Handled) && e1.tracees.Keys == {p, child} && e1.stash == e.stash && e1.newly == Some(child)
      && e1.tracees[child] == Newborn(1, child, Smoothly(child)).tracee
      && e1.tracees[p].log == [NewChildProcess(child)]
  {
    hide ProcessNotice, Newborn, HandleNewTask, DoDetach;
    var creation := WaitEvent(p, EventTrap(NewTaskEvent(ViaFork), SigTrap));
    KnownStep(e, creation, Smoothly(child));
    ParentGoesOn(p, child, nr);
  }

  /** For instance: one process forks, and the child's stop comes first. */
  lemma ForkForExample(p: Pid, child: Pid, nr: SysNr)
    requires p != child
    ensures var e := InsideCall(p, nr);
      var stop := WaitEvent(child, EventTrap(StopEvent, SigTrap));
      var creation := WaitEvent(p, EventTrap(NewTaskEvent(ViaFork), SigTrap));
      var (e2, v) := EarlyThenCreated(e, stop, creation, Smoothly(child), Smoothly(child));
      && Resting(e, {}) && Creates(e, creation, Smoothly(child), child) && v == Decided(Handled)
      && e2.tracees.Keys == {p, child} && e2.stash == map[]
      && e2.tracees[p].log == [NewChildProcess(child)] && e2.tracees[child].log == [Announced, Attached]
  {
    hide HandleOne, Newborn, HandleKnown;
    var (e, a) := (InsideCall(p, nr), Smoothly(child));
    var stop := WaitEvent(child, EventTrap(StopEvent, SigTrap));
    var creation := WaitEvent(p, EventTrap(NewTaskEvent(ViaFork), SigTrap));
    EarlyIsStored(e, stop, a);
    var e0 := e.(stash := map[child := stop.status]);
    assert e.stash[child := stop.status] == e0.stash;
    ForkHandled(e0, p, child, nr);
    var e1 := HandleOne(e0, creation, a).0.(newly := None);
    StopGoesThrough(e1, 1, stop, a, a);
    FirstStopHandled(e1, 1, stop, a, a);
    assert e0.stash - {child} == map[];
  }

  // ----- execve() by a thread other than the main thread

  /** Both the main thread and the exec'ing thread are traced. */
  predicate Substitutes(e: Engine, exec: WaitEvent, a: Answers) {
    && exec.pid in e.tracees && IsExecEvent(exec.status) && a.eventPid.Ok?
    && a.eventPid.value != exec.pid && a.eventPid.value in e.tracees
    && !e.tracees[exec.pid].life.detachAtNextStop
  }

  /** What the exec'ing thread's own object goes through. */
  function Release(e: Engine, exec: WaitEvent, a: Answers): Result
    requires Substitutes(e, exec, a)
  {
    Detach(e.tracees[a.eventPid.value], a.(detached := a.formerReleased, interrupted := a.formerReleased))
  }

  /** What the surviving object is like when the consumer is told. */
  function Survivor(e: Engine, exec: WaitEvent, a: Answers): Tracee
    requires Substitutes(e, exec, a)
  {
    SyncState(ChangeState(ResetSignal(e.tracees[exec.pid]), EventStop), e.tracees[a.eventPid.value])
  }

  /** The object that was under a pid, now there or retired. */
  ghost predicate Ends(e: Engine, p: Pid, id: nat, log: seq<Callback>, calls: Calls) {
    && (p in e.tracees || id in e.retired)
    && var t := if p in e.tracees then e.tracees[p] else e.retired[id];
       t.id == id && t.log == log && SameCalls(calls, t.calls)
  }

  lemma SubstituteStep(e: Engine, exec: WaitEvent, a: Answers)
    requires Substitutes(e, exec, a)
    ensures var (p, former) := (exec.pid, a.eventPid.value);
      var t := ChangeState(ResetSignal(e.tracees[p]), EventStop);
      var s := Substitute(e, p, t, former, a);
      && s.0.stash == e.stash && s.0.newly == e.newly
      && (if Release(e, exec, a).Ok?() then
            && s.1 == Done(Survivor(e, exec, a))
            && s.0.tracees == e.tracees - {former}
            && s.0.retired.Keys == e.retired.Keys + {e.tracees[former].id}
            && s.0.retired[e.tracees[former].id].life.state == Dead
            && s.0.retired[e.tracees[former].id].log == e.tracees[former].log
          else
            && s.1 == Threw(t, Refused)
            && s.0.tracees == e.tracees[former := s.0.tracees[former]]
            && s.0.tracees[former].log == e.tracees[former].log && s.0.tracees[former].life.pid == None
            && e.tracees[former].id in s.0.quiet)
  {
    hide Detach;
    Refusal(e.tracees[a.eventPid.value], a.(detached := a.formerReleased, interrupted := a.formerReleased));
  }

  lemma Refusal(t: Tracee, a: Answers)
    ensures var r := Detach(t, a); !r.Ok?() ==> r.tracee.life.pid == None
  {
    hide ChangeState, Forget, DoDetach;
    RefusedDetach(t, a.detached);
  }

  lemma RefusedDetach(t: Tracee, r: Request)
    ensures !DoDetach(t, r).Ok?() ==> DoDetach(t, r).tracee.life.pid == None
  {
    hide ChangeState, Forget;
  }

  lemma FinishSays(t: Tracee, notice: Callback, a: Answers)
    requires t.life.state == EventStop
    ensures var r := Finished(Done(t), notice, a);
      && r.tracee.id == t.id && r.tracee.log == t.log + [notice] && SameCalls(t.calls, r.tracee.calls)
      && r.tracee.life.state != GroupStop
  {
    hide Move;
    NeverGroup(t, Running);
    NeverGroup(t, Detached);
    NeverGroup(t, Dead);
    NeverGroup(Deliver(t, notice, a).tracee, Running);
  }

  lemma NeverGroup(t: Tracee, s: State)
    ensures Move(t.life, s).state == s
  {}

  lemma FinishQuietly(t: Tracee, notice: Callback, a: Answers)
    requires Followed(t) && t.life.state == EventStop && a.restarted.Ok? && !a.consumerDetaches
    ensures var r := Finished(Done(t), notice, a);
      && r.Ok?() && Followed(r.tracee) && r.tracee.calls == t.calls
      && r.tracee.life.pid == t.life.pid && r.tracee.life.detachAtNextStop == t.life.detachAtNextStop
      && r.tracee.life.state in {EventStop, Running}
  {}

  /** The cleanup after an event leaves everybody else alone. */
  lemma CleanedUp(e: Engine, p: Pid, a: Answers)
    requires p in e.tracees
    ensures var e1 := Cleanup(e, p, a).engine;
      && e1.tracees.Keys - {p} == e.tracees.Keys - {p} && e1.stash == e.stash && e1.newly == e.newly
      && (forall q | q in e1.tracees && q != p :: e1.tracees[q] == e.tracees[q])
      && Ends(e1, p, e.tracees[p].id, e.tracees[p].log, e.tracees[p].calls)
      && (forall i | i in e.retired && i != e.tracees[p].id :: i in e1.retired && e1.retired[i] == e.retired[i])
      && (p in e1.tracees <== Followed(e.tracees[p]))
  {
    hide Move;
  }

  /** What the engine is like after it followed an execve() from one traced
      thread to the main thread. */
  ghost predicate Substituted(e: Engine, exec: WaitEvent, a: Answers, e1: Engine)
    requires Substitutes(e, exec, a)
  {
    var (p, former) := (exec.pid, a.eventPid.value);
    var (main, gone) := (e.tracees[p], e.tracees[former]);
    && e1.tracees.Keys - {p} == e.tracees.Keys - {former, p}
    && (forall q | q in e.tracees && q != p && q != former :: q in e1.tracees && e1.tracees[q] == e.tracees[q])
    && e1.stash == e.stash && e1.newly == e.newly
    && Ends(e1, p, main.id, main.log + [NewExecutionContext(Some(former))],
            main.calls.(current := gone.calls.current, interrupted := gone.calls.interrupted,
                        count := gone.calls.count, cache := gone.calls.cache))
    && gone.id in e1.retired && e1.retired[gone.id].life.state == Dead && e1.retired[gone.id].log == gone.log
  }

  /** And the tracee goes on to be traced. */
  ghost predicate GoesOn(e: Engine, exec: WaitEvent, a: Answers, e1: Engine)
    requires Substitutes(e, exec, a)
  {
    var (p, main) := (exec.pid, e.tracees[exec.pid]);
    && p in e1.tracees && Followed(e1.tracees[p]) && !e1.tracees[p].life.detachAtNextStop
    && e1.tracees[p].life.pid == main.life.pid
    && e1.tracees[p].calls.entered == main.calls.entered
    && e1.tracees[p].calls.seenSigreturn == main.calls.seenSigreturn
  }

  /** The kernel did not let go of the former thread: nobody is told, both
      objects stay, and neither is restarted. */
  ghost predicate NotSubstituted(e: Engine, exec: WaitEvent, a: Answers, e1: Engine)
    requires Substitutes(e, exec, a)
  {
    var (p, former) := (exec.pid, a.eventPid.value);
    && e1.tracees.Keys == e.tracees.Keys && e1.stash == e.stash && e1.newly == e.newly
    && (forall q | q in e.tracees && q != p && q != former :: e1.tracees[q] == e.tracees[q])
    && e1.tracees[p].log == e.tracees[p].log && e1.tracees[p].calls == e.tracees[p].calls
    && e1.tracees[former].log == e.tracees[former].log
    && {e.tracees[p].id, e.tracees[former].id} <= e1.quiet
  }

  lemma ExecOutcome(e: Engine, exec: WaitEvent, a: Answers)
    requires Substitutes(e, exec, a)
    ensures var (p, former) := (exec.pid, a.eventPid.value);
      var t := ChangeState(ResetSignal(e.tracees[p]), EventStop);
      var (e1, r) := Substitute(e, p, t, former, a);
      HandleKnown(e, exec, a) == Own(e1, p, Finished(r, NewExecutionContext(Some(former)), a))
  {
    hide Substitute, Move, DoDetach, Finished;
  }

  lemma Survives(e: Engine, exec: WaitEvent, a: Answers)
    requires Substitutes(e, exec, a)
    ensures var (s, main, gone) := (Survivor(e, exec, a), e.tracees[exec.pid], e.tracees[a.eventPid.value]);
      && s.id == main.id && s.log == main.log && s.life.state == EventStop
      && s.life.pid == main.life.pid && !s.life.detachAtNextStop
      && s.calls == main.calls.(current := gone.calls.current, interrupted := gone.calls.interrupted,
                                count := gone.calls.count, cache := gone.calls.cache)
  {
    hide Move;
    MovedToStop(ResetSignal(e.tracees[exec.pid]));
  }

  /** What HandleOne makes of an outcome for a known tracee. */
  lemma OneOfOutcome(e: Engine, ev: WaitEvent, a: Answers, e0: Engine, f: Result)
    requires ev.pid in e.tracees && HandleKnown(e, ev, a) == Own(e0, ev.pid, f)
    ensures var (e1, v) := HandleOne(e, ev, a);
      && e1.tracees.Keys - {ev.pid} == e0.tracees.Keys - {ev.pid} && e1.stash == e0.stash && e1.newly == e0.newly
      && (forall q | q in e1.tracees && q != ev.pid :: e1.tracees[q] == e0.tracees[q])
      && Ends(e1, ev.pid, f.tracee.id, f.tracee.log, f.tracee.calls)
      && (forall i | i in e0.retired && i != f.tracee.id :: i in e1.retired && e1.retired[i] == e0.retired[i])
      && (Followed(f.tracee) ==>
            && e1 == Keep(e0, ev.pid, f)
            && v == if f.fault in {None, Some(Gone), Some(Refused)} then Decided(Handled) else Escaped(f.fault.value))
      && (v == Decided(Handled) || v.Escaped?)
  {
    hide HandleKnown, Cleanup;
    CleanedUp(Keep(e0, ev.pid, f), ev.pid, a);
    if Followed(f.tracee) { CleanupOfFollowed(Keep(e0, ev.pid, f), ev.pid, a); }
  }

  lemma NothingDue(e: Engine, ev: WaitEvent, a: Answers, d: Answers)
    requires var (e1, v) := HandleOne(e, ev, a); e1.newly == None
    ensures HandleEvent(e, ev, a, d) == HandleOne(e, ev, a)
  {
    hide HandleOne;
  }

  lemma ReleasedThen(e: Engine, exec: WaitEvent, a: Answers)
    requires AtRest(e) && Substitutes(e, exec, a) && Release(e, exec, a).Ok?()
    ensures var (e1, v) := HandleOne(e, exec, a);
      && Substituted(e, exec, a, e1)
      && (!a.consumerDetaches && a.restarted.Ok? ==> v == Decided(Handled) && GoesOn(e, exec, a, e1))
  {
    hide Substitute, HandleOne, HandleKnown, Finished, Release, ChangeState, Survivor, Structured;
    var (p, former) := (exec.pid, a.eventPid.value);
    var notice := NewExecutionContext(Some(former));
    ExecOutcome(e, exec, a);
    SubstituteStep(e, exec, a);
    var (e0, r) := Substitute(e, p, ChangeState(ResetSignal(e.tracees[p]), EventStop), former, a);
    Survives(e, exec, a);
    FinishSays(r.tracee, notice, a);
    if !a.consumerDetaches && a.restarted.Ok? { FinishQuietly(r.tracee, notice, a); }
    OneOfOutcome(e, exec, a, e0, Finished(r, notice, a));
    TwoObjects(e, p, former);
    var e1 := HandleOne(e, exec, a).0;
    var (main, gone) := (e.tracees[p], e.tracees[former]);
    assert e1.tracees.Keys - {p} == e.tracees.Keys - {former, p};
    forall q | q in e.tracees && q != p && q != former ensures q in e1.tracees && e1.tracees[q] == e.tracees[q] {
      assert q in e0.tracees.Keys - {p};
    }
    assert e1.stash == e.stash && e1.newly == e.newly;
    assert gone.id in e1.retired && e1.retired[gone.id].life.state == Dead && e1.retired[gone.id].log == gone.log;
    assert Ends(e1, p, main.id, main.log + [NewExecutionContext(Some(former))],
            main.calls.(current := gone.calls.current, interrupted := gone.calls.interrupted,
                        count := gone.calls.count, cache := gone.calls.cache));
  }

  lemma RefusedThen(e: Engine, exec: WaitEvent, a: Answers)
    requires AtRest(e) && Substitutes(e, exec, a) && !Release(e, exec, a).Ok?()
    ensures var (e1, v) := HandleOne(e, exec, a);
      NotSubstituted(e, exec, a, e1) && v == Decided(Handled)
  {
    hide Substitute, HandleOne, HandleKnown, Finished, Release, ChangeState, Structured;
    var (p, former) := (exec.pid, a.eventPid.value);
    var (t, notice) := (ChangeState(ResetSignal(e.tracees[p]), EventStop), NewExecutionContext(Some(former)));
    ExecOutcome(e, exec, a);
    SubstituteStep(e, exec, a);
    MovedToStop(ResetSignal(e.tracees[p]));
    RefusedFinish(t, notice, a);
    OneOfOutcome(e, exec, a, Substitute(e, p, t, former, a).0, Threw(t, Refused));
  }

  /** Whatever the consumer does and however the restart ends: the main thread's
      object survives under its pid with the exec'ing thread's calls, that
      thread's object is gone, and nothing else is touched, if the kernel lets go
      of that thread; else both stay as they are. */
  lemma ExecSubstitutes(e: Engine, exec: WaitEvent, a: Answers, d: Answers)
    requires AtRest(e) && Substitutes(e, exec, a)
    ensures var (e1, v) := HandleEvent(e, exec, a, d);
      && (if Release(e, exec, a).Ok?() then Substituted(e, exec, a, e1)
          else NotSubstituted(e, exec, a, e1) && v == Decided(Handled))
      && (Release(e, exec, a).Ok?() && !a.consumerDetaches && a.restarted.Ok? ==>
            v == Decided(Handled) && GoesOn(e, exec, a, e1))
  {
    hide HandleOne, Release, Structured, GoesOn, HandleEvent;
    if Release(e, exec, a).Ok?() { ReleasedThen(e, exec, a); } else { RefusedThen(e, exec, a); }
    NothingDue(e, exec, a, d);
  }

  lemma RefusedFinish(t: Tracee, notice: Callback, a: Answers)
    ensures Finished(Threw(t, Refused), notice, a) == Threw(t, Refused)
  {}

  lemma TwoObjects(e: Engine, p: Pid, q: Pid)
    requires AtRest(e) && p in e.tracees && q in e.tracees && p != q
    ensures e.tracees[p].id != e.tracees[q].id
  {}

  lemma MovedToStop(t: Tracee)
    ensures var u := ChangeState(t, EventStop);
      && u.life.state == EventStop && u.calls == t.calls && u.log == t.log && u.id == t.id
      && u.life.pid == t.life.pid && u.life.detachAtNextStop == t.life.detachAtNextStop
  {}

  lemma ExitStopAlone(t: Tracee, x: Answers)
    requires Followed(t) && !t.life.detachAtNextStop && t.calls.current.Some?
    requires x.info.Ok? && x.info.value.kind == ExitStop && x.exitFilled.Ok? && x.restarted.Ok?
    requires !x.consumerDetaches
    ensures var r := ProcessEvent(t, SyscallTrap, x);
      var exit := SyscallExit(t.calls.current.value, Interrupts(x.info.value));
      if t.calls.entered then r.Ok?() && Followed(r.tracee) && r.tracee.log == t.log + [exit]
      else r.fault == Some(Internal) && r.tracee.log == t.log
  {
    hide CloseCall, Interrupts;
  }

  /** syncState() copies no flags: the exit stop of the execve() that comes next
      is accepted, and reported for the exec'ing thread's call, exactly if the
      main thread had been inside a call itself; if not, trace() is left by the
      state mismatch exception. */
  lemma ExitStopAfterExecExactly(e: Engine, exec: WaitEvent, a: Answers, e1: Engine, x: Answers)
    requires Substitutes(e, exec, a) && Substituted(e, exec, a, e1) && GoesOn(e, exec, a, e1)
    requires e.tracees[a.eventPid.value].calls.current.Some?
    requires x.info.Ok? && x.info.value.kind == ExitStop && x.exitFilled.Ok? && x.restarted.Ok?
    requires !x.consumerDetaches
    ensures var (e2, v) := HandleOne(e1, WaitEvent(exec.pid, SyscallTrap), x);
      var inCall := e.tracees[exec.pid].calls.entered;
      var exit := SyscallExit(e.tracees[a.eventPid.value].calls.current.value, Interrupts(x.info.value));
      && exec.pid in e2.tracees
      && v == (if inCall then Decided(Handled) else Escaped(Internal))
      && e2.tracees[exec.pid].log == e1.tracees[exec.pid].log + (if inCall then [exit] else [])
  {
    hide ProcessEvent, Interrupts;
    ExitStopAlone(e1.tracees[exec.pid], x);
  }

  /** The state of an object that went on under its new pid. */
  predicate GoesOnAs(e1: Engine, p: Pid, t: Tracee)  {
    && p in e1.tracees && e1.tracees[p].calls == t.calls
    && e1.tracees[p].life.pid == Some(p) && Followed(e1.tracees[p])
  }

  lemma ExecUnderNewPid(e: Engine, exec: WaitEvent, a: Answers)
    requires exec.pid in e.tracees && IsExecEvent(exec.status) && NoSubstitution(e, exec, a)
    requires a.eventPid.Ok? && a.eventPid.value != exec.pid && !e.tracees[exec.pid].life.detachAtNextStop
    ensures var (e1, v) := HandleOne(e, exec, a);
      var (p, t) := (exec.pid, e.tracees[exec.pid]);
      && e1.tracees.Keys - {p} == e.tracees.Keys - {p} && e1.stash == e.stash && e1.newly == e.newly
      && (forall q | q in e1.tracees && q != p :: e1.tracees[q] == e.tracees[q])
      && Ends(e1, p, t.id, t.log + [NewExecutionContext(Some(a.eventPid.value))], t.calls)
      && (!a.consumerDetaches && a.restarted.Ok? ==> v == Decided(Handled) && GoesOnAs(e1, p, t))
      && (v == Decided(Handled) || v.Escaped?)
  {
    hide Restart, Deliver, Move, DoDetach, HandleKnown, Cleanup, Finished;
    var (p, notice) := (exec.pid, NewExecutionContext(Some(a.eventPid.value)));
    var t := SetPid(ChangeState(ResetSignal(e.tracees[p]), EventStop), p);
    MovedToStop(ResetSignal(e.tracees[p]));
    NewPidOutcome(e, exec, a);
    FinishSays(t, notice, a);
    if !a.consumerDetaches && a.restarted.Ok? { FinishQuietly(t, notice, a); }
    OneOfOutcome(e, exec, a, e, Finished(Done(t), notice, a));
  }

  lemma NewPidOutcome(e: Engine, exec: WaitEvent, a: Answers)
    requires exec.pid in e.tracees && IsExecEvent(exec.status) && NoSubstitution(e, exec, a)
    requires a.eventPid.Ok? && a.eventPid.value != exec.pid && !e.tracees[exec.pid].life.detachAtNextStop
    ensures var t := SetPid(ChangeState(ResetSignal(e.tracees[exec.pid]), EventStop), exec.pid);
      HandleKnown(e, exec, a)
      == Own(e, exec.pid, Finished(Done(t), NewExecutionContext(Some(a.eventPid.value)), a))
  {
    hide Move, DoDetach, Finished;
  }

  lemma NotStored(e: Engine, ev: WaitEvent, v: Verdict)
    requires v != Decided(Store)
    ensures Settle(e, ev, v) == e
  {}

  lemma RekeyedFirst(e: Engine, exec: WaitEvent, a: Answers, d: Answers, former: Pid)
    requires exec.pid !in e.tracees && IsExecEvent(exec.status) && a.eventPid == Ok(former) && former in e.tracees
    ensures HandleEvent(e, exec, a, d) == (Rekey(e, former, exec.pid), Decided(Retry))
  {
    hide HandleDelayed;
  }

  lemma RekeyedThen(e: Engine, exec: WaitEvent, a: Answers, again: Answers, d: Answers, former: Pid)
    requires e.newly == None && exec.pid !in e.tracees && IsExecEvent(exec.status)
    requires a.eventPid == Ok(former) && former in e.tracees
    requires var (e1, v) := HandleOne(Rekey(e, former, exec.pid), exec, again);
      e1.newly == None && (v == Decided(Handled) || v.Escaped?)
    ensures Traced(e, Round(exec, a, again, d)) == HandleOne(Rekey(e, former, exec.pid), exec, again)
  {
    hide HandleOne, HandleEvent, Rekey, Settle;
    var e0 := Rekey(e, former, exec.pid);
    RekeyedFirst(e, exec, a, d, former);
    NothingDue(e0, exec, again, d);
    var (e1, v) := HandleEvent(e0, exec, again, d);
    NotStored(e1, exec, v);
  }

  /** If only the exec'ing thread was traced, its object lives on under the main
      thread's pid: re-keyed, told of once, its calls untouched; and its own pid
      is updated if the consumer does not detach and it is restarted. */
  lemma SoleThreadIsRekeyed(e: Engine, exec: WaitEvent, a: Answers, again: Answers, d: Answers, former: Pid)
    requires AtRest(e) && exec.pid !in e.tracees && IsExecEvent(exec.status)
    requires a.eventPid == Ok(former) && again.eventPid == Ok(former) && former in e.tracees
    requires !e.tracees[former].life.detachAtNextStop
    ensures var (e1, v) := Traced(e, Round(exec, a, again, d));
      var (p, t) := (exec.pid, e.tracees[former]);
      && e1.tracees.Keys - {p} == e.tracees.Keys - {former} && e1.stash == e.stash && e1.newly == e.newly
      && (forall q | q in e.tracees && q != former :: q in e1.tracees && e1.tracees[q] == e.tracees[q])
      && Ends(e1, p, t.id, t.log + [NewExecutionContext(Some(former))], t.calls)
      && (!again.consumerDetaches && again.restarted.Ok? ==> v == Decided(Handled) && GoesOnAs(e1, p, t))
  {
    hide HandleOne, Traced, Structured, Ends, GoesOnAs, Rekey;
    var (p, e0) := (exec.pid, Rekey(e, former, exec.pid));
    RekeyKeepsObjects(e, former, p);
    ExecUnderNewPid(e0, exec, again);
    RekeyedThen(e, exec, a, again, d, former);
    var e1 := HandleOne(e0, exec, again).0;
    assert e1.tracees.Keys - {p} == e0.tracees.Keys - {p} == e.tracees.Keys - {former};
    forall q | q in e.tracees && q != former ensures q in e1.tracees && e1.tracees[q] == e.tracees[q] {
      assert q in e0.tracees.Keys - {p};
    }
  }
}
