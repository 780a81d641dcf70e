// The engine as it is: a map of tracee objects that are shared, moved to other
// keys and dropped, a stash and a marker, all updated in place.
module Supervising {
  import opened Common
  import opened TraceeModel
  import Model = EngineModel
  import EngineRuns
  import Tracing

  type Tracee = Tracing.Tracee
  type Verdict = Model.Verdict
  type WaitEvent = Model.WaitEvent

  class Engine {
    var tracees: map<Pid, Tracee>
    var stash: map<Pid, WaitStatus>
    var newly: Option<Pid>
    ghost var retired: map<nat, TraceeModel.Tracee>
    var nextId: nat
    ghost var quiet: set<nat>
    ghost var exitSeen: set<nat>

    ghost function TraceesView(): map<Pid, TraceeModel.Tracee>
      reads `tracees, tracees.Values
    {
      map p | p in tracees :: tracees[p].View()
    }

    ghost function View(): Model.Engine
      reads this, tracees.Values
    {
      Model.Engine(TraceesView(), stash, newly, retired, nextId, quiet, exitSeen)
    }

    /** No tracee object is in the map under two pids. */
    ghost predicate Valid()
      reads `tracees
    {
      forall p, q | p in tracees && q in tracees && p != q :: tracees[p] != tracees[q]
    }

    /** Only the tracee under one pid changed. */
    twostate lemma OnlyChanged(p: Pid)
      requires old(Valid()) && old(tracees) == tracees && p in tracees
      requires forall q | q in tracees && q != p :: unchanged(tracees[q])
      ensures TraceesView() == old(TraceesView())[p := tracees[p].View()]
    {
      forall q | q in tracees && q != p ensures tracees[q].View() == old(tracees[q].View()) {
        assert unchanged(tracees[q]);
      }
    }

    /** The objects in the map were there before, or are new. */
    twostate predicate SameObjects()
      reads this
    {
      forall t | t in tracees.Values :: t in old(tracees.Values) || fresh(t)
    }

    /** Remember that a tracee was left un-restarted or is no longer followed. */
    ghost method Quiet(t: Tracee, fault: Option<Fault>)
      modifies `quiet
      ensures quiet == Model.Quieted(old(quiet), Result(t.View(), fault))
    {
      if fault.Some? || !Followed(t.View()) { quiet := quiet + {t.id}; }
    }

    method CheckCleanup(p: Pid, a: Answers) returns (fault: Option<Fault>)
      requires Valid()
      modifies this, tracees.Values
      ensures Valid() && SameObjects()
      ensures forall q | q in old(tracees) && q != p :: q in tracees && tracees[q] == old(tracees)[q] && unchanged(tracees[q])
      ensures Model.Outcome(View(), fault) == Model.Cleanup(old(View()), p, a)
    {
      hide TraceeModel.DoDetach;
      fault := None;
      if p !in tracees {
        return;
      }
      var t := tracees[p];
      if t.state == Detached {
        if !t.isChild {
          retired := retired[t.id := t.View()];
          tracees := tracees - {p};
          assert TraceesView() == old(TraceesView()) - {p};
        }
      } else if t.state == Dead {
        fault := t.DoDetach(a.cleanedUp);
        Quiet(t, fault);
        OnlyChanged(p);
        label Released:
        if fault.None? {
          retired := retired[t.id := t.View()];
          tracees := tracees - {p};
          assert TraceesView() == old@Released(TraceesView()) - {p};
        }
      }
    }

    /** Tracee::processEvent() with its answer to an escaped exception. */
    method ProcessAlone(p: Pid, w: WaitStatus, a: Answers) returns (fault: Option<Fault>)
      requires Valid() && p in tracees && !NeedsEngine(w)
      modifies this, tracees.Values
      ensures Valid() && SameObjects()
      ensures Model.Outcome(View(), fault) == Model.HandleKnown(old(View()), Model.WaitEvent(p, w), a)
    {
      hide TraceeModel.ProcessEvent;
      var t := tracees[p];
      if IsExitEvent(w) { exitSeen := exitSeen + {t.id}; }
      fault := t.ProcessEvent(w, a);
      Quiet(t, fault);
      OnlyChanged(p);
    }

    /** handleSubstitution() for a traced thread: release it and forget it. */
    method HandleSubstitution(former: Pid, a: Answers) returns (gone: Tracee, fault: Option<Fault>)
      requires Valid() && former in tracees
      modifies this, tracees.Values
      ensures Valid() && gone == old(tracees)[former]
      ensures tracees == if fault.None? then old(tracees) - {former} else old(tracees)
      ensures forall q | q in tracees && q != former :: unchanged(tracees[q])
      ensures var d := TraceeModel.Detach(old(tracees[former].View()), Release(a));
        && Result(gone.View(), fault) == d
        && View() == (if d.Ok?() then old(View()).(tracees := old(View()).tracees - {former})
                      else Model.Keep(old(View()), former, d))
    {
      hide TraceeModel.Detach;
      gone := tracees[former];
      fault := gone.Detach(Release(a));
      OnlyChanged(former);
      if fault.Some? {
        Quiet(gone, fault);
      } else {
        label Detached:
        tracees := tracees - {former};
        assert TraceesView() == old@Detached(TraceesView()) - {former};
      }
    }

    /** What follows if both the main thread and the exec'ing one are traced. */
    method Substitute(p: Pid, former: Pid, a: Answers) returns (fault: Option<Fault>)
      requires Valid() && p in tracees && former in tracees && former != p
      modifies this, tracees.Values
      ensures Valid() && tracees.Values <= old(tracees.Values) && p in tracees && tracees[p] == old(tracees)[p]
      ensures var (e1, r) := Model.Substitute(old(View()), p, old(tracees[p].View()), former, a);
        View() == Moved(e1, p, r.tracee) && fault == r.fault
    {
      hide TraceeModel.Detach, TraceeModel.ChangeState, Model.Keep;
      var gone;
      gone, fault := HandleSubstitution(former, a);
      if fault.None? {
        label Released:
        tracees[p].SyncState(gone);
        OnlyChanged@Released(p);
        retired := retired[gone.id := gone.View()];
      } else {
        assert View().tracees[p] == old(tracees[p].View());
        assert View().tracees[p := old(tracees[p].View())] == View().tracees;
      }
    }

    /** The start of processEvent() for an event that needs the engine, and the
        question for the pid in its message. */
    method ReachEventStop(p: Pid, a: Answers) returns (stopped: bool, fault: Option<Fault>)
      requires Valid() && p in tracees
      modifies this, tracees.Values
      ensures Valid() && tracees == old(tracees)
      ensures var t0 := ResetSignal(old(tracees[p].View()));
        var t1 := TraceeModel.ChangeState(t0, EventStop);
        && stopped == (!t0.life.detachAtNextStop && a.eventPid.Ok?)
        && (if stopped then fault == None && View() == Moved(old(View()), p, t1) && tracees[p].View() == t1
            else Model.Outcome(View(), fault) == Model.Own(old(View()), p,
                   if t0.life.detachAtNextStop then TraceeModel.DoDetach(t0, a.detached)
                   else Threw(t1, a.eventPid.fault)))
    {
      hide TraceeModel.DoDetach, TraceeModel.ChangeState;
      var t := tracees[p];
      t.injectSignal := None;
      stopped, fault := false, None;
      if t.detachAtNextStop {
        fault := t.DoDetach(a.detached);
        Quiet(t, fault);
      } else {
        t.ChangeState(EventStop);
        if a.eventPid.Err? {
          fault := Some(a.eventPid.fault);
          Quiet(t, fault);
        } else {
          stopped := true;
        }
      }
      OnlyChanged(p);
    }

    /** The end of processEvent() for such an event. */
    method TellAndRestart(p: Pid, notice: Callback, a: Answers) returns (fault: Option<Fault>)
      requires Valid() && p in tracees
      modifies this, tracees.Values
      ensures Valid() && tracees == old(tracees)
      ensures var r := TraceeModel.Deliver(old(tracees[p].View()), notice, a);
        Model.Outcome(View(), fault)
        == Model.Own(old(View()), p, if r.Ok?() then TraceeModel.Restart(r.tracee, a) else r)
    {
      hide TraceeModel.Deliver, TraceeModel.Restart;
      var t := tracees[p];
      fault := t.Deliver(notice, a);
      if fault.None? {
        fault := t.Restart(a);
      }
      Quiet(t, fault);
      OnlyChanged(p);
    }

    /** The pid a tracee gets, or the calls it takes over, at an execve(). */
    method SyncAfterExec(p: Pid, former: Pid, a: Answers) returns (fault: Option<Fault>)
      requires Valid() && p in tracees
      modifies this, tracees.Values
      ensures Valid() && tracees.Values <= old(tracees.Values) && p in tracees && tracees[p] == old(tracees)[p]
      ensures var (e1, r) := Model.SyncAfterExec(old(View()), p, old(tracees[p].View()), former, a);
        View() == Moved(e1, p, r.tracee) && fault == r.fault && tracees[p].View() == r.tracee
    {
      hide Model.Substitute;
      fault := None;
      if former == p {
      } else if former in tracees {
        fault := Substitute(p, former, a);
        assert tracees[p].View() == View().tracees[p];
      } else {
        tracees[p].SetPid(p);
        OnlyChanged(p);
      }
    }

    /** handleExecEvent() inside processEvent(). */
    method HandleExec(p: Pid, a: Answers) returns (fault: Option<Fault>)
      requires Valid() && p in tracees
      modifies this, tracees.Values
      ensures Valid() && tracees.Values <= old(tracees.Values)
      ensures Model.Outcome(View(), fault) == Model.HandleExec(old(View()), p, a)
    {
      hide TraceeModel.DoDetach, TraceeModel.ChangeState, TraceeModel.Deliver, TraceeModel.Restart,
        Model.SyncAfterExec, Moved, Model.Own;
      var stopped;
      stopped, fault := ReachEventStop(p, a);
      if stopped {
        ghost var e, t1 := old(View()), tracees[p].View();
        var former := a.eventPid.value;
        SyncMoved(e, p, t1, former, a);
        ghost var (e1, r) := Model.SyncAfterExec(e, p, t1, former, a);
        fault := SyncAfterExec(p, former, a);
        assert View() == Moved(e1, p, r.tracee) && tracees[p].View() == r.tracee;
        fault := FinishExec(p, fault, NewExecutionContext(if former == p then None else Some(former)), a);
        OwnMoved(e1, p, r.tracee, Model.Finished(r, NewExecutionContext(if former == p then None else Some(former)), a));
      }
    }

    method FinishExec(p: Pid, failed: Option<Fault>, notice: Callback, a: Answers) returns (fault: Option<Fault>)
      requires Valid() && p in tracees
      modifies this, tracees.Values
      ensures Valid() && tracees == old(tracees)
      ensures Model.Outcome(View(), fault)
           == Model.Own(old(View()), p, Model.Finished(Result(old(tracees[p].View()), failed), notice, a))
    {
      hide TraceeModel.Deliver, TraceeModel.Restart;
      fault := failed;
      if fault.None? {
        fault := TellAndRestart(p, notice, a);
      } else {
        Quiet(tracees[p], fault);
        assert TraceesView()[p := tracees[p].View()] == TraceesView();
      }
    }

    /** Enter an object for a new task, unless its pid is traced already. */
    method Admit(child: Pid)
      requires Valid()
      modifies this
      ensures Valid() && child in tracees && View() == Model.Admit(old(View()), child)
      ensures forall p | p in old(tracees) :: p in tracees && tracees[p] == old(tracees)[p]
      ensures SameObjects()
    {
      if child !in tracees {
        var t := new Tracing.Tracee(nextId, child, false);
        tracees := tracees[child := t];
        nextId := nextId + 1;
        assert TraceesView() == old(TraceesView())[child := t.View()];
      }
    }

    /** The callback about a new task, in which the consumer may let go of the
        parent, of the child, or of both. */
    method TellNewChild(p: Pid, child: Pid, a: Answers) returns (fault: Option<Fault>, rejected: Option<Fault>)
      requires Valid() && p in tracees && child in tracees && p != child
      modifies this, tracees.Values
      ensures Valid() && tracees == old(tracees)
      ensures var r := TraceeModel.Deliver(old(tracees[p].View()), NewChildProcess(child), a);
        var c := Model.Announce(old(tracees[child].View()), a);
        && r == Result(tracees[p].View(), fault) && rejected == c.fault
        && View() == Moved(Model.Keep(old(View()), child, c), p, r.tracee)
    {
      hide TraceeModel.Deliver, Model.Announce;
      var parent, born := tracees[p], tracees[child];
      fault := parent.Deliver(NewChildProcess(child), a);
      OnlyChanged(p);
      label Told:
      rejected := born.Announce(a);
      OnlyChanged@Told(child);
      Quiet(born, rejected);
      assert TraceesView() == old(TraceesView())[child := born.View()][p := parent.View()];
    }

    /** The end of handleAutoAttach(), and the parent's restart. */
    method FinishAttach(p: Pid, child: Pid, a: Answers) returns (fault: Option<Fault>)
      requires Valid() && p in tracees && p != child
      modifies this, tracees.Values
      ensures Valid() && SameObjects()
      ensures Model.Outcome(View(), fault) == Model.FinishAttach(old(View()), p, old(tracees[p].View()), child, a)
    {
      hide TraceeModel.Restart, Model.Cleanup;
      fault := CheckCleanup(child, a);
      label Cleaned:
      if fault.None? {
        newly := Some(child);
        fault := tracees[p].Restart(a);
        OnlyChanged@Cleaned(p);
      } else {
        assert TraceesView()[p := tracees[p].View()] == TraceesView();
      }
      Quiet(tracees[p], fault);
    }

    /** handleAutoAttach() for a new task. */
    method AutoAttach(p: Pid, child: Pid, a: Answers) returns (fault: Option<Fault>)
      requires Valid() && p in tracees && p != child
      modifies this, tracees.Values
      ensures Valid() && SameObjects()
      ensures Model.Outcome(View(), fault) == Model.AutoAttach(old(View()), p, old(tracees[p].View()), child, a)
    {
      hide TraceeModel.Deliver, Model.Announce, Model.Admit, Model.Keep, Model.FinishAttach, Moved;
      ghost var t := old(tracees[p].View());
      Admit(child);
      ghost var e1 := View();
      assert tracees[p].View() == t && tracees[child].View() == e1.tracees[child];
      if tracees[p].current == Some(Clone3) && !a.cloneArgs {
        fault := Some(NullCall);
        Quiet(tracees[p], fault);
        SameMoved(e1, p, t);
        QuietIsOwn(e1, p, t, fault);
        return;
      }
      var rejected;
      fault, rejected := TellNewChild(p, child, a);
      ghost var r := tracees[p].View();
      ghost var e2 := Model.Keep(e1, child, Model.Announce(e1.tracees[child], a));
      if fault.None? && rejected.None? {
        fault := FinishAttach(p, child, a);
        FinishMoved(e2, p, r, r, child, a);
      } else {
        if fault.None? { fault := rejected; }
        Quiet(tracees[p], fault);
        OwnMoved(e2, p, r, Result(r, fault));
        QuietIsOwn(e2, p, r, fault);
      }
    }

    method CompleteVfork(p: Pid, child: Pid, a: Answers) returns (fault: Option<Fault>)
      requires Valid() && p in tracees
      modifies this, tracees.Values
      ensures Valid() && SameObjects()
      ensures Model.Outcome(View(), fault) == Model.CompleteVfork(old(View()), p, old(tracees[p].View()), child, a)
    {
      hide TraceeModel.Deliver, TraceeModel.Restart;
      var t := tracees[p];
      fault := t.Deliver(VforkComplete(child in tracees), a);
      if fault.None? {
        newly := Some(child);
        fault := t.Restart(a);
      }
      Quiet(t, fault);
      OnlyChanged(p);
    }

    /** handleNewChildEvent() inside processEvent(). */
    method HandleNewTask(p: Pid, kind: NewTask, a: Answers) returns (fault: Option<Fault>)
      requires Valid() && p in tracees && a.eventPid != Ok(p)
      modifies this, tracees.Values
      ensures Valid() && SameObjects()
      ensures Model.Outcome(View(), fault) == Model.HandleNewTask(old(View()), p, kind, a)
    {
      hide TraceeModel.ChangeState, TraceeModel.DoDetach, Model.AutoAttach, Model.CompleteVfork, Model.Own, Moved;
      var stopped;
      stopped, fault := ReachEventStop(p, a);
      if stopped {
        ghost var e, t1 := old(View()), tracees[p].View();
        var child := a.eventPid.value;
        if tracees[p].current.None? {
          fault := Some(NullCall);
          Quiet(tracees[p], fault);
          QuietIsOwn(e, p, t1, fault);
        } else if kind == VforkDone {
          fault := CompleteVfork(p, child, a);
          VforkMoved(e, p, t1, child, a);
        } else {
          fault := AutoAttach(p, child, a);
          AutoAttachMoved(e, p, t1, child, a);
        }
      }
    }

    /** Tracee::processEvent() for a tracee in the map. */
    method HandleKnown(ev: WaitEvent, a: Answers) returns (fault: Option<Fault>)
      requires Valid() && ev.pid in tracees && NotItself(ev, a)
      modifies this, tracees.Values
      ensures Valid() && SameObjects()
      ensures Model.Outcome(View(), fault) == Model.HandleKnown(old(View()), ev, a)
    {
      hide Model.HandleNewTask, Model.HandleExec, TraceeModel.ProcessEvent;
      match ev.status {
        case EventTrap(NewTaskEvent(kind), _) => fault := HandleNewTask(ev.pid, kind, a);
        case EventTrap(ExecEvent, _) => fault := HandleExec(ev.pid, a);
        case _ => fault := ProcessAlone(ev.pid, ev.status, a);
      }
    }

    /** handleEvent() */
    method HandleEvent(ev: WaitEvent, a: Answers, d: Answers, ghost nested: bool) returns (v: Verdict)
      requires Valid() && NotItself(ev, a) && OnlyStops(stash)
      requires nested ==> IsStopEvent(ev.status) && newly.None?
      modifies this, tracees.Values
      ensures Valid() && SameObjects() && OnlyStops(stash)
      ensures (View(), v) == Model.HandleEvent(old(View()), ev, a, d)
      decreases if nested then 0 else 1, 1
    {
      hide Model.HandleKnown, Model.Cleanup, Model.HandleUnknown, Model.HandleDelayed;
      if ev.pid !in tracees {
        v := CheckUnknownTraceeEvent(ev, a);
        return;
      }
      OneKeepsStash(View(), ev, a);
      ghost var e := View();
      if nested { OneStop(e, ev, a); }
      var fault := HandleKnown(ev, a);
      if fault.Some? && !Model.IsApiError(fault.value) {
        return Model.Escaped(fault.value);
      }
      fault := CheckCleanup(ev.pid, a);
      if fault.Some? {
        return Model.Escaped(fault.value);
      }
      v := CheckUnknownEvents(d, nested);
    }

    /** checkUnknownTraceeEvent() and tryUpdateTraceePID() */
    method CheckUnknownTraceeEvent(ev: WaitEvent, a: Answers) returns (v: Verdict)
      requires Valid() && ev.pid !in tracees
      modifies `tracees
      ensures Valid() && SameObjects()
      ensures (View(), v) == Model.HandleUnknown(old(View()), ev, a)
      ensures v != Model.Decided(Model.Handled)
    {
      v := Model.Decided(Model.Drop);
      if IsExecEvent(ev.status) {
        if a.eventPid.Err? {
          return Model.Escaped(a.eventPid.fault);
        }
        var former := a.eventPid.value;
        if former in tracees {
          var node := tracees[former];
          tracees := (tracees - {former})[ev.pid := node];
          assert TraceesView() == (old(TraceesView()) - {former})[ev.pid := node.View()];
          v := Model.Decided(Model.Retry);
        }
      } else if IsStopEvent(ev.status) {
        v := Model.Decided(Model.Store);
      }
    }

    /** checkUnknownEvents(); the call it makes finds nothing more to do. */
    method CheckUnknownEvents(d: Answers, ghost nested: bool) returns (v: Verdict)
      requires Valid() && OnlyStops(stash)
      requires nested ==> newly.None?
      modifies this, tracees.Values
      ensures Valid() && SameObjects() && OnlyStops(stash)
      ensures (View(), v) == Model.HandleDelayed(old(View()), d)
      decreases if nested then 0 else 1, 0
    {
      hide Model.HandleOne;
      v := Model.Decided(Model.Handled);
      if newly.None? {
        return;
      }
      var p := newly.value;
      newly := None;
      if p in stash {
        var ev := Model.WaitEvent(p, stash[p]);
        ghost var e := View();
        OneStop(e, ev, d);
        var nestedVerdict := HandleEvent(ev, d, d, true);
        if nestedVerdict.Escaped? {
          return nestedVerdict;
        }
        stash := stash - {p};
      }
    }

    /** One round of trace(): handle the event until the decision is not RETRY. */
    method TraceEvent(ev: WaitEvent, a: Answers, again: Answers, d: Answers) returns (v: Verdict)
      requires Valid() && NotItself(ev, a) && NotItself(ev, again) && OnlyStops(stash) && newly.None?
      modifies this, tracees.Values
      ensures Valid() && SameObjects() && OnlyStops(stash)
      ensures (View(), v) == Model.TraceOne(old(View()), ev, a, again, d)
      ensures !v.Escaped? ==> newly.None?
    {
      hide Model.HandleEvent;
      ghost var e := old(View());
      ghost var (e1, v1) := Model.HandleEvent(e, ev, a, d);
      ghost var (e2, v2) := Model.HandleEvent(e1, ev, again, d);
      EngineRuns.RetryMeansKnown(e, ev, a, d);
      EngineRuns.RetryMeansKnown(e1, ev, again, d);
      StoreMeansStop(e, ev, a, d);
      StoreMeansStop(e1, ev, again, d);
      NothingLeftNewly(e, ev, a, d);
      if v1 == Model.Decided(Model.Retry) { NothingLeftNewly(e1, ev, again, d); }
      v := HandleEvent(ev, a, d, false);
      while v == Model.Decided(Model.Retry)
        invariant Valid() && SameObjects() && OnlyStops(stash)
        invariant (View(), v) == (e1, v1) || (v1 == Model.Decided(Model.Retry) && (View(), v) == (e2, v2))
        decreases v == Model.Decided(Model.Retry)
      {
        v := HandleEvent(ev, again, d, false);
      }
      if v == Model.Decided(Model.Store) && ev.pid !in stash {
        stash := stash[ev.pid := ev.status];
      }
    }

    /** trace(), as long as wait() has something to report. */
    method Trace(rounds: seq<EngineRuns.Round>) returns (n: nat, left: Option<Fault>)
      requires Valid() && OnlyStops(stash) && newly.None?
      requires forall r | r in rounds :: NotItself(r.ev, r.answers) && NotItself(r.ev, r.again)
      modifies this, tracees.Values
      ensures Valid() && n <= |rounds| && View() == EngineRuns.TraceAll(old(View()), rounds[..n])
      ensures left.None? ==> n == |rounds| || tracees == map[]
    {
      hide Model.TraceOne;
      n, left := 0, None;
      while n < |rounds| && |tracees| > 0
        invariant Valid() && SameObjects() && OnlyStops(stash) && newly.None?
        invariant 0 <= n <= |rounds| && View() == EngineRuns.TraceAll(old(View()), rounds[..n])
      {
        var r := rounds[n];
        var v := TraceEvent(r.ev, r.answers, r.again, r.delayed);
        OneRoundMore(old(View()), rounds, n);
        n := n + 1;
        if v.Escaped? {
          return n, Some(v.fault);
        }
      }
    }

    constructor ()
      ensures Valid() && tracees == map[] && EngineRuns.Fresh(View())
    {
      tracees, stash, newly, nextId := map[], map[], None, 0;
      retired, quiet, exitSeen := map[], {}, {};
    }

    /** addTracee(): the object is entered once attach() succeeded; an exception
        on the way, from creating the child process or attaching to it, is passed
        on and nothing was entered. */
    method AddTracee(p: Pid, isChild: bool, created: Reply<()>, attached: Reply<()>)
      returns (t: Tracing.Tracee?, fault: Option<Fault>)
      requires Valid() && p !in tracees && EngineRuns.Fresh(View())
      modifies this
      ensures Valid() && EngineRuns.Fresh(View())
      ensures fault == if isChild && created.Err? then Some(created.fault)
                       else if attached.Err? then Some(attached.fault)
                       else None
      ensures if fault.None? then t != null && fresh(t) && tracees == old(tracees)[p := t]
              else t == null && tracees == old(tracees) && unchanged(tracees.Values)
    {
      if isChild && created.Err? {
        return null, Some(created.fault);
      }
      if attached.Err? {
        return null, Some(attached.fault);
      }
      var tracee := new Tracing.Tracee(nextId, p, isChild);
      t, fault := tracee, None;
      tracees := tracees[p := tracee];
      nextId := nextId + 1;
      assert TraceesView() == old(TraceesView())[p := tracee.View()];
    }
  }

  lemma {:induction false} OneRoundMore(e: Model.Engine, rounds: seq<EngineRuns.Round>, n: nat)
    requires n < |rounds|
    ensures EngineRuns.TraceAll(e, rounds[..n + 1])
         == EngineRuns.Traced(EngineRuns.TraceAll(e, rounds[..n]), rounds[n]).0
    decreases n
  {
    hide EngineRuns.Traced;
    if n > 0 {
      OneRoundMore(EngineRuns.Traced(e, rounds[0]).0, rounds[1..], n - 1);
      assert rounds[..n + 1][1..] == rounds[1..][..n];
      assert rounds[..n][1..] == rounds[1..][..n - 1];
    }
  }

  lemma NothingLeftNewly(e: Model.Engine, ev: WaitEvent, a: Answers, d: Answers)
    requires e.newly.None? && OnlyStops(e.stash)
    ensures var (e1, v) := Model.HandleEvent(e, ev, a, d);
      !v.Escaped? ==> e1.newly.None?
  {
    hide Model.HandleKnown, Model.Cleanup;
    if ev.pid in e.tracees {
      OneKeepsStash(e, ev, a);
      var e1 := Model.HandleOne(e, ev, a).0;
      if e1.newly.Some? && e1.newly.value in e1.stash {
        OneStop(e1.(newly := None), Model.WaitEvent(e1.newly.value, e1.stash[e1.newly.value]), d);
      }
    }
  }

  ghost predicate OnlyStops(stash: map<Pid, WaitStatus>) { forall p | p in stash :: IsStopEvent(stash[p]) }

  lemma CleanupKeepsStash(e: Model.Engine, p: Pid, a: Answers)
    ensures Model.Cleanup(e, p, a).engine.stash == e.stash
  {
    hide TraceeModel.DoDetach;
  }

  lemma AttachKeepsStash(e: Model.Engine, p: Pid, t: TraceeModel.Tracee, child: Pid, a: Answers)
    ensures Model.AutoAttach(e, p, t, child, a).engine.stash == e.stash
  {
    hide TraceeModel.Deliver, TraceeModel.Restart, Model.Announce, Model.Cleanup;
    var e1 := Model.Admit(e, child);
    CleanupKeepsStash(Model.Keep(e1, child, Model.Announce(e1.tracees[child], a)), child, a);
  }

  lemma OneKeepsStash(e: Model.Engine, ev: WaitEvent, a: Answers)
    requires ev.pid in e.tracees
    ensures var e1 := Model.HandleKnown(e, ev, a).engine;
      e1.stash == e.stash && Model.Cleanup(e1, ev.pid, a).engine.stash == e.stash
  {
    hide TraceeModel.Deliver, TraceeModel.ProcessEvent, TraceeModel.DoDetach, TraceeModel.Detach,
      TraceeModel.Restart, TraceeModel.ChangeState, Model.AutoAttach, Model.Cleanup;
    if a.eventPid.Ok? {
      AttachKeepsStash(e, ev.pid, TraceeModel.ChangeState(ResetSignal(e.tracees[ev.pid]), EventStop), a.eventPid.value, a);
    }
    CleanupKeepsStash(Model.HandleKnown(e, ev, a).engine, ev.pid, a);
  }

  lemma StoreMeansStop(e: Model.Engine, ev: WaitEvent, a: Answers, d: Answers)
    ensures Model.HandleEvent(e, ev, a, d).1 == Model.Decided(Model.Store) ==> IsStopEvent(ev.status)
  {
    hide Model.HandleKnown, Model.Cleanup;
  }

  lemma OneStop(e: Model.Engine, ev: WaitEvent, a: Answers)
    requires IsStopEvent(ev.status)
    ensures Model.HandleOne(e, ev, a).0.newly == e.newly
    ensures Model.HandleOne(e, ev, a).1 != Model.Decided(Model.Retry)
    ensures NotItself(ev, a)
  {
    hide TraceeModel.ProcessEvent, TraceeModel.DoDetach;
  }

  /** No task creates itself. */
  predicate NotItself(ev: WaitEvent, a: Answers) {
    IsNewTaskEvent(ev.status) ==> a.eventPid != Ok(ev.pid)
  }

  lemma VforkMoved(e: Model.Engine, p: Pid, t: TraceeModel.Tracee, child: Pid, a: Answers)
    requires p in e.tracees
    ensures Model.CompleteVfork(Moved(e, p, t), p, t, child, a) == Model.CompleteVfork(e, p, t, child, a)
  {
    hide TraceeModel.Deliver, TraceeModel.Restart, Model.Own, Moved;
    var r := TraceeModel.Deliver(t, VforkComplete(child in e.tracees), a);
    MovedKeys(e, p, t);
    OwnMoved(e, p, t, r);
    OwnMoved(e.(newly := Some(child)), p, t, TraceeModel.Restart(r.tracee, a));
    NotedMoved(e, p, t, child);
  }

  lemma MovedKeys(e: Model.Engine, p: Pid, t: TraceeModel.Tracee)
    requires p in e.tracees
    ensures Moved(e, p, t).tracees.Keys == e.tracees.Keys
  {}

  lemma AutoAttachMoved(e: Model.Engine, p: Pid, t: TraceeModel.Tracee, child: Pid, a: Answers)
    requires p in e.tracees && p != child
    ensures Model.AutoAttach(Moved(e, p, t), p, t, child, a) == Model.AutoAttach(e, p, t, child, a)
  {
    hide TraceeModel.Deliver, Model.Announce, Model.Own, Model.FinishAttach, Model.Keep, Model.Admit, Moved;
    AdmitMoved(e, p, t, child);
    var e1 := Model.Admit(e, child);
    OwnMoved(e1, p, t, Threw(t, NullCall));
    var r := TraceeModel.Deliver(t, NewChildProcess(child), a);
    var c := Model.Announce(e1.tracees[child], a);
    KeepMoved(e1, p, t, child, c);
    var e2 := Model.Keep(e1, child, c);
    OwnMoved(e2, p, t, r);
    if c.fault.Some? { OwnMoved(e2, p, t, Threw(r.tracee, c.fault.value)); }
    FinishMoved(e2, p, t, r.tracee, child, a);
  }

  lemma AdmitMoved(e: Model.Engine, p: Pid, t: TraceeModel.Tracee, child: Pid)
    requires p in e.tracees && p != child
    ensures Model.Admit(Moved(e, p, t), child) == Moved(Model.Admit(e, child), p, t)
    ensures child in Model.Admit(e, child).tracees
    ensures Moved(Model.Admit(e, child), p, t).tracees[child] == Model.Admit(e, child).tracees[child]
  {
    assert forall x {:trigger e.tracees[child := x]} :: e.tracees[p := t][child := x] == e.tracees[child := x][p := t];
  }

  lemma KeepMoved(e: Model.Engine, p: Pid, t: TraceeModel.Tracee, child: Pid, c: Result)
    requires p != child
    ensures Model.Keep(Moved(e, p, t), child, c) == Moved(Model.Keep(e, child, c), p, t)
  {
    assert e.tracees[p := t][child := c.tracee] == e.tracees[child := c.tracee][p := t];
  }

  lemma FinishMoved(e: Model.Engine, p: Pid, t: TraceeModel.Tracee, u: TraceeModel.Tracee, child: Pid, a: Answers)
    requires p != child
    ensures Model.FinishAttach(Moved(e, p, t), p, u, child, a) == Model.FinishAttach(e, p, u, child, a)
  {
    hide TraceeModel.Restart, Model.Cleanup, Model.Own, Moved;
    CleanupMoved(e, p, t, child, a);
    var o := Model.Cleanup(e, child, a);
    var r := if o.fault.Some? then Threw(u, o.fault.value) else TraceeModel.Restart(u, a);
    OwnMoved(o.engine, p, t, r);
    OwnMoved(o.engine.(newly := Some(child)), p, t, r);
    NotedMoved(o.engine, p, t, child);
  }

  lemma QuietIsOwn(e: Model.Engine, p: Pid, t: TraceeModel.Tracee, fault: Option<Fault>)
    ensures Model.Own(e, p, Result(t, fault))
         == Model.Outcome(Moved(e, p, t).(quiet := Model.Quieted(Moved(e, p, t).quiet, Result(t, fault))), fault)
  {}

  lemma SameMoved(e: Model.Engine, p: Pid, t: TraceeModel.Tracee)
    requires p in e.tracees && e.tracees[p] == t
    ensures Moved(e, p, t) == e
  {
    assert e.tracees[p := t] == e.tracees;
  }

  lemma NotedMoved(e: Model.Engine, p: Pid, t: TraceeModel.Tracee, child: Pid)
    ensures Moved(e, p, t).(newly := Some(child)) == Moved(e.(newly := Some(child)), p, t)
  {}

  lemma RetireMoved(e: Model.Engine, p: Pid, t: TraceeModel.Tracee, c: Pid)
    requires c != p && c in e.tracees
    ensures c in Moved(e, p, t).tracees && Moved(e, p, t).tracees[c] == e.tracees[c]
    ensures Model.Retire(Moved(e, p, t), c) == Moved(Model.Retire(e, c), p, t)
  {
    assert e.tracees[p := t] - {c} == (e.tracees - {c})[p := t];
  }

  lemma CleanupMoved(e: Model.Engine, p: Pid, t: TraceeModel.Tracee, c: Pid, a: Answers)
    requires c != p
    ensures var o := Model.Cleanup(e, c, a);
      Model.Cleanup(Moved(e, p, t), c, a) == Model.Outcome(Moved(o.engine, p, t), o.fault)
  {
    hide TraceeModel.DoDetach, Model.Retire, Model.Keep;
    if c in e.tracees {
      RetireMoved(e, p, t, c);
      var d := TraceeModel.DoDetach(e.tracees[c], a.cleanedUp);
      KeepMoved(e, p, t, c, d);
      KeptThere(e, c, d);
      RetireMoved(Model.Keep(e, c, d), p, t, c);
    } else {
      assert c !in Moved(e, p, t).tracees;
    }
  }

  lemma KeptThere(e: Model.Engine, c: Pid, d: Result)
    ensures c in Model.Keep(e, c, d).tracees
  {}

  lemma OwnMoved(e: Model.Engine, p: Pid, t: TraceeModel.Tracee, r: Result)
    ensures Model.Own(Moved(e, p, t), p, r) == Model.Own(e, p, r)
  {
    assert e.tracees[p := t][p := r.tracee] == e.tracees[p := r.tracee];
  }

  lemma SyncMoved(e: Model.Engine, p: Pid, t: TraceeModel.Tracee, former: Pid, a: Answers)
    requires p in e.tracees
    ensures var (e1, r) := Model.SyncAfterExec(e, p, t, former, a);
      var (e2, r2) := Model.SyncAfterExec(Moved(e, p, t), p, t, former, a);
      r == r2 && Moved(e1, p, r.tracee) == Moved(e2, p, r.tracee)
  {
    hide Model.Substitute;
    if former in e.tracees && former != p {
      SubstituteMoved(e, p, t, former, a);
    } else {
      var x := if former == p then t else TraceeModel.SetPid(t, p);
      assert e.tracees[p := t][p := x] == e.tracees[p := x];
    }
  }

  /** The answers to the requests made to let go of the former thread. */
  function Release(a: Answers): Answers { a.(detached := a.formerReleased, interrupted := a.formerReleased) }

  function Moved(e: Model.Engine, p: Pid, t: TraceeModel.Tracee): Model.Engine {
    e.(tracees := e.tracees[p := t])
  }

  lemma SubstituteMoved(e: Model.Engine, p: Pid, t: TraceeModel.Tracee, former: Pid, a: Answers)
    requires p in e.tracees && former in e.tracees && former != p
    ensures var (e1, r) := Model.Substitute(e, p, t, former, a);
      var (e2, r2) := Model.Substitute(Moved(e, p, t), p, t, former, a);
      r == r2 && Moved(e1, p, r.tracee) == Moved(e2, p, r.tracee)
  {
    hide TraceeModel.Detach, TraceeModel.ChangeState;
  }
}
