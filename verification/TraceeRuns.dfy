// What holds in every run of one tracee: its system call callbacks are
// bracketed, resumptions belong to interruptions, and its death is told once.
module TraceeRuns {
  import opened Common
  import opened TraceeModel

  // ----- an observer that only sees the callbacks

  /** What a consumer can tell from the callbacks so far: the call that was
      entered but not exited, the call of the latest INTERRUPTED exit that no
      RESUMED entry took up yet, the number of entries and of death notices,
      and whether every entry and exit came in turn (bracketed) and every
      RESUMED entry was owed (matched). Only the very first entry may be a
      resumption nobody saw interrupted: it was recovered from the registers. */
  datatype Seen = Seen(
    open: Option<SysNr>, pending: Option<SysNr>, entries: nat, deaths: nat,
    bracketed: bool, matched: bool)

  function See(s: Seen, c: Callback): Seen {
    match c
    case SyscallEntry(nr, resumed) =>
      Seen(Some(nr), if resumed then None else s.pending, s.entries + 1, s.deaths,
           s.bracketed && s.open == None,
           s.matched && (resumed ==> s.pending == Some(nr) || s.entries == 0))
    case SyscallExit(nr, interrupted) =>
      s.(open := None, pending := if interrupted then Some(nr) else s.pending,
         bracketed := s.bracketed && s.open == Some(nr))
    case Exited(_) => s.(deaths := s.deaths + 1)
    case Disappeared => s.(deaths := s.deaths + 1)
    case _ => s
  }

  function Observe(log: seq<Callback>): Seen {
    if log == [] then Seen(None, None, 0, 0, true, true)
    else See(Observe(log[..|log| - 1]), log[|log| - 1])
  }

  lemma ObserveNext(log: seq<Callback>, c: Callback)
    ensures Observe(log + [c]) == See(Observe(log), c)
  {
    assert (log + [c])[..|log + [c]| - 1] == log;
  }

  // ----- runs

  datatype Step = Step(status: WaitStatus, answers: Answers, notice: Callback)

  /** A tracee together with what the kernel knows: quiet once it was not
      restarted or was detached, exitSeen after its PTRACE_EVENT_EXIT. */
  datatype Run = Run(tracee: Tracee, quiet: bool, exitSeen: bool, dead: bool)

  function Process(t: Tracee, s: Step): Result {
    if NeedsEngine(s.status) then ProcessNotice(t, s.notice, s.answers)
    else ProcessEvent(t, s.status, s.answers)
  }

  /** The run after a step with the given result. */
  function After(r: Run, w: WaitStatus, res: Result): Run {
    Run(res.tracee,
        r.quiet || !res.Ok?() || !Followed(res.tracee),
        r.exitSeen || IsExitEvent(w),
        r.dead || w.Died?)
  }

  function Advance(r: Run, s: Step): Run { After(r, s.status, Process(r.tracee, s)) }

  /** What the kernel may report: a tracee that was not restarted says nothing
      more except its death, and PTRACE_EVENT_EXIT comes at most once, and not
      from a process that is no longer traced. */
  predicate MayReport(r: Run, s: Step) {
    && !r.dead
    && IsNotice(s.notice)
    && (r.quiet ==> s.status.Died? || IsExitEvent(s.status))
    && (IsExitEvent(s.status) ==> !r.exitSeen && Followed(r.tracee))
  }

  function RunAll(r: Run, steps: seq<Step>): Run
    decreases |steps|
  {
    if steps == [] then r else RunAll(Advance(r, steps[0]), steps[1..])
  }

  predicate Possible(r: Run, steps: seq<Step>)
    decreases |steps|
  {
    steps == [] || (MayReport(r, steps[0]) && Possible(Advance(r, steps[0]), steps[1..]))
  }

  // ----- bracketing and resumption

  /** How a tracee's memory of its calls relates to what the consumer saw. */
  predicate Agree(c: Calls, seen: Seen, quiet: bool) {
    && seen.bracketed && seen.matched
    && c.count == seen.entries
    && (c.interrupted.Some? ==> seen.pending == c.interrupted)
    && (!quiet ==> c.current == seen.open && (c.entered <==> c.current.Some?))
  }

  predicate Consistent(r: Run) { Agree(r.tracee.calls, Observe(r.tracee.log), r.quiet) }

  lemma IdentifyAgrees(c: Calls, seen: Seen, info: SyscallInfo, a: Answers)
    requires Agree(c, seen, false) && !c.entered
    ensures var i := IdentifyCall(c.(entered := true), info, a);
      && Agree(i.calls, seen, true)
      && i.calls.current.Some?
      && (i.fault.None? ==> Agree(i.calls.(count := i.calls.count + 1),
                                  See(seen, SyscallEntry(i.calls.current.value, i.resumed)), false))
  {}

  lemma CloseAgrees(c: Calls, seen: Seen, info: SyscallInfo, d: Calls)
    requires Agree(c, seen, false) && c.entered
    requires SameCalls(c.(interrupted := if Interrupts(info) then c.current else c.interrupted), d)
    ensures
      var c1 := c.(entered := false, interrupted := if Interrupts(info) then c.current else c.interrupted);
      var seen1 := See(seen, SyscallExit(c.current.value, Interrupts(info)));
      && Agree(c.(entered := false), seen, true)
      && Agree(c1, seen1, true)
      && Agree(CloseCall(c1, info), seen1, false)
      && Agree(CloseCall(d, info), seen1, true)
  {}

  lemma EntryStopKeeps(r: Run, w: WaitStatus, info: SyscallInfo, a: Answers)
    requires Consistent(r) && !r.quiet && !r.tracee.calls.entered
    ensures Consistent(After(r, w, HandleSystemCallEntry(ChangeState(r.tracee, SyscallEnterStop), info, a)))
  {
    hide IdentifyCall, Deliver, Move, Observe, See;
    var t := ChangeState(r.tracee, SyscallEnterStop);
    IdentifyAgrees(r.tracee.calls, Observe(t.log), info, a);
    var i := IdentifyCall(t.calls, info, a);
    ObserveNext(t.log, SyscallEntry(i.calls.current.value, i.resumed));
  }

  lemma ExitStopKeeps(r: Run, w: WaitStatus, info: SyscallInfo, a: Answers)
    requires Consistent(r) && !r.quiet && r.tracee.calls.entered
    ensures Consistent(After(r, w, HandleSystemCallExit(ChangeState(r.tracee, SyscallExitStop), info, a)))
  {
    hide CloseCall, Interrupts, Deliver, Move, Observe, See;
    var t := ChangeState(r.tracee, SyscallExitStop);
    var c := if Interrupts(info) then t.calls.(interrupted := t.calls.current) else t.calls;
    var exit := SyscallExit(t.calls.current.value, Interrupts(info));
    CloseAgrees(r.tracee.calls, Observe(t.log), info, Deliver(t.(calls := c), exit, a).tracee.calls);
    ObserveNext(t.log, exit);
  }

  /** The handler neither reported nor learned anything about system calls. */
  predicate NoCallActivity(t: Tracee, res: Result) {
    && Observe(res.tracee.log).(deaths := 0) == Observe(t.log).(deaths := 0)
    && SameCalls(t.calls, res.tracee.calls)
    && (res.Ok?() && Followed(res.tracee) ==> res.tracee.calls.entered == t.calls.entered)
  }

  lemma NoticeIsNoActivity(t: Tracee, c: Callback, a: Answers)
    requires !c.SyscallEntry? && !c.SyscallExit?
    ensures NoCallActivity(t, Deliver(t, c, a))
  {
    hide Deliver;
    ObserveNext(t.log, c);
  }

  lemma RestartIsNoActivity(t: Tracee, a: Answers)
    ensures NoCallActivity(t, Restart(t, a))
    ensures Followed(Restart(t, a).tracee) ==> Followed(t)
  {
    hide Deliver, Move, Observe;
    NoticeIsNoActivity(ChangeState(t, Running), Resumed, a);
  }

  lemma SignalIsNoActivity(t: Tracee, s: Signal, a: Answers)
    ensures NoCallActivity(t, HandleSignal(t, s, a))
  {
    hide Deliver, Move, Observe;
    if a.signalInfo.Ok? {
      NoticeIsNoActivity(ChangeState(t, SignalDeliveryStop), Signaled(a.signalInfo.value), a);
    }
  }

  lemma StopEventIsNoActivity(t: Tracee, s: Signal, a: Answers)
    ensures NoCallActivity(t, HandleStopEvent(ChangeState(t, EventStop), s, a))
  {
    hide Deliver, Move, Observe;
    var u := ChangeState(t, EventStop);
    if u.life.waitForAttachStop {
      if a.registers.Ok? {
        var v := MarkAttached(u);
        NoticeIsNoActivity(v.(calls := v.calls.(initial := Some(a.registers.value))), Attached, a);
      }
    } else {
      NoticeIsNoActivity(MarkStopped(u, s), Stopped, a);
    }
  }

  lemma ExitEventIsNoActivity(t: Tracee, a: Answers)
    ensures NoCallActivity(t, HandleExitEvent(ChangeState(t, EventStop), a))
  {
    hide Deliver, Move, Observe;
    var u := ChangeState(t, EventStop);
    NoticeIsNoActivity(u, Exited(true), a);
    NoticeIsNoActivity(u, Exited(false), a);
  }

  lemma DispatchIsNoActivity(t: Tracee, w: WaitStatus, a: Answers)
    requires !w.Died? && !NeedsEngine(w) && !w.SyscallTrap?
    ensures NoCallActivity(t, Dispatch(t, w, a))
  {
    hide HandleSignal, HandleStopEvent, HandleExitEvent, Move, Observe;
    match w
    case EventTrap(StopEvent, s) => StopEventIsNoActivity(t, s, a);
    case EventTrap(ExitEvent, _) => ExitEventIsNoActivity(t, a);
    case SignalTrap(s) => SignalIsNoActivity(t, s, a);
    case StoppedUntraced(s) => SignalIsNoActivity(t, s, a);
    case _ =>
  }

  /** A handler that keeps a run consistent keeps it so through the restart. */
  lemma ThenRestart(r: Run, w: WaitStatus, res: Result, a: Answers)
    requires Consistent(After(r, w, res)) && res.Ok?()
    ensures Consistent(After(r, w, Restart(res.tracee, a)))
  {
    hide Restart, Observe;
    RestartIsNoActivity(res.tracee, a);
  }

  lemma NoActivityKeeps(r: Run, w: WaitStatus, res: Result)
    requires Consistent(r) && NoCallActivity(r.tracee, res)
    ensures Consistent(After(r, w, res))
  {
    hide Observe;
  }

  lemma SyscallTrapKeeps(r: Run, a: Answers)
    requires Consistent(r) && !r.quiet
    ensures Consistent(After(r, SyscallTrap, HandleSystemCall(r.tracee, a)))
  {
    hide HandleSystemCallEntry, HandleSystemCallExit, Observe, Move;
    if a.info.Ok? {
      if r.tracee.calls.entered {
        ExitStopKeeps(r, SyscallTrap, a.info.value, a);
      } else {
        EntryStopKeeps(r, SyscallTrap, a.info.value, a);
      }
    }
  }

  lemma DispatchKeeps(r: Run, w: WaitStatus, a: Answers)
    requires Consistent(r) && (!r.quiet || IsExitEvent(w)) && !w.Died? && !NeedsEngine(w)
    ensures Consistent(After(r, w, Dispatch(r.tracee, w, a)))
  {
    if w.SyscallTrap? {
      hide HandleSystemCall, Observe;
      SyscallTrapKeeps(r, a);
    } else {
      hide Dispatch, Observe;
      DispatchIsNoActivity(r.tracee, w, a);
      NoActivityKeeps(r, w, Dispatch(r.tracee, w, a));
    }
  }

  lemma DeathIsNoActivity(t: Tracee, a: Answers)
    ensures NoCallActivity(t, HandleDeath(t, a))
  {
    hide Deliver, Move, Observe;
    NoticeIsNoActivity(ChangeState(t, Dead), Disappeared, a);
  }

  lemma ProcessNoticeKeeps(r: Run, w: WaitStatus, notice: Callback, a: Answers)
    requires Consistent(r) && !r.quiet && IsNotice(notice)
    ensures Consistent(After(r, w, ProcessNotice(r.tracee, notice, a)))
  {
    hide Deliver, Move, Observe, DoDetach, Restart;
    var t := ChangeState(ResetSignal(r.tracee), EventStop);
    NoticeIsNoActivity(t, notice, a);
    var res := Deliver(t, notice, a);
    if !r.tracee.life.detachAtNextStop && a.eventPid.Ok? && res.Ok?() {
      NoActivityKeeps(r.(tracee := t), w, res);
      ThenRestart(r.(tracee := t), w, res, a);
    }
  }

  /** Every step the kernel may report keeps a run consistent. */
  lemma StepKeeps(r: Run, s: Step)
    requires Consistent(r) && MayReport(r, s)
    ensures Consistent(Advance(r, s))
  {
    hide Dispatch, DoDetach, Restart, HandleDeath, ProcessNotice, Observe;
    var w, a, r0 := s.status, s.answers, r.(tracee := ResetSignal(r.tracee));
    if NeedsEngine(w) {
      ProcessNoticeKeeps(r, w, s.notice, a);
    } else if w.Died? {
      DeathIsNoActivity(r0.tracee, a);
    } else if !(IsTrap(w) && r0.tracee.life.detachAtNextStop) {
      DispatchKeeps(r0, w, a);
      var res := Dispatch(r0.tracee, w, a);
      if res.Ok?() { ThenRestart(r0, w, res, a); }
    }
  }

  lemma {:induction false} RunKeeps(r: Run, steps: seq<Step>)
    requires Consistent(r) && Possible(r, steps)
    ensures Consistent(RunAll(r, steps))
    decreases |steps|
  {
    if steps != [] {
      hide Consistent, Advance, MayReport;
      StepKeeps(r, steps[0]);
      RunKeeps(Advance(r, steps[0]), steps[1..]);
    }
  }

  // ----- what the observer's verdicts mean, in terms of positions

  predicate IsCallCallback(c: Callback) { c.SyscallEntry? || c.SyscallExit? }

  /** Position of the last system call callback, or -1. */
  function LastCall(log: seq<Callback>): (i: int)
    ensures -1 <= i < |log|
    ensures i >= 0 ==> IsCallCallback(log[i])
    ensures forall k | i < k < |log| :: !IsCallCallback(log[k])
  {
    if log == [] then -1
    else if IsCallCallback(log[|log| - 1]) then |log| - 1
    else LastCall(log[..|log| - 1])
  }

  predicate InTurn(log: seq<Callback>, k: nat)
    requires k < |log|
  {
    var i := LastCall(log[..k]);
    && (log[k].SyscallEntry? ==> i < 0 || log[i].SyscallExit?)
    && (log[k].SyscallExit? ==> i >= 0 && log[i].SyscallEntry? && log[i].nr == log[k].nr)
  }

  /** Entries and exits strictly alternate, starting with an entry, and an exit
      is for the call its entry named. */
  ghost predicate Alternates(log: seq<Callback>) { forall k | 0 <= k < |log| :: InTurn(log, k) }

  predicate IsResumption(c: Callback) { c.SyscallEntry? && c.resumed }

  predicate IsInterruption(c: Callback) { c.SyscallExit? && c.interrupted }

  /** Position of the last INTERRUPTED exit or RESUMED entry, or -1. */
  function LastMark(log: seq<Callback>): (i: int)
    ensures -1 <= i < |log|
    ensures i >= 0 ==> IsResumption(log[i]) || IsInterruption(log[i])
    ensures forall k | i < k < |log| :: !IsResumption(log[k]) && !IsInterruption(log[k])
  {
    if log == [] then -1
    else if IsResumption(log[|log| - 1]) || IsInterruption(log[|log| - 1]) then |log| - 1
    else LastMark(log[..|log| - 1])
  }

  /** Each RESUMED entry but a recovered first one takes up the most recent
      INTERRUPTED exit: same call, and no other RESUMED entry in between. */
  ghost predicate ResumesOwed(log: seq<Callback>) {
    forall k | 0 <= k < |log| && IsResumption(log[k]) :: Owed(log[..k], log[k].nr)
  }

  ghost predicate Owed(before: seq<Callback>, nr: SysNr) {
    var i := LastMark(before);
    || (i >= 0 && IsInterruption(before[i]) && before[i].nr == nr)
    || forall j | 0 <= j < |before| :: !before[j].SyscallEntry?
  }

  lemma {:induction false} OpenIsLastCall(log: seq<Callback>)
    ensures var i := LastCall(log);
      Observe(log).open == if i >= 0 && log[i].SyscallEntry? then Some(log[i].nr) else None
  {
    if log != [] { OpenIsLastCall(log[..|log| - 1]); }
  }

  lemma {:induction false} PendingIsLastMark(log: seq<Callback>)
    ensures var i := LastMark(log);
      Observe(log).pending == if i >= 0 && IsInterruption(log[i]) then Some(log[i].nr) else None
  {
    if log != [] { PendingIsLastMark(log[..|log| - 1]); }
  }

  lemma {:induction false} NoEntriesYet(log: seq<Callback>)
    ensures Observe(log).entries == 0 <==> forall j | 0 <= j < |log| :: !log[j].SyscallEntry?
  {
    if log != [] { NoEntriesYet(log[..|log| - 1]); }
  }

  lemma InTurnBefore(log: seq<Callback>, n: nat, k: nat)
    requires k < n <= |log|
    ensures InTurn(log[..n], k) == InTurn(log, k)
  {
    assert log[..n][..k] == log[..k];
  }

  lemma {:induction false} BracketedMeansAlternates(log: seq<Callback>)
    ensures Observe(log).bracketed <==> Alternates(log)
  {
    if log != [] {
      hide InTurn, See;
      var n, before := |log| - 1, log[..|log| - 1];
      BracketedMeansAlternates(before);
      forall k | 0 <= k < n ensures InTurn(before, k) == InTurn(log, k) { InTurnBefore(log, n, k); }
      LastInTurn(log);
      assert Alternates(log) <==> Alternates(before) && InTurn(log, n);
    }
  }

  lemma LastInTurn(log: seq<Callback>)
    requires log != []
    ensures Observe(log).bracketed <==> Observe(log[..|log| - 1]).bracketed && InTurn(log, |log| - 1)
  {
    OpenIsLastCall(log[..|log| - 1]);
  }

  lemma {:induction false} MatchedMeansOwed(log: seq<Callback>)
    ensures Observe(log).matched <==> ResumesOwed(log)
  {
    if log != [] {
      var n, before := |log| - 1, log[..|log| - 1];
      MatchedMeansOwed(before);
      if IsResumption(log[n]) {
        PendingIsLastMark(before);
        NoEntriesYet(before);
        assert Observe(log).matched <==> ResumesOwed(before) && Owed(before, log[n].nr);
      }
      assert forall k | 0 <= k < n :: before[..k] == log[..k];
    }
  }

  function NewRun(t: Tracee): Run { Run(t, false, false, false) }

  /** Main result on system call callbacks, for every run of one tracee. */
  lemma CallbacksInEveryRun(id: nat, pid: Pid, isChild: bool, steps: seq<Step>)
    requires Possible(NewRun(Attaching(id, pid, isChild)), steps)
    ensures var r := RunAll(NewRun(Attaching(id, pid, isChild)), steps);
      && Alternates(r.tracee.log)
      && ResumesOwed(r.tracee.log)
      && (!r.quiet ==> (r.tracee.calls.entered <==> r.tracee.calls.current.Some?))
  {
    RunKeeps(NewRun(Attaching(id, pid, isChild)), steps);
    var r := RunAll(NewRun(Attaching(id, pid, isChild)), steps);
    BracketedMeansAlternates(r.tracee.log);
    MatchedMeansOwed(r.tracee.log);
  }

  /** A stop of the wrong kind raises the mismatch error and is not reported. */
  lemma WrongStopIsNeverReported(t: Tracee, a: Answers)
    ensures var res := HandleSystemCall(t, a);
      var wrong := a.info.Ok? && a.info.value.kind != (if t.calls.entered then ExitStop else EntryStop);
      && (wrong ==> res == Threw(t, Internal))
      && (res.tracee.log != t.log ==>
            !wrong && a.info.Ok? && |res.tracee.log| == |t.log| + 1
            && (if t.calls.entered then res.tracee.log[|t.log|].SyscallExit?
                else res.tracee.log[|t.log|].SyscallEntry?))
  {
    hide Deliver, Move, IdentifyCall, CloseCall;
  }
}