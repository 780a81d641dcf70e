// Interruptions and resumptions as the consumer is told of them, for every run
// of one tracee: what an entry stop is reported as, given the stops before it.
module TraceeResumes {
  import opened Common
  import opened TraceeModel
  import opened TraceeRuns

  // ----- what was told, and for which stop

  /** The first callback a step brought, with what the kernel answered in it. */
  datatype Told = Told(callback: Callback, answers: Answers)

  function Heard(r: Run, s: Step): seq<Told> {
    var (before, after) := (r.tracee.log, Advance(r, s).tracee.log);
    if |after| > |before| then [Told(after[|before|], s.answers)] else []
  }

  function Trail(r: Run, steps: seq<Step>): seq<Told>
    decreases |steps|
  {
    if steps == [] then [] else Heard(r, steps[0]) + Trail(Advance(r, steps[0]), steps[1..])
  }

  predicate IsCall(t: Told) { IsCallCallback(t.callback) }

  predicate TellsInterruption(t: Told) { IsInterruption(t.callback) }

  /** The return of a signal handler, as far as it can be told from a call. */
  predicate TellsSigreturn(t: Told) { t.callback.SyscallExit? && ReturnsFromHandler(t.callback.nr) }

  predicate ReturnsFromHandler(nr: SysNr) { nr in {RtSigreturn, Sigreturn} }

  /** It fails with EINTR. */
  predicate WithEintr(t: Told) { t.answers.info.Ok? && t.answers.info.value.errno == Some(4) }

  /** The kernel takes up a call by itself. */
  predicate TellsRestart(t: Told) {
    t.callback.SyscallEntry? && t.answers.info.Ok? && t.answers.info.value.nr == RestartSyscall
  }

  /** Where the consumer stands: the call it was told is entered, an interrupted
      one whose end it has not seen, and whether a signal handler has returned
      since an ordinary call last settled one. */
  datatype Debt = Debt(inside: Option<SysNr>, call: Option<SysNr>, returned: bool)

  function Owe(d: Debt, t: Told): Debt {
    match t.callback
    case SyscallExit(nr, true) => Debt(None, Some(nr), d.returned || ReturnsFromHandler(nr))
    case SyscallExit(nr, false) =>
      if d.call.None? || !ReturnsFromHandler(nr) then d.(inside := None)
      else if WithEintr(t) then Debt(None, None, d.returned)
      else Debt(None, d.call, true)
    case SyscallEntry(nr, _) =>
      if TellsRestart(t) then Debt(Some(nr), None, d.returned)
      else if d.call.Some? && d.returned then Debt(Some(nr), None, false)
      else d.(inside := Some(nr))
    case _ => d
  }

  function Owing(trail: seq<Told>): Debt {
    if trail == [] then Debt(None, None, false) else Owe(Owing(trail[..|trail| - 1]), trail[|trail| - 1])
  }

  /** The registers that were read when the tracee was attached. */
  function Asked(trail: seq<Told>): Option<(Abi, SysNr)> {
    if trail == [] then None
    else
      var t := trail[|trail| - 1];
      if t.callback.Attached? && t.answers.registers.Ok? then Some(t.answers.registers.value)
      else Asked(trail[..|trail| - 1])
  }

  /** Nothing is said about a call before the first entry. */
  predicate EntryFirst(trail: seq<Told>) { NoEntry(trail) ==> forall t | t in trail :: !t.callback.SyscallExit? }

  predicate NoEntry(trail: seq<Told>) { forall t | t in trail :: !t.callback.SyscallEntry? }

  lemma Appended(trail: seq<Told>, t: Told)
    ensures Owing(trail + [t]) == Owe(Owing(trail), t)
    ensures Asked(trail + [t])
         == if t.callback.Attached? && t.answers.registers.Ok? then Some(t.answers.registers.value) else Asked(trail)
    ensures NoEntry(trail + [t]) <==> NoEntry(trail) && !t.callback.SyscallEntry?
  {
    assert (trail + [t])[..|trail + [t]| - 1] == trail;
  }

  lemma {:induction false} InsideMeansEntry(trail: seq<Told>)
    ensures Owing(trail).inside.Some? ==> !NoEntry(trail)
  {
    if trail != [] { InsideMeansEntry(trail[..|trail| - 1]); }
  }

  // ----- the tracee remembers what is owed

  /** As long as the tracee may report, its memory is that of the trail. */
  predicate Remembers(r: Run, trail: seq<Told>) {
    && Consistent(r) && EntryFirst(trail)
    && (!r.quiet ==>
          var c := r.tracee.calls;
          && Debt(c.current, c.interrupted, c.seenSigreturn) == Owing(trail)
          && c.initial == Asked(trail) && (c.count == 0 <==> NoEntry(trail)))
  }

  /** What is new in a log is not about system calls. */
  predicate NoNews(before: seq<Callback>, after: seq<Callback>) {
    before <= after
    && forall k | |before| <= k < |after| :: !IsCallCallback(after[k]) && !after[k].Attached?
  }

  /** A handler that neither tells nor learns anything about system calls. */
  predicate Plain(t: Tracee, r: Result) {
    NoNews(t.log, r.tracee.log) && (r.Ok?() && Followed(r.tracee) ==> r.tracee.calls == t.calls)
  }

  lemma PlainDeliver(t: Tracee, c: Callback, a: Answers)
    requires !IsCallCallback(c) && !c.Attached?
    ensures Plain(t, Deliver(t, c, a))
  {
    hide Detach;
  }

  lemma PlainDoDetach(t: Tracee, r: Request)
    ensures Plain(t, DoDetach(t, r))
  {
    hide ChangeState, Forget;
  }

  lemma CallsKept(t: Tracee, s: State)
    requires s != SyscallEnterStop && s != SyscallExitStop
    ensures ChangeState(t, s).calls == t.calls && ChangeState(t, s).log == t.log
    ensures ChangeState(t, s).life.state == s
  {}

  lemma StillWaits(t: Tracee)
    ensures ChangeState(t, EventStop).life.waitForAttachStop == t.life.waitForAttachStop
  {}

  lemma PlainRestart(t: Tracee, a: Answers)
    ensures Plain(t, Restart(t, a)) && (Followed(Restart(t, a).tracee) ==> Followed(t))
  {
    hide Deliver, ChangeState;
    CallsKept(t, Running);
    PlainDeliver(ChangeState(t, Running), Resumed, a);
  }

  lemma PlainThen(t: Tracee, r: Result, a: Answers)
    requires Plain(t, r) && r.Ok?()
    ensures Plain(t, Restart(r.tracee, a))
  {
    hide Restart;
    PlainRestart(r.tracee, a);
  }

  lemma PlainSignal(t: Tracee, s: Signal, a: Answers)
    ensures Plain(t, HandleSignal(t, s, a))
  {
    hide Deliver, ChangeState;
    CallsKept(t, SignalDeliveryStop);
    if a.signalInfo.Ok? {
      PlainDeliver(ChangeState(t, SignalDeliveryStop), Signaled(a.signalInfo.value), a);
    }
  }

  lemma PlainDispatch(t: Tracee, w: WaitStatus, a: Answers)
    requires !w.Died? && !NeedsEngine(w) && !w.SyscallTrap?
    requires !(IsStopEvent(w) && t.life.waitForAttachStop)
    ensures Plain(t, Dispatch(t, w, a))
  {
    hide Deliver, ChangeState, HandleSignal;
    var u := ChangeState(t, EventStop);
    CallsKept(t, EventStop);
    CallsKept(u, GroupStop);
    StillWaits(t);
    match w
    case EventTrap(StopEvent, s) => PlainDeliver(MarkStopped(u, s), Stopped, a);
    case EventTrap(ExitEvent, _) =>
      PlainDeliver(u, Exited(true), a);
      PlainDeliver(u, Exited(false), a);
    case SignalTrap(s) => PlainSignal(t, s, a);
    case StoppedUntraced(s) => PlainSignal(t, s, a);
    case _ =>
  }

  lemma PlainNotice(t: Tracee, notice: Callback, a: Answers)
    requires IsNotice(notice)
    ensures Plain(t, ProcessNotice(t, notice, a))
  {
    hide Deliver, DoDetach, Restart, ChangeState;
    var t0 := ResetSignal(t);
    PlainDoDetach(t0, a.detached);
    CallsKept(t0, EventStop);
    var u := ChangeState(t0, EventStop);
    PlainDeliver(u, notice, a);
    if Deliver(u, notice, a).Ok?() { PlainThen(u, Deliver(u, notice, a), a); }
  }

  /** The stops that are about system calls, and the one at which registers are read. */
  predicate Matters(t: Tracee, s: Step) {
    !t.life.detachAtNextStop && (s.status.SyscallTrap? || (IsStopEvent(s.status) && t.life.waitForAttachStop))
  }

  lemma PlainStep(t: Tracee, s: Step)
    requires IsNotice(s.notice) && !Matters(t, s)
    ensures Plain(t, Process(t, s))
  {
    hide Dispatch, DoDetach, Restart, ProcessNotice, Deliver, ChangeState;
    var t0, a, w := ResetSignal(t), s.answers, s.status;
    if NeedsEngine(w) {
      PlainNotice(t, s.notice, a);
    } else if w.Died? {
      CallsKept(t0, Dead);
      PlainDeliver(ChangeState(t0, Dead), Disappeared, a);
    } else if IsTrap(w) && t0.life.detachAtNextStop {
      PlainDoDetach(t0, a.detached);
    } else {
      PlainDispatch(t0, w, a);
      if Dispatch(t0, w, a).Ok?() { PlainThen(t0, Dispatch(t0, w, a), a); }
    }
  }

  lemma PlainKeeps(r: Run, s: Step, trail: seq<Told>)
    requires Remembers(r, trail) && MayReport(r, s) && !Matters(r.tracee, s)
    ensures Remembers(Advance(r, s), trail + Heard(r, s))
  {
    hide Process, Consistent, Owing, Asked;
    PlainStep(r.tracee, s);
    StepKeeps(r, s);
    if Heard(r, s) == [] {
      assert trail + [] == trail;
    } else {
      Appended(trail, Heard(r, s)[0]);
    }
  }

  // ----- system call stops

  /** The number a call is reported under: brk(2) has one of its own. */
  function NameOf(nr: SysNr): SysNr { if nr == Brk then Break else nr }

  /** The first call is restart_syscall, and the initial registers tell which. */
  predicate Recovers(d: Debt, asked: Option<(Abi, SysNr)>, first: bool, info: SyscallInfo) {
    && info.nr == RestartSyscall && d.call.None? && first
    && asked.Some? && asked.value.0 == info.abi && asked.value.1 != RestartSyscall
  }

  /** What an entry stop is to be told as: restart_syscall takes up the call that
      is owed, or as the very first one the call in the initial registers; any
      other call is a resumption iff it is the one owed and a handler returned. */
  function Expected(d: Debt, asked: Option<(Abi, SysNr)>, first: bool, info: SyscallInfo): Callback {
    var nr := NameOf(info.nr);
    if info.nr != RestartSyscall then SyscallEntry(nr, d.returned && d.call == Some(nr))
    else if d.call.Some? then SyscallEntry(d.call.value, true)
    else if Recovers(d, asked, first, info) then SyscallEntry(NameOf(asked.value.1), true)
    else SyscallEntry(RestartSyscall, false)
  }

  lemma IdentifiedAsExpected(c: Calls, trail: seq<Told>, info: SyscallInfo, a: Answers)
    requires Debt(c.current, c.interrupted, c.seenSigreturn) == Owing(trail) && c.initial == Asked(trail)
    requires c.count == 0 <==> NoEntry(trail)
    ensures var i := IdentifyCall(c, info, a);
      && i.calls.initial == c.initial && i.calls.count == c.count
      && (i.fault.None? && a.info == Ok(info) ==>
            var entry := SyscallEntry(i.calls.current.value, i.resumed);
            && entry == Expected(Owing(trail), Asked(trail), NoEntry(trail), info)
            && Debt(i.calls.current, i.calls.interrupted, i.calls.seenSigreturn) == Owe(Owing(trail), Told(entry, a)))
      && (i.fault.None?
          <==> info.archTraceable && (Recovers(Owing(trail), Asked(trail), NoEntry(trail), info) ==> a.callRecovered.Ok?))
  {}

  /** A handler that told one thing about system calls, or nothing and failed. */
  predicate Tells(t: Tracee, r: Result, c: Callback, calls: Calls) {
    && (r.tracee.log == t.log || r.tracee.log == t.log + [c])
    && (r.Ok?() && Followed(r.tracee) ==> r.tracee.log == t.log + [c] && r.tracee.calls == calls)
    && r.tracee.life.state != GroupStop
  }

  lemma NotInGroupStop(t: Tracee, c: Callback, a: Answers)
    requires t.life.state != GroupStop
    ensures Deliver(t, c, a).tracee.life.state != GroupStop
  {}

  lemma TellsThen(t: Tracee, r: Result, c: Callback, calls: Calls, a: Answers)
    requires Tells(t, r, c, calls)
    ensures Tells(t, if r.Ok?() then Restart(r.tracee, a) else r, c, calls)
  {
    hide ChangeState;
    CallsKept(r.tracee, Running);
  }

  lemma EntryTells(t: Tracee, info: SyscallInfo, a: Answers)
    requires t.life.state != GroupStop
    ensures var i := IdentifyCall(t.calls, info, a);
      var entry := SyscallEntry(i.calls.current.value, i.resumed);
      var r := HandleSystemCallEntry(t, info, a);
      && Tells(t, r, entry, i.calls.(count := i.calls.count + 1))
      && (r.tracee.log != t.log ==> i.fault.None?)
      && (i.fault.None? && a.callCreated.Ok? && a.entryFilled.Ok? <==> r.tracee.log == t.log + [entry])
  {
    hide Deliver, IdentifyCall;
    var i := IdentifyCall(t.calls, info, a);
    NotInGroupStop(t.(calls := i.calls.(count := i.calls.count + 1)), SyscallEntry(i.calls.current.value, i.resumed), a);
  }

  lemma ExitTells(t: Tracee, info: SyscallInfo, a: Answers)
    requires t.life.state != GroupStop && t.calls.current.Some?
    ensures var c := if Interrupts(info) then t.calls.(interrupted := t.calls.current) else t.calls;
      var exit := SyscallExit(t.calls.current.value, Interrupts(info));
      var r := HandleSystemCallExit(t, info, a);
      && Tells(t, r, exit, CloseCall(c, info))
      && (a.exitFilled.Ok? <==> r.tracee.log == t.log + [exit])
  {
    hide Deliver, CloseCall, Interrupts;
    var c := if Interrupts(info) then t.calls.(interrupted := t.calls.current) else t.calls;
    NotInGroupStop(t.(calls := c), SyscallExit(t.calls.current.value, Interrupts(info)), a);
  }

  lemma ClosedAsOwed(c: Calls, trail: seq<Told>, info: SyscallInfo, a: Answers)
    requires Debt(c.current, c.interrupted, c.seenSigreturn) == Owing(trail) && c.current.Some? && a.info == Ok(info)
    ensures var c1 := if Interrupts(info) then c.(interrupted := c.current) else c;
      var d := CloseCall(c1, info);
      && Debt(d.current, d.interrupted, d.seenSigreturn)
         == Owe(Owing(trail), Told(SyscallExit(c.current.value, Interrupts(info)), a))
      && d.initial == c.initial && d.count == c.count
  {}

  lemma EnteredStop(t: Tracee)
    ensures ChangeState(t, SyscallEnterStop).life.state == SyscallEnterStop
    ensures ChangeState(t, SyscallEnterStop).calls == t.calls.(entered := true)
    ensures ChangeState(t, SyscallExitStop).life.state == SyscallExitStop
    ensures ChangeState(t, SyscallExitStop).calls == t.calls.(entered := false)
    ensures ChangeState(t, SyscallEnterStop).log == t.log == ChangeState(t, SyscallExitStop).log
  {}

  /** The codes with which the kernel marks a call that it will take up again. */
  predicate IsRestartCode(errno: Option<nat>) { errno.Some? && 512 <= errno.value <= 516 }

  /** What a system call stop is to be told as. */
  function Due(trail: seq<Told>, info: SyscallInfo): Callback {
    if Owing(trail).inside.Some? then SyscallExit(Owing(trail).inside.value, IsRestartCode(info.errno))
    else Expected(Owing(trail), Asked(trail), NoEntry(trail), info)
  }

  /** The kind of stop that is due, and all that is needed to tell it is there. */
  predicate Reports(trail: seq<Told>, a: Answers) {
    a.info.Ok? &&
    var (d, info) := (Owing(trail), a.info.value);
    if d.inside.Some? then info.kind == ExitStop && a.exitFilled.Ok?
    else && info.kind == EntryStop && info.archKnown && a.callCreated.Ok? && info.archTraceable
         && (Recovers(d, Asked(trail), NoEntry(trail), info) ==> a.callRecovered.Ok?) && a.entryFilled.Ok?
  }

  lemma TrapTells(r: Run, trail: seq<Told>, a: Answers)
    requires Remembers(r, trail) && !r.quiet
    ensures var t := r.tracee;
      var res := HandleSystemCall(t, a);
      if a.info.Err? then !res.Ok?() && res.tracee.log == t.log
      else
        var due := Due(trail, a.info.value);
        var d := Owe(Owing(trail), Told(due, a));
        && (res.tracee.log != t.log ==> res.tracee.log == t.log + [due])
        && (res.Ok?() && Followed(res.tracee) ==>
              var c := res.tracee.calls;
              && res.tracee.log == t.log + [due] && Debt(c.current, c.interrupted, c.seenSigreturn) == d
              && c.initial == t.calls.initial
              && c.count == t.calls.count + (if Owing(trail).inside.Some? then 0 else 1))
        && (res.Ok?() ==> res.tracee.life.state != GroupStop)
        && (Reports(trail, a) <==> res.tracee.log == t.log + [due])
  {
    hide HandleSystemCallEntry, HandleSystemCallExit, IdentifyCall, CloseCall, Expected, Owe, Observe, ChangeState;
    if a.info.Ok? {
      var info := a.info.value;
      EnteredStop(r.tracee);
      if r.tracee.calls.entered {
        ExitTells(ChangeState(r.tracee, SyscallExitStop), info, a);
        ClosedAsOwed(r.tracee.calls.(entered := false), trail, info, a);
      } else {
        EntryTells(ChangeState(r.tracee, SyscallEnterStop), info, a);
        IdentifiedAsExpected(r.tracee.calls.(entered := true), trail, info, a);
      }
    }
  }

  lemma RestartTellsNothing(t: Tracee, a: Answers)
    requires t.life.state != GroupStop
    ensures Restart(t, a).tracee.log == t.log
    ensures Restart(t, a).Ok?() && Followed(Restart(t, a).tracee) ==> Restart(t, a).tracee.calls == t.calls && Followed(t)
  {
    hide ChangeState;
    CallsKept(t, Running);
  }

  /** A system call stop in any run: it is reported as the trail says. */
  lemma TrapKeeps(r: Run, s: Step, trail: seq<Told>)
    requires Remembers(r, trail) && MayReport(r, s) && s.status.SyscallTrap? && !r.tracee.life.detachAtNextStop
    ensures Remembers(Advance(r, s), trail + Heard(r, s))
    ensures var (t, after) := (r.tracee, Advance(r, s).tracee);
      && (after.log != t.log ==>
            s.answers.info.Ok? && after.log == t.log + [Due(trail, s.answers.info.value)])
      && (Reports(trail, s.answers) <==> after.log != t.log)
  {
    hide HandleSystemCall, Restart, Owing, Asked, Consistent, Owe, Due, Observe, NoEntry;
    var t, a := ResetSignal(r.tracee), s.answers;
    StepKeeps(r, s);
    assert Remembers(r.(tracee := t), trail) by { ResetRemembers(r, trail); }
    TrapTells(r.(tracee := t), trail, a);
    var res := HandleSystemCall(t, a);
    if res.Ok?() { RestartTellsNothing(res.tracee, a); }
    if Heard(r, s) == [] {
      assert trail + [] == trail;
    } else {
      var due := Due(trail, a.info.value);
      assert (t.log + [due])[|t.log|] == due;
      Appended(trail, Told(due, a));
      DueIsEntry(trail, a.info.value);
      InsideMeansEntry(trail);
    }
  }

  lemma ResetRemembers(r: Run, trail: seq<Told>)
    requires Remembers(r, trail)
    ensures Remembers(r.(tracee := ResetSignal(r.tracee)), trail)
  {}

  lemma DueIsEntry(trail: seq<Told>, info: SyscallInfo)
    ensures Due(trail, info).SyscallEntry? <==> Owing(trail).inside.None?
    ensures !Due(trail, info).Attached?
  {}

  lemma AttachTells(t: Tracee, a: Answers)
    requires t.life.waitForAttachStop && t.life.state != GroupStop
    ensures var r := HandleAttached(t, a);
      && (r.tracee.log == t.log || (r.tracee.log == t.log + [Attached] && a.registers.Ok?))
      && (r.Ok?() && Followed(r.tracee) ==>
            && r.tracee.log == t.log + [Attached] && a.registers.Ok?
            && r.tracee.calls == t.calls.(initial := Some(a.registers.value)))
      && (r.Ok?() ==> r.tracee.life.state != GroupStop)
  {
    hide Deliver;
    if a.registers.Ok? {
      var v := MarkAttached(t);
      NotInGroupStop(v.(calls := v.calls.(initial := Some(a.registers.value))), Attached, a);
    }
  }

  lemma AttachKeeps(r: Run, s: Step, trail: seq<Told>)
    requires Remembers(r, trail) && MayReport(r, s) && IsStopEvent(s.status)
    requires r.tracee.life.waitForAttachStop && !r.tracee.life.detachAtNextStop
    ensures Remembers(Advance(r, s), trail + Heard(r, s))
  {
    hide HandleAttached, Restart, Owing, Asked, Consistent, NoEntry, ChangeState;
    var t, a := ResetSignal(r.tracee), s.answers;
    var u := ChangeState(t, EventStop);
    StepKeeps(r, s);
    CallsKept(t, EventStop);
    StillWaits(t);
    AttachTells(u, a);
    var res := HandleAttached(u, a);
    if res.Ok?() { RestartTellsNothing(res.tracee, a); }
    if Heard(r, s) == [] {
      assert trail + [] == trail;
    } else {
      assert (t.log + [Attached])[|t.log|] == Attached;
      Appended(trail, Told(Attached, a));
    }
  }

  lemma StepRemembers(r: Run, s: Step, trail: seq<Told>)
    requires Remembers(r, trail) && MayReport(r, s)
    ensures Remembers(Advance(r, s), trail + Heard(r, s))
  {
    hide Remembers, MayReport, Advance;
    if !Matters(r.tracee, s) {
      PlainKeeps(r, s, trail);
    } else if s.status.SyscallTrap? {
      TrapKeeps(r, s, trail);
    } else {
      AttachKeeps(r, s, trail);
    }
  }

  lemma {:induction false} RunRemembers(r: Run, steps: seq<Step>, trail: seq<Told>)
    requires Remembers(r, trail) && Possible(r, steps)
    ensures Remembers(RunAll(r, steps), trail + Trail(r, steps))
    decreases |steps|
  {
    if steps == [] {
      assert trail + [] == trail;
    } else {
      hide Remembers, MayReport, Advance, Heard;
      var r1 := Advance(r, steps[0]);
      StepRemembers(r, steps[0], trail);
      RunRemembers(r1, steps[1..], trail + Heard(r, steps[0]));
      assert trail + Heard(r, steps[0]) + Trail(r1, steps[1..]) == trail + (Heard(r, steps[0]) + Trail(r1, steps[1..]));
    }
  }

  // ----- what every run tells

  function Start(id: nat, pid: Pid, isChild: bool): Run { NewRun(Attaching(id, pid, isChild)) }

  /** A system call stop that comes next in a run, with no detach pending. */
  predicate NextTrap(r: Run, s: Step) {
    MayReport(r, s) && s.status.SyscallTrap? && !r.tracee.life.detachAtNextStop
  }

  lemma StartRemembers(id: nat, pid: Pid, isChild: bool, steps: seq<Step>)
    requires Possible(Start(id, pid, isChild), steps)
    ensures Remembers(RunAll(Start(id, pid, isChild), steps), Trail(Start(id, pid, isChild), steps))
  {
    var r := Start(id, pid, isChild);
    RunRemembers(r, steps, []);
    assert [] + Trail(r, steps) == Trail(r, steps);
  }

  /** Main result on what is reported, for every run: a system call stop is told
      as what is due exactly if it is of the kind that is due and all that is needed
      to tell it is there, and else not at all. */
  lemma StopIsToldAsDue(id: nat, pid: Pid, isChild: bool, steps: seq<Step>, s: Step)
    requires Possible(Start(id, pid, isChild), steps) && NextTrap(RunAll(Start(id, pid, isChild), steps), s)
    ensures var (r, trail) := (RunAll(Start(id, pid, isChild), steps), Trail(Start(id, pid, isChild), steps));
      var (before, after) := (r.tracee.log, Advance(r, s).tracee.log);
      after == before + if Reports(trail, s.answers) then [Due(trail, s.answers.info.value)] else []
  {
    hide Remembers, Advance, Due;
    StartRemembers(id, pid, isChild, steps);
    TrapKeeps(RunAll(Start(id, pid, isChild), steps), s, Trail(Start(id, pid, isChild), steps));
    var before := RunAll(Start(id, pid, isChild), steps).tracee.log;
    assert before + [] == before;
  }

  // ----- what is due, by what happened

  predicate NoCalls(trail: seq<Told>) { forall t | t in trail :: !IsCall(t) }

  /** Calls that a signal handler makes, or anyone: none is interrupted, none is a
      sigreturn, and the kernel takes none up. */
  predicate Ordinary(trail: seq<Told>) {
    forall t | t in trail :: !TellsInterruption(t) && !TellsSigreturn(t) && !TellsRestart(t)
  }

  lemma OneMore(trail: seq<Told>, more: seq<Told>)
    requires more != []
    ensures var n := |more| - 1;
      && Owing(trail + more) == Owe(Owing(trail + more[..n]), more[n])
      && (NoEntry(more) <==> NoEntry(more[..n]) && !more[n].callback.SyscallEntry?)
      && more[n] in more && forall t | t in more[..n] :: t in more
  {
    hide Owing, Asked, Owe, NoEntry;
    var n := |more| - 1;
    assert more == more[..n] + [more[n]];
    assert trail + more == trail + more[..n] + [more[n]];
    Appended(trail + more[..n], more[n]);
    Appended(more[..n], more[n]);
  }

  lemma {:induction false} NoCallsOwe(trail: seq<Told>, more: seq<Told>)
    requires NoCalls(more)
    ensures Owing(trail + more) == Owing(trail)
  {
    if more == [] {
      assert trail + [] == trail;
    } else {
      hide Owing, NoEntry;
      OneMore(trail, more);
      NoCallsOwe(trail, more[..|more| - 1]);
    }
  }

  lemma OrdinaryStep(d: Debt, t: Told)
    requires !TellsInterruption(t) && !TellsSigreturn(t) && !TellsRestart(t) && d.call.Some?
    ensures var d1 := Owe(d, t);
      if d.returned && t.callback.SyscallEntry? then d1.call == None && !d1.returned
      else d1.call == d.call && d1.returned == d.returned
  {}

  lemma SettledStep(d: Debt, t: Told)
    requires !TellsInterruption(t) && !TellsSigreturn(t) && !TellsRestart(t) && d.call.None? && !d.returned
    ensures Owe(d, t).call == None && !Owe(d, t).returned
  {}

  /** Ordinary calls settle a debt exactly if a handler had returned. */
  lemma {:induction false} OrdinaryOwe(trail: seq<Told>, more: seq<Told>)
    requires Ordinary(more) && Owing(trail).call.Some?
    ensures var (d, d1) := (Owing(trail), Owing(trail + more));
      if d.returned && !NoEntry(more) then d1.call == None && !d1.returned
      else d1.call == d.call && d1.returned == d.returned
  {
    if more == [] {
      assert trail + [] == trail;
    } else {
      hide Owing, NoEntry, Owe, TellsInterruption, TellsSigreturn, TellsRestart;
      var n := |more| - 1;
      OneMore(trail, more);
      OrdinaryOwe(trail, more[..n]);
      var d := Owing(trail + more[..n]);
      if d.call.Some? { OrdinaryStep(d, more[n]); } else { SettledStep(d, more[n]); }
    }
  }

  /** The entry stop of a call that comes next in a run, and nothing fails in it. */
  predicate NextEntry(r: Run, trail: seq<Told>, s: Step) {
    NextTrap(r, s) && Reports(trail, s.answers) && s.answers.info.value.kind == EntryStop
  }

  lemma EntryIsTold(id: nat, pid: Pid, isChild: bool, steps: seq<Step>, s: Step)
    requires Possible(Start(id, pid, isChild), steps)
    requires var (r, trail) := (RunAll(Start(id, pid, isChild), steps), Trail(Start(id, pid, isChild), steps));
      NextEntry(r, trail, s)
    ensures var (r, trail) := (RunAll(Start(id, pid, isChild), steps), Trail(Start(id, pid, isChild), steps));
      && Advance(r, s).tracee.log
         == r.tracee.log + [Expected(Owing(trail), Asked(trail), NoEntry(trail), s.answers.info.value)]
      && EntryFirst(trail)
  {
    hide Advance, Expected, Owing, Consistent;
    StopIsToldAsDue(id, pid, isChild, steps, s);
    StartRemembers(id, pid, isChild, steps);
  }

  /** A handler's return is noted already when a call is interrupted: it was the
      return itself, or one after which no ordinary call has looked for the call
      that was interrupted before, because restart_syscall took that one up. */
  predicate Stale(before: seq<Told>, exit: Told)
    requires TellsInterruption(exit)
  {
    Owing(before).returned || ReturnsFromHandler(exit.callback.nr)
  }

  lemma InterruptionOwes(before: seq<Told>, exit: Told)
    requires TellsInterruption(exit)
    ensures Owing(before + [exit]) == Debt(None, Some(exit.callback.nr), Stale(before, exit))
  {
    Appended(before, exit);
  }

  lemma ExitMeansEntry(trail: seq<Told>, t: Told)
    requires EntryFirst(trail) && t in trail && t.callback.SyscallExit?
    ensures !NoEntry(trail)
  {}

  /** After a call was interrupted, and any number of ordinary calls since, in any
      run: an entry with restart_syscall is told as the resumption of that call,
      and an entry with another number as no resumption, unless a handler's return
      had been noted before. Then the first call settles it. */
  lemma InterruptedIsResumed(id: nat, pid: Pid, isChild: bool, steps: seq<Step>, s: Step,
                             before: seq<Told>, exit: Told, since: seq<Told>)
    requires Possible(Start(id, pid, isChild), steps)
    requires Trail(Start(id, pid, isChild), steps) == before + [exit] + since
    requires TellsInterruption(exit) && Ordinary(since)
    requires NextEntry(RunAll(Start(id, pid, isChild), steps), before + [exit] + since, s)
    ensures var (r, n) := (RunAll(Start(id, pid, isChild), steps), exit.callback.nr);
      var nr := s.answers.info.value.nr;
      Advance(r, s).tracee.log == r.tracee.log + [
        if Stale(before, exit) && !NoEntry(since) then SyscallEntry(NameOf(nr), false)
        else if nr == RestartSyscall then SyscallEntry(n, true)
        else SyscallEntry(NameOf(nr), Stale(before, exit) && NameOf(nr) == n)]
  {
    hide Advance, Owing, Asked, NoEntry, EntryFirst, Trail, RunAll, Possible, Start, NextTrap, Stale;
    var trail := before + [exit] + since;
    EntryIsTold(id, pid, isChild, steps, s);
    InterruptionOwes(before, exit);
    OrdinaryOwe(before + [exit], since);
    assert trail[|before|] == exit;
    ExitMeansEntry(trail, exit);
  }

  /** After an interruption, a handler's ordinary calls and its return, in any run:
      unless the return says that the call failed with EINTR, restart_syscall is
      the resumption of the interrupted call, and the next other call is one
      exactly if it is the same; and with EINTR nothing is. */
  lemma ResumedAfterSigreturn(id: nat, pid: Pid, isChild: bool, steps: seq<Step>, s: Step,
                              before: seq<Told>, exit: Told, handler: seq<Told>, ret: Told, since: seq<Told>)
    requires Possible(Start(id, pid, isChild), steps)
    requires Trail(Start(id, pid, isChild), steps) == before + [exit] + handler + [ret] + since
    requires TellsInterruption(exit) && Ordinary(handler) && NoCalls(since)
    requires TellsSigreturn(ret) && !TellsInterruption(ret)
    requires NextEntry(RunAll(Start(id, pid, isChild), steps), before + [exit] + handler + [ret] + since, s)
    ensures var (r, n) := (RunAll(Start(id, pid, isChild), steps), exit.callback.nr);
      var nr := s.answers.info.value.nr;
      var lost := WithEintr(ret) || (Stale(before, exit) && !NoEntry(handler));
      Advance(r, s).tracee.log == r.tracee.log + [
        if nr == RestartSyscall && !lost then SyscallEntry(n, true)
        else SyscallEntry(NameOf(nr), !lost && NameOf(nr) == n)]
  {
    hide Advance, Owing, Asked, NoEntry, EntryFirst, Trail, RunAll, Possible, Start, NextTrap, Stale, WithEintr;
    var trail := before + [exit] + handler + [ret] + since;
    EntryIsTold(id, pid, isChild, steps, s);
    InterruptionOwes(before, exit);
    OrdinaryOwe(before + [exit], handler);
    Appended(before + [exit] + handler, ret);
    NoCallsOwe(before + [exit] + handler + [ret], since);
    assert trail[|before|] == exit;
    ExitMeansEntry(trail, exit);
  }

  /** The first call a tracee is seen to enter, if it is restart_syscall: it is the
      resumption of the call in the initial registers exactly if these are of the
      same ABI and do not hold restart_syscall themselves. */
  lemma FirstRestartIsRecovered(id: nat, pid: Pid, isChild: bool, steps: seq<Step>, s: Step)
    requires Possible(Start(id, pid, isChild), steps)
    requires var (r, trail) := (RunAll(Start(id, pid, isChild), steps), Trail(Start(id, pid, isChild), steps));
      NoEntry(trail) && NextEntry(r, trail, s) && s.answers.info.value.nr == RestartSyscall
    ensures var (r, asked) := (RunAll(Start(id, pid, isChild), steps), Asked(Trail(Start(id, pid, isChild), steps)));
      Advance(r, s).tracee.log == r.tracee.log + [
        if asked.Some? && asked.value.0 == s.answers.info.value.abi && asked.value.1 != RestartSyscall
        then SyscallEntry(NameOf(asked.value.1), true)
        else SyscallEntry(RestartSyscall, false)]
  {
    hide Advance, Asked, Trail, RunAll, Possible, Start, NextTrap, Owing;
    EntryIsTold(id, pid, isChild, steps, s);
    NothingOwedYet(Trail(Start(id, pid, isChild), steps));
  }

  lemma NothingOwedYet(trail: seq<Told>)
    requires NoEntry(trail) && EntryFirst(trail)
    ensures Owing(trail) == Debt(None, None, false)
  {
    assert NoCalls(trail);
    NoCallsOwe([], trail);
    assert [] + trail == trail;
  }

  // ----- the same by positions

  /** A handler's return is noted: a call is owed there, and its end is not told
      by EINTR. */
  predicate Notes(trail: seq<Told>, j: nat)
    requires j < |trail|
  {
    TellsSigreturn(trail[j])
    && (TellsInterruption(trail[j]) || (Owing(trail[..j]).call.Some? && !WithEintr(trail[j])))
  }

  /** An ordinary call is entered while one is owed. */
  predicate Looks(trail: seq<Told>, k: nat)
    requires k < |trail|
  {
    trail[k].callback.SyscallEntry? && !TellsRestart(trail[k]) && Owing(trail[..k]).call.Some?
  }

  /** Nothing is owed any more: the kernel took a call up, a handler's return said
      EINTR, or the first ordinary call after a noted return was entered. */
  predicate Settles(trail: seq<Told>, k: nat)
    requires k < |trail|
  {
    || TellsRestart(trail[k])
    || (TellsSigreturn(trail[k]) && !TellsInterruption(trail[k]) && WithEintr(trail[k]))
    || (Looks(trail, k) && Owing(trail[..k]).returned)
  }

  ghost predicate LeftNoted(trail: seq<Told>, j: nat)
    requires j < |trail|
  {
    Notes(trail, j) && forall k | j < k < |trail| :: !Looks(trail, k)
  }

  ghost predicate LeftOwed(trail: seq<Told>, i: nat)
    requires i < |trail|
  {
    TellsInterruption(trail[i]) && forall k | i < k < |trail| :: !TellsInterruption(trail[k]) && !Settles(trail, k)
  }

  lemma Earlier(trail: seq<Told>, k: nat)
    requires trail != [] && k < |trail| - 1
    ensures var front := trail[..|trail| - 1];
      && Notes(front, k) == Notes(trail, k) && Looks(front, k) == Looks(trail, k)
      && Settles(front, k) == Settles(trail, k)
  {
    assert trail[..|trail| - 1][..k] == trail[..k];
  }

  lemma LastStep(trail: seq<Told>)
    requires trail != []
    ensures var (n, d, d1) := (|trail| - 1, Owing(trail[..|trail| - 1]), Owing(trail));
      && (d1.returned <==> Notes(trail, n) || (d.returned && !Looks(trail, n)))
      && (d1.call == if TellsInterruption(trail[n]) then Some(trail[n].callback.nr)
                     else if Settles(trail, n) then None else d.call)
  {}

  /** When a return stays noted, by positions. */
  lemma {:induction false} NotedExactly(trail: seq<Told>)
    ensures Owing(trail).returned <==> exists j :: 0 <= j < |trail| && LeftNoted(trail, j)
  {
    if trail != [] {
      hide Owing, Notes, Looks;
      var n, front := |trail| - 1, trail[..|trail| - 1];
      NotedExactly(front);
      LastStep(trail);
      forall k | 0 <= k < n ensures Notes(front, k) == Notes(trail, k) && Looks(front, k) == Looks(trail, k) {
        Earlier(trail, k);
      }
      forall j | 0 <= j < n ensures LeftNoted(trail, j) <==> LeftNoted(front, j) && !Looks(trail, n) {}
      assert LeftNoted(trail, n) <==> Notes(trail, n);
    }
  }

  /** What is owed, by positions: the call of the latest interruption, unless that
      was settled. */
  lemma {:induction false} OwedExactly(trail: seq<Told>, nr: SysNr)
    ensures Owing(trail).call == Some(nr)
       <==> exists i :: 0 <= i < |trail| && LeftOwed(trail, i) && trail[i].callback.nr == nr
  {
    if trail != [] {
      hide Owing, Settles;
      var n, front := |trail| - 1, trail[..|trail| - 1];
      OwedExactly(front, nr);
      LastStep(trail);
      forall k | 0 <= k < n ensures Settles(front, k) == Settles(trail, k) { Earlier(trail, k); }
      forall i | 0 <= i < n
        ensures LeftOwed(trail, i) <==> LeftOwed(front, i) && !TellsInterruption(trail[n]) && !Settles(trail, n)
      {}
      assert LeftOwed(trail, n) <==> TellsInterruption(trail[n]);
    }
  }

  /** A noted return outlives restart_syscall: nothing is owed then, but the mark is
      left, and makes the next interruption Stale. */
  lemma MarkOutlivesRestart(before: seq<Told>, exit: Told, handler: seq<Told>, ret: Told, entry: Told)
    requires TellsInterruption(exit) && !Stale(before, exit) && Ordinary(handler)
    requires TellsSigreturn(ret) && !TellsInterruption(ret) && !WithEintr(ret) && TellsRestart(entry)
    ensures var d := Owing(before + [exit] + handler + [ret] + [entry]);
      d.call.None? && d.returned
  {
    hide Owing, NoEntry, Stale;
    InterruptionOwes(before, exit);
    OrdinaryOwe(before + [exit], handler);
    Appended(before + [exit] + handler, ret);
    Appended(before + [exit] + handler + [ret], entry);
  }

  // ----- for instance

  /** A kernel that refuses nothing, a consumer that just listens. */
  function Willing(kind: StopKind, nr: SysNr, errno: Option<nat>): Answers {
    Answers(Ok(SyscallInfo(kind, nr, X86_64, true, true, errno)), Ok(()), Ok(()), Ok(()), Ok(()), Ok(SigStop), Ok(true),
            Ok(0), Ok((X86_64, RestartSyscall)), Ok(()), Accepted, Accepted, Accepted, Accepted, true, false, false)
  }

  function Trap(kind: StopKind, nr: SysNr, errno: Option<nat>): Step {
    Step(SyscallTrap, Willing(kind, nr, errno), VforkComplete(false))
  }

  const ATTACH := Step(EventTrap(StopEvent, SigStop), Willing(EntryStop, RestartSyscall, None), VforkComplete(false))

  /** A tracee that runs on after each of these events. */
  function Going(log: seq<Callback>, prev: State, calls: Calls): Run {
    Run(Tracee(1, false, Life(Some(7), Running, prev, false, false, false, false, false, Syscall, None, None), calls, log),
        false, false, false)
  }

  function Made(entered: bool, current: Option<SysNr>, interrupted: Option<SysNr>, count: nat): Calls {
    Calls(entered, false, current, interrupted, count, Some((X86_64, RestartSyscall)), 1)
  }

  lemma Attaches()
    ensures var r := Start(1, 7, false);
      MayReport(r, ATTACH) && Advance(r, ATTACH) == Going([Attached], EventStop, Made(false, None, None, 0))
  {}

  lemma Sleeps(nr: SysNr)
    requires nr.Other?
    ensures var (r, s) := (Going([Attached], EventStop, Made(false, None, None, 0)), Trap(EntryStop, nr, None));
      && MayReport(r, s)
      && Advance(r, s) == Going([Attached, SyscallEntry(nr, false)], SyscallEnterStop, Made(true, Some(nr), None, 1))
  {}

  lemma IsInterrupted(nr: SysNr)
    requires nr.Other?
    ensures var entered := [Attached, SyscallEntry(nr, false)];
      var (r, s) := (Going(entered, SyscallEnterStop, Made(true, Some(nr), None, 1)), Trap(ExitStop, nr, Some(516)));
      && MayReport(r, s)
      && Advance(r, s) == Going(entered + [SyscallExit(nr, true)], SyscallExitStop, Made(false, None, Some(nr), 1))
  {
    hide HandleSystemCallEntry, HandleStopEvent, HandleExitEvent, HandleSignal, DoDetach, Detach;
  }

  lemma FirstTold(r: Run, s: Step, c: Callback)
    requires Advance(r, s).tracee.log == r.tracee.log + [c]
    ensures Heard(r, s) == [Told(c, s.answers)]
  {}

  /** A sleeping call is left with a restart code, and the next entry is that of
      restart_syscall: the run is one that the kernel may bring about, all that is
      asked of it above holds, and the entry is told as the call's resumption. */
  lemma SleepForExample(nr: SysNr)
    requires nr.Other?
    ensures var steps := [ATTACH, Trap(EntryStop, nr, None), Trap(ExitStop, nr, Some(516))];
      var (start, s) := (Start(1, 7, false), Trap(EntryStop, RestartSyscall, None));
      var r := RunAll(start, steps);
      && Possible(start, steps) && NextEntry(r, Trail(start, steps), s)
      && Advance(r, s).tracee.log
         == [Attached, SyscallEntry(nr, false), SyscallExit(nr, true), SyscallEntry(nr, true)]
  {
    hide Advance, MayReport, Heard, Owing;
    var (s0, s1, s2) := (ATTACH, Trap(EntryStop, nr, None), Trap(ExitStop, nr, Some(516)));
    var r0 := Start(1, 7, false);
    var (r1, r2, r3) := (Advance(r0, s0), Advance(Advance(r0, s0), s1), Advance(Advance(Advance(r0, s0), s1), s2));
    Attaches();
    Sleeps(nr);
    IsInterrupted(nr);
    Three(r0, s0, s1, s2);
    FirstTold(r0, s0, Attached);
    FirstTold(r1, s1, SyscallEntry(nr, false));
    FirstTold(r2, s2, SyscallExit(nr, true));
    var before := [Told(Attached, s0.answers), Told(SyscallEntry(nr, false), s1.answers)];
    var exit := Told(SyscallExit(nr, true), s2.answers);
    assert Trail(r0, [s0, s1, s2]) == before + [exit] + [];
    BeforeSleeping(before, nr);
    InterruptionOwes(before, exit);
    assert before + [exit] + [] == before + [exit];
    RestartMayCome(r3, before + [exit], nr);
    InterruptedIsResumed(1, 7, false, [s0, s1, s2], Trap(EntryStop, RestartSyscall, None), before, exit, []);
  }

  lemma Longer(r: Run, s: Step, rest: seq<Step>)
    ensures var r1 := Advance(r, s);
      && RunAll(r, [s] + rest) == RunAll(r1, rest)
      && (Possible(r, [s] + rest) <==> MayReport(r, s) && Possible(r1, rest))
      && Trail(r, [s] + rest) == Heard(r, s) + Trail(r1, rest)
  {
    hide Advance, MayReport, Heard;
    assert ([s] + rest)[1..] == rest;
  }

  lemma Three(r: Run, s0: Step, s1: Step, s2: Step)
    ensures var (r1, r2) := (Advance(r, s0), Advance(Advance(r, s0), s1));
      && RunAll(r, [s0, s1, s2]) == Advance(r2, s2)
      && (Possible(r, [s0, s1, s2]) <==> MayReport(r, s0) && MayReport(r1, s1) && MayReport(r2, s2))
      && Trail(r, [s0, s1, s2]) == Heard(r, s0) + Heard(r1, s1) + Heard(r2, s2)
  {
    hide Advance, MayReport, Heard;
    var (r1, r2) := (Advance(r, s0), Advance(Advance(r, s0), s1));
    Longer(r, s0, [s1, s2]);
    Longer(r1, s1, [s2]);
    Longer(r2, s2, []);
    assert [s0] + [s1, s2] == [s0, s1, s2] && [s1] + [s2] == [s1, s2] && [s2] + [] == [s2];
    var (a, b, c) := (Heard(r, s0), Heard(r1, s1), Heard(r2, s2));
    assert c + [] == c && a + (b + c) == a + b + c;
  }

  lemma BeforeSleeping(before: seq<Told>, nr: SysNr)
    requires nr.Other? && |before| == 2 && before[0].callback == Attached && before[1].callback == SyscallEntry(nr, false)
    requires before[1].answers.info.Ok? && before[1].answers.info.value.nr == nr
    ensures Owing(before) == Debt(Some(nr), None, false) && !NoEntry(before)
  {
    Appended([], before[0]);
    Appended([before[0]], before[1]);
    assert [] + [before[0]] == [before[0]] && [before[0]] + [before[1]] == before;
  }

  lemma RestartMayCome(r: Run, trail: seq<Told>, nr: SysNr)
    requires !r.quiet && !r.dead && !r.tracee.life.detachAtNextStop && Owing(trail) == Debt(None, Some(nr), false)
    ensures NextEntry(r, trail, Trap(EntryStop, RestartSyscall, None))
  {}
}
