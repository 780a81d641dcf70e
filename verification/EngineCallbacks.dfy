// The callbacks of all tracees in every interleaving of their events: what
// holds for a tracee alone still holds next to others.
module EngineCallbacks {
  import opened Common
  import opened TraceeModel
  import opened EngineModel
  import opened TraceeRuns
  import opened TraceeEnds
  import opened EngineRuns

  /** The run of a tracee, as far as the engine's state shows it. */
  function RunOf(e: Engine, t: Tracee): Run {
    Run(t, t.id in e.quiet, t.id in e.exitSeen, t.life.state == Dead)
  }

  predicate Reports(e: Engine, ev: WaitEvent, a: Answers)
    requires ev.pid in e.tracees
  {
    MayReport(RunOf(e, e.tracees[ev.pid]), StepOf(e, ev, a))
  }

  /** The callbacks so far are in order; in a calm run, in which no consumer asks
      for a detach, the news of the death are accounted for as well. */
  predicate Told(r: Run, calm: bool) { Consistent(r) && (calm ==> Accounted(r)) }

  predicate AllSaid(log: seq<Callback>, calm: bool) {
    var seen := Observe(log);
    seen.bracketed && seen.matched && (calm ==> seen.deaths == 1)
  }

  ghost predicate AllTold(e: Engine, calm: bool) {
    && (forall p | p in e.tracees :: Told(RunOf(e, e.tracees[p]), calm))
    && (forall i | i in e.retired :: AllSaid(e.retired[i].log, calm))
  }

  predicate IsCalm(a: Answers) { !a.consumerDetaches && !a.consumerRejects }

  lemma NewbornTold(e: Engine, child: Pid, a: Answers, calm: bool)
    requires calm ==> IsCalm(a)
    requires e.nextId !in e.quiet && e.nextId !in e.exitSeen
    ensures Told(RunOf(e, Newborn(e.nextId, child, a).tracee), calm)
  {
    NewbornIsFine(e.nextId, child, a);
    ObserveNext([], Announced);
    assert [] + [Announced] == [Announced];
  }

  /** Entering a new task touches no run but the new one. */
  lemma BirthTold(e: Engine, child: Pid, a: Answers, calm: bool)
    requires Identities(e) && AllTold(e, calm) && child !in e.tracees && (calm ==> IsCalm(a))
    ensures var b := Birth(e, child, a);
      && Identities(b)
      && (forall q | q in b.tracees :: Told(RunOf(b, b.tracees[q]), calm))
  {
    hide Newborn, Told;
    NewbornIsFine(e.nextId, child, a);
    NewbornTold(e, child, a, calm);
    var b := Birth(e, child, a);
    forall q | q in b.tracees ensures Told(RunOf(b, b.tracees[q]), calm) {
      if q != child { assert RunOf(b, b.tracees[q]) == RunOf(e, e.tracees[q]); }
    }
  }

  /** Nor does what else an event changes besides its tracee. */
  lemma BesidesTold(e: Engine, ev: WaitEvent, a: Answers, calm: bool)
    requires ev.pid in e.tracees && Identities(e) && PlausibleTask(e, ev, a) && AllTold(e, calm)
    requires calm ==> IsCalm(a)
    ensures var b := Besides(e, ev, a);
      && Identities(b) && b.quiet == e.quiet
      && ev.pid in b.tracees && b.tracees[ev.pid] == e.tracees[ev.pid]
      && (forall p | p in b.tracees && p != ev.pid :: Told(RunOf(b, b.tracees[p]), calm))
      && b.retired == e.retired
  {
    hide Newborn, Told, TellsOf;
    var b := Besides(e, ev, a);
    if NewTaskOf(e, ev, a).Some? && !CompletesVfork(ev.status) {
      BirthTold(e, a.eventPid.value, a, calm);
    }
    forall p | p in b.tracees && p != ev.pid ensures Told(RunOf(b, b.tracees[p]), calm) {
      var b0 := if NewTaskOf(e, ev, a).Some? && !CompletesVfork(ev.status)
                then Birth(e, a.eventPid.value, a) else e;
      assert RunOf(b, b.tracees[p]) == RunOf(b0, b0.tracees[p]);
    }
  }

  lemma KeepTold(e: Engine, p: Pid, r: Result, calm: bool)
    requires Identities(e) && p in e.tracees && e.tracees[p].id == r.tracee.id
    requires forall q | q in e.tracees && q != p :: Told(RunOf(e, e.tracees[q]), calm)
    requires forall i | i in e.retired :: AllSaid(e.retired[i].log, calm)
    requires Told(RunOf(Keep(e, p, r), r.tracee), calm)
    ensures AllTold(Keep(e, p, r), calm) && Identities(Keep(e, p, r))
  {
    hide Told, AllSaid;
    var e1 := Keep(e, p, r);
    forall q | q in e1.tracees ensures Told(RunOf(e1, e1.tracees[q]), calm) {
      if q != p { assert RunOf(e1, e1.tracees[q]) == RunOf(e, e.tracees[q]); }
    }
  }

  lemma ReporterTold(e: Engine, ev: WaitEvent, a: Answers, calm: bool)
    requires ev.pid in e.tracees && Told(RunOf(e, e.tracees[ev.pid]), calm) && Reports(e, ev, a)
    requires calm ==> IsCalm(a)
    ensures var t, s := Reporter(e, ev, a), StepOf(e, ev, a);
      && t.id == e.tracees[ev.pid].id
      && Told(After(RunOf(e, t), ev.status, Process(t, s)), calm)
  {
    hide Observe, Process;
    var t, s := Reporter(e, ev, a), StepOf(e, ev, a);
    StepKeeps(RunOf(e, t), s);
    if calm { StepAccounted(RunOf(e, t), s); }
  }

  lemma ProcessSeen(e: Engine, b: Engine, ev: WaitEvent, a: Answers, calm: bool)
    requires ev.pid in e.tracees && Reports(e, ev, a) && b.quiet == e.quiet
    requires b.exitSeen == if IsExitEvent(ev.status) then e.exitSeen + {e.tracees[ev.pid].id} else e.exitSeen
    requires var t := Reporter(e, ev, a); var r := Process(t, StepOf(e, ev, a));
      && t.id == r.tracee.id == e.tracees[ev.pid].id
      && Told(After(RunOf(e, t), ev.status, r), calm)
      && (ev.status.Died? ==> r.tracee.life.state == Dead)
    ensures var r := Process(Reporter(e, ev, a), StepOf(e, ev, a));
      Told(RunOf(Keep(b, ev.pid, r), r.tracee), calm)
  {
    hide Observe, Process;
  }

  lemma KnownTold(e: Engine, ev: WaitEvent, a: Answers, calm: bool)
    requires ev.pid in e.tracees && Identities(e) && AllTold(e, calm) && (calm ==> IsCalm(a))
    requires PlausibleTask(e, ev, a) && CreatorKnown(e, ev, a) && NoSubstitution(e, ev, a) && Reports(e, ev, a)
    ensures var o := HandleKnown(e, ev, a);
      AllTold(o.engine, calm) && Identities(o.engine)
  {
    hide ProcessEvent, ProcessNotice, HandleKnown, Told, PlausibleTask, CreatorKnown, Reports;
    KnownStep(e, ev, a);
    var t, s, b := Reporter(e, ev, a), StepOf(e, ev, a), Besides(e, ev, a);
    BesidesTold(e, ev, a, calm);
    ReporterTold(e, ev, a, calm);
    StepKeepsPid(t, s);
    if ev.status.Died? { ProcessKeepsPid(t, s.status, s.answers); }
    ProcessSeen(e, b, ev, a, calm);
    KeepTold(b, ev.pid, Process(t, s), calm);
  }

  /** A tracee that is done with has nothing left to tell. */
  lemma DoneWith(r: Run, calm: bool)
    requires Told(r, calm) && !Followed(r.tracee) && r.dead == (r.tracee.life.state == Dead)
    ensures AllSaid(r.tracee.log, calm)
  {}

  lemma RefusedTold(r: Run, calm: bool)
    requires Told(r, calm)
    ensures Told(r.(tracee := r.tracee.(life := r.tracee.life.(pid := None)), quiet := true), calm)
  {
    hide Observe;
  }

  lemma RetireTold(e: Engine, p: Pid, calm: bool)
    requires AllTold(e, calm) && Identities(e) && p in e.tracees && !Followed(e.tracees[p])
    ensures AllTold(Retire(e, p), calm) && Identities(Retire(e, p))
  {
    hide Told, AllSaid;
    var e1 := Retire(e, p);
    DoneWith(RunOf(e, e.tracees[p]), calm);
    forall q | q in e1.tracees ensures Told(RunOf(e1, e1.tracees[q]), calm) {
      assert RunOf(e1, e1.tracees[q]) == RunOf(e, e.tracees[q]);
    }
  }

  lemma ReleaseTold(e: Engine, p: Pid, r: Request, calm: bool)
    requires AllTold(e, calm) && Identities(e) && p in e.tracees && e.tracees[p].life.state == Dead
    ensures var d := DoDetach(e.tracees[p], r);
      var e1 := Keep(e, p, d);
      && (!d.Ok?() ==> AllTold(e1, calm) && Identities(e1))
      && (d.Ok?() ==> Retire(e1, p).tracees == e.tracees - {p} && Retire(e1, p).quiet == e.quiet + {d.tracee.id}
                      && d.tracee.log == e.tracees[p].log && d.tracee.id == e.tracees[p].id)
  {
    hide Told, AllSaid;
    var d := DoDetach(e.tracees[p], r);
    RefusedTold(RunOf(e, e.tracees[p]), calm);
    if !d.Ok?() { KeepTold(e, p, d, calm); }
  }

  lemma CleanupTold(e: Engine, p: Pid, a: Answers, calm: bool)
    requires AllTold(e, calm) && Identities(e)
    ensures AllTold(Cleanup(e, p, a).engine, calm) && Identities(Cleanup(e, p, a).engine)
  {
    hide Told, AllSaid, DoDetach;
    if p in e.tracees && e.tracees[p].life.state == Detached {
      RetireTold(e, p, calm);
    } else if p in e.tracees && e.tracees[p].life.state == Dead {
      ReleaseTold(e, p, a.cleanedUp, calm);
      DoneWith(RunOf(e, e.tracees[p]), calm);
      var e1 := Cleanup(e, p, a).engine;
      if Cleanup(e, p, a).fault.None? {
        forall q | q in e1.tracees ensures Told(RunOf(e1, e1.tracees[q]), calm) {
          assert RunOf(e1, e1.tracees[q]) == RunOf(e, e.tracees[q]);
        }
        assert AllTold(e1, calm);
      }
    }
  }

  lemma OneTold(e: Engine, ev: WaitEvent, a: Answers, calm: bool)
    requires ev.pid in e.tracees && Identities(e) && AllTold(e, calm) && (calm ==> IsCalm(a))
    requires PlausibleTask(e, ev, a) && CreatorKnown(e, ev, a) && NoSubstitution(e, ev, a) && Reports(e, ev, a)
    ensures AllTold(HandleOne(e, ev, a).0, calm) && Identities(HandleOne(e, ev, a).0)
  {
    hide HandleKnown, Cleanup, AllTold, Identities;
    KnownTold(e, ev, a, calm);
    CleanupTold(HandleKnown(e, ev, a).engine, ev.pid, a, calm);
  }

  /** A new task that was entered is still there, and may report, when the event
      that made it known was handled. */
  lemma NewbornWaits(e: Engine, ev: WaitEvent, a: Answers)
    requires ev.pid in e.tracees && Identities(e) && PlausibleTask(e, ev, a) && CreatorKnown(e, ev, a)
    requires DueOf(e, ev, a).Some? && !CompletesVfork(ev.status)
    ensures var (e1, c) := (HandleOne(e, ev, a).0, a.eventPid.value);
      && c in e1.tracees && e1.tracees[c] == Newborn(e.nextId, c, a).tracee
      && e.nextId !in e1.quiet && e.nextId !in e1.exitSeen
      && e1.newly == Some(c) && e1.stash == e.stash
  {
    hide Process, Newborn, DoDetach, HandleKnown;
    KnownStep(e, ev, a);
    NewbornIsFine(e.nextId, a.eventPid.value, a);
    StepKeepsPid(Reporter(e, ev, a), StepOf(e, ev, a));
    var e1 := HandleKnown(e, ev, a).engine;
    DetachKeepsPid(e1.tracees[ev.pid], a.(detached := a.cleanedUp));
  }

  // ----- whole rounds

  lemma NewlyOnlyFromTasks(e: Engine, ev: WaitEvent, a: Answers, but: Option<Pid>)
    requires Structured(e, but) && e.newly == None && ev.pid in e.tracees
    requires PlausibleTask(e, ev, a) && CreatorKnown(e, ev, a)
    requires but == None || (but == Some(ev.pid) && JustRekeyed(ev, a) && NoSubstitution(e, ev, a))
    ensures var e1 := HandleOne(e, ev, a).0;
      && e1.newly == DueOf(e, ev, a) && e1.stash == e.stash && OnlyStopsStashed(e1)
  {
    hide HandleOne, PlausibleTask, CreatorKnown, Identities, AllKeyed;
    OneKeeps(e, ev, a, but);
  }

  lemma NewbornReports(e: Engine, stop: WaitEvent, a: Answers)
    requires stop.pid in e.tracees && IsStopEvent(stop.status)
    requires e.tracees[stop.pid].id !in e.quiet && Followed(e.tracees[stop.pid])
    ensures Reports(e, stop, a) && NoSubstitution(e, stop, a)
    ensures PlausibleTask(e, stop, a) && CreatorKnown(e, stop, a)
  {}

  lemma ToldAlike(e: Engine, e1: Engine, calm: bool)
    requires AllTold(e, calm) && e1 == e.(newly := e1.newly, stash := e1.stash)
    ensures AllTold(e1, calm) && (Identities(e) ==> Identities(e1))
  {
    hide Told;
    assert forall p | p in e1.tracees :: RunOf(e1, e1.tracees[p]) == RunOf(e, e.tracees[p]);
  }

  /** The kernel lets a vfork() complete only after the child's first stop. */
  predicate StopDelivered(e: Engine, ev: WaitEvent, a: Answers)
    requires ev.pid in e.tracees
  {
    NewTaskOf(e, ev, a).Some? && CompletesVfork(ev.status) ==> a.eventPid.value !in e.stash
  }

  /** The round's event for a known pid, and the stop stored for a new task. */
  lemma EventTold(e: Engine, ev: WaitEvent, a: Answers, delayed: Answers, but: Option<Pid>, calm: bool)
    requires Structured(e, but) && e.newly == None && AllTold(e, calm) && ev.pid in e.tracees
    requires but == None || (but == Some(ev.pid) && JustRekeyed(ev, a))
    requires PlausibleTask(e, ev, a) && CreatorKnown(e, ev, a) && StopDelivered(e, ev, a)
    requires NoSubstitution(e, ev, a) && Reports(e, ev, a)
    requires calm ==> IsCalm(a) && IsCalm(delayed)
    ensures AllTold(HandleEvent(e, ev, a, delayed).0, calm)
  {
    hide HandleOne, AllTold, Reports, AllKeyed, Identities, Newborn;
    OneTold(e, ev, a, calm);
    NewlyOnlyFromTasks(e, ev, a, but);
    var (e1, v) := HandleOne(e, ev, a);
    var e2 := e1.(newly := None);
    ToldAlike(e1, e2, calm);
    if v == Decided(Handled) && e1.newly.Some? && e1.newly.value in e1.stash {
      var c := e1.newly.value;
      var stop := WaitEvent(c, e1.stash[c]);
      NewbornWaits(e, ev, a);
      NewbornIsFine(e.nextId, c, a);
      NewbornReports(e2, stop, delayed);
      OneTold(e2, stop, delayed, calm);
      var e3 := HandleOne(e2, stop, delayed).0;
      ToldAlike(e3, e3.(stash := e3.stash - {c}), calm);
    }
  }

  /** The run has no execve() that replaces one traced thread by another, and
      the kernel keeps its word about whom it reports. */
  predicate PlainRound(e: Engine, r: Round, calm: bool) {
    && (if r.ev.pid in e.tracees then
          && Reports(e, r.ev, r.answers) && NoSubstitution(e, r.ev, r.answers)
          && StopDelivered(e, r.ev, r.answers)
        else IsExecEvent(r.ev.status) && r.answers.eventPid.Ok? && r.answers.eventPid.value in e.tracees ==>
          MayReport(RunOf(e, e.tracees[r.answers.eventPid.value]), StepOf(e, r.ev, r.again)))
    && (calm ==> IsCalm(r.answers) && IsCalm(r.again) && IsCalm(r.delayed))
  }

  lemma RekeyTold(e: Engine, former: Pid, p: Pid, calm: bool)
    requires former in e.tracees && p !in e.tracees && AllTold(e, calm)
    ensures AllTold(Rekey(e, former, p), calm)
  {
    hide Told;
    var e1 := Rekey(e, former, p);
    forall q | q in e1.tracees ensures Told(RunOf(e1, e1.tracees[q]), calm) {
      var q0 := if q == p then former else q;
      assert RunOf(e1, e1.tracees[q]) == RunOf(e, e.tracees[q0]);
    }
  }

  lemma RekeyedReports(e: Engine, former: Pid, ev: WaitEvent, a: Answers)
    requires former in e.tracees && ev.pid !in e.tracees && IsExecEvent(ev.status)
    requires MayReport(RunOf(e, e.tracees[former]), StepOf(e, ev, a))
    ensures Reports(Rekey(e, former, ev.pid), ev, a)
  {}

  lemma SettleTold(e: Engine, ev: WaitEvent, v: Verdict, calm: bool)
    requires AllTold(e, calm)
    ensures AllTold(Settle(e, ev, v), calm)
  {
    hide AllTold;
    ToldAlike(e, Settle(e, ev, v), calm);
  }

  /** A round that no exception ends knew the creator of a new task. */
  lemma CreatorWasKnown(e: Engine, ev: WaitEvent, a: Answers, delayed: Answers)
    requires Structured(e, None) && ev.pid in e.tracees && PlausibleTask(e, ev, a)
    requires !HandleEvent(e, ev, a, delayed).1.Escaped?
    ensures CreatorKnown(e, ev, a)
  {
    hide HandleOne, HandleDelayed, Structured, PlausibleTask, CreatorKnown;
    if !CreatorKnown(e, ev, a) { UnknownCreatorKeeps(e, ev, a); }
  }

  lemma RoundTold(e: Engine, r: Round, calm: bool)
    requires AtRest(e) && AllTold(e, calm) && PlausibleRound(e, r) && PlainRound(e, r, calm)
    requires !Traced(e, r).1.Escaped?
    ensures AllTold(Traced(e, r).0, calm)
  {
    hide HandleEvent, Structured, HandleOne, HandleDelayed, AllTold, MayReport, RunOf, Settle;
    var ev := r.ev;
    RetryMeansKnown(e, ev, r.answers, r.delayed);
    if ev.pid in e.tracees {
      CreatorWasKnown(e, ev, r.answers, r.delayed);
      EventTold(e, ev, r.answers, r.delayed, None, calm);
    } else {
      UnknownEvent(e, ev, r.answers, r.delayed);
      var (e1, v) := HandleEvent(e, ev, r.answers, r.delayed);
      if v == Decided(Retry) {
        var former := r.answers.eventPid.value;
        RekeyKeeps(e, former, ev.pid);
        RekeyKeepsObjects(e, former, ev.pid);
        RekeyTold(e, former, ev.pid, calm);
        NoTaskInExec(e1, ev, r.again);
        ExecDelivers(e1, ev, r.again);
        RekeyedReports(e, former, ev, r.again);
        EventTold(e1, ev, r.again, r.delayed, Some(ev.pid), calm);
        var (e2, v2) := HandleEvent(e1, ev, r.again, r.delayed);
        SettleTold(e2, ev, v2, calm);
      }
    }
    SettleTold(HandleEvent(e, ev, r.answers, r.delayed).0, ev, HandleEvent(e, ev, r.answers, r.delayed).1, calm);
  }

  lemma ExecDelivers(e: Engine, ev: WaitEvent, a: Answers)
    requires IsExecEvent(ev.status) && ev.pid in e.tracees
    ensures StopDelivered(e, ev, a)
  {}

  predicate PlainRounds(e: Engine, rounds: seq<Round>, calm: bool)
    decreases |rounds|
  {
    rounds == [] || (PlainRound(e, rounds[0], calm) && PlainRounds(Traced(e, rounds[0]).0, rounds[1..], calm))
  }

  lemma {:induction false} RunTold(e: Engine, rounds: seq<Round>, calm: bool, left: set<Pid>)
    requires Resting(e, left) && AllTold(e, calm) && PlausibleRounds(e, rounds) && PlainRounds(e, rounds, calm)
    ensures AllTold(TraceAll(e, rounds), calm)
    decreases |rounds|
  {
    if rounds != [] {
      hide AtRest, Apart, Traced, PlausibleRound, PlainRound, AllTold, RefusedIn;
      RoundTold(e, rounds[0], calm);
      RoundRests(e, rounds[0], left);
      RunTold(Traced(e, rounds[0]).0, rounds[1..], calm, left + RefusedIn(e, rounds[0]));
    }
  }

  lemma FreshTold(e: Engine, calm: bool)
    requires Fresh(e)
    ensures Resting(e, {}) && AllTold(e, calm)
  {}

  /** Main result on callbacks, for every interleaving of the events of any
      number of tracees: whoever is or was traced got its entries and exits in
      turn, and its resumptions after its interruptions. */
  lemma CallbacksOfAllTracees(e: Engine, rounds: seq<Round>)
    requires Fresh(e) && PlausibleRounds(e, rounds) && PlainRounds(e, rounds, false)
    ensures var e1 := TraceAll(e, rounds);
      && (forall p | p in e1.tracees :: Alternates(e1.tracees[p].log) && ResumesOwed(e1.tracees[p].log))
      && (forall i | i in e1.retired :: Alternates(e1.retired[i].log) && ResumesOwed(e1.retired[i].log))
      && (forall p | p in e1.tracees && e1.tracees[p].id !in e1.quiet ::
            e1.tracees[p].calls.entered <==> e1.tracees[p].calls.current.Some?)
  {
    FreshTold(e, false);
    RunTold(e, rounds, false, {});
    var e1 := TraceAll(e, rounds);
    forall p | p in e1.tracees ensures Alternates(e1.tracees[p].log) && ResumesOwed(e1.tracees[p].log) {
      BracketedMeansAlternates(e1.tracees[p].log);
      MatchedMeansOwed(e1.tracees[p].log);
    }
    forall i | i in e1.retired ensures Alternates(e1.retired[i].log) && ResumesOwed(e1.retired[i].log) {
      BracketedMeansAlternates(e1.retired[i].log);
      MatchedMeansOwed(e1.retired[i].log);
    }
  }

  /** And when nobody detaches, each tracee that is gone was reported gone
      exactly once, by exited() or by disappeared(). */
  lemma DeathsOfAllTracees(e: Engine, rounds: seq<Round>)
    requires Fresh(e) && PlausibleRounds(e, rounds) && PlainRounds(e, rounds, true)
    ensures var e1 := TraceAll(e, rounds);
      && (forall i | i in e1.retired :: Observe(e1.retired[i].log).deaths == 1)
      && (forall p | p in e1.tracees :: Observe(e1.tracees[p].log).deaths <= 1)
  {
    FreshTold(e, true);
    RunTold(e, rounds, true, {});
  }
}
