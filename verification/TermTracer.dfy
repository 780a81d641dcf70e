// The terminal tracer's bookkeeping of half printed system calls
// (src/termtracer/TermTracer.cxx): one call whose line is still open, and those
// whose line was broken off to print something else.
module TerminalTracing {
  import opened Common
  import opened TraceeModel

  /** What is printed about a call: its name and the opening parenthesis, the mark
      of a line that is broken off, the name again when it is taken up, and one of
      three endings; everything else is a line of its own. */
  datatype Ending = Returns | Succeeds | Never

  datatype Piece =
    | Begin(pid: Pid, nr: SysNr)
    | BrokenOff
    | Resume(pid: Pid, nr: SysNr)
    | End(pid: Pid, nr: SysNr, how: Ending)
    | Note(pid: Pid)

  /** m_active_syscall and m_unfinished_syscalls, and what was printed so far. A
      call is known by its number. */
  datatype Books = Books(active: Option<(Pid, SysNr)>, unfinished: map<Pid, SysNr>, out: seq<Piece>)

  /** The new state, or the failed assert in checkResumedSyscall(). */
  datatype Outcome = Kept(books: Books) | Crashed

  datatype Event =
    | Entered(pid: Pid, nr: SysNr)
    | Returned(pid: Pid, nr: SysNr, succeeded: bool)
    | NewExec(pid: Pid, oldPid: Option<Pid>)
    | Exited(pid: Pid, fromEntryStop: bool)   // prevState() == SYSCALL_ENTER_STOP
    | Disappeared(pid: Pid)
    | Remark(pid: Pid)                        // signaled(), stopped(), attached(), a question

  predicate IsExecCall(nr: SysNr) { nr == Execve || nr == Execveat }

  /** isEnabled(); an empty filter lets every call through. */
  predicate Enabled(filter: set<SysNr>, nr: SysNr) { filter == {} || nr in filter }

  predicate Active(b: Books, p: Pid) { b.active.Some? && b.active.value.0 == p }

  /** currentSyscall() */
  function Current(b: Books, p: Pid): Option<SysNr> {
    if Active(b, p) then Some(b.active.value.1)
    else if p in b.unfinished then Some(b.unfinished[p])
    else None
  }

  predicate CurrentEnabled(filter: set<SysNr>, b: Books, p: Pid) {
    Current(b, p).Some? && Enabled(filter, Current(b, p).value)
  }

  /** startNewLine() breaks off the open line. */
  function AfterBreak(b: Books): Books {
    if b.active.None? then b
    else Books(None, b.unfinished[b.active.value.0 := b.active.value.1], b.out + [BrokenOff])
  }

  function Print(b: Books, piece: Piece): Books { b.(out := b.out + [piece]) }

  /** checkResumedSyscall() */
  function AfterResume(b: Books, p: Pid): Outcome {
    if Active(b, p) then Kept(b)
    else if p !in b.unfinished then Crashed
    else Kept(Print(AfterBreak(b.(unfinished := b.unfinished - {p})), Resume(p, b.unfinished[p])))
  }

  function AfterEntry(filter: set<SysNr>, b: Books, p: Pid, nr: SysNr): Books {
    if !Enabled(filter, nr) then b else Print(AfterBreak(b), Begin(p, nr)).(active := Some((p, nr)))
  }

  function AfterExit(filter: set<SysNr>, b: Books, p: Pid, nr: SysNr, succeeded: bool): Outcome {
    if (IsExecCall(nr) && succeeded) || !Enabled(filter, nr) then Kept(b)
    else
      var o := AfterResume(b, p);
      if o.Crashed? then Crashed
      else
        var b1 := if o.books.active.Some? && !Active(o.books, p) then AfterBreak(o.books) else o.books;
        Kept(Print(b1, End(p, nr, Returns)).(active := None))
  }

  /** updateTracee() */
  function AfterRename(b: Books, oldPid: Pid, p: Pid): Books {
    if Active(b, oldPid) then b.(active := Some((p, b.active.value.1)))
    else if oldPid in b.unfinished then
      b.(unfinished := b.unfinished[p := b.unfinished[oldPid]] - {oldPid})
    else b
  }

  function AfterExec(filter: set<SysNr>, b: Books, p: Pid, oldPid: Option<Pid>): Outcome {
    var b1 := if oldPid.Some? then AfterRename(b, oldPid.value, p) else b;
    var o := if CurrentEnabled(filter, b1, p) then AfterResume(b1, p) else Kept(b1);
    if o.Crashed? then Crashed
    else
      var b2 := if CurrentEnabled(filter, b1, p) then Print(o.books, End(p, Current(b1, p).value, Succeeds)) else o.books;
      Kept(Print(b2.(active := None), Note(p)))
  }

  function AfterAbort(filter: set<SysNr>, b: Books, p: Pid): Outcome {
    var enabled := CurrentEnabled(filter, b, p);
    var o := if Active(b, p) then Kept(b.(active := None)) else if enabled then AfterResume(b, p) else Kept(b);
    if o.Kept? && enabled then Kept(Print(o.books, End(p, Current(b, p).value, Never))) else o
  }

  function CleanupTracee(b: Books, p: Pid): Books {
    if Active(b, p) then b.(active := None) else b.(unfinished := b.unfinished - {p})
  }

  function AfterEnd(filter: set<SysNr>, b: Books, p: Pid, abort: bool): Outcome {
    var o := if abort then AfterAbort(filter, b, p) else Kept(b);
    if o.Crashed? then Crashed else Kept(CleanupTracee(Print(AfterBreak(o.books), Note(p)), p))
  }

  function Step(filter: set<SysNr>, b: Books, e: Event): Outcome {
    match e
    case Entered(p, nr) => Kept(AfterEntry(filter, b, p, nr))
    case Returned(p, nr, ok) => AfterExit(filter, b, p, nr, ok)
    case NewExec(p, oldPid) => AfterExec(filter, b, p, oldPid)
    case Exited(p, fromEntryStop) => AfterEnd(filter, b, p, fromEntryStop)
    case Disappeared(p) => AfterEnd(filter, b, p, true)
    case Remark(p) => Kept(Print(AfterBreak(b), Note(p)))
  }

  // ----- what the callbacks say about who is inside which call

  /** The calls that tracees are inside of, as far as the consumer was told. A
      successful execve() is over with the new execution context. */
  function Track(inside: map<Pid, SysNr>, e: Event): map<Pid, SysNr> {
    match e
    case Entered(p, nr) => inside[p := nr]
    case Returned(p, _, _) => inside - {p}
    case NewExec(p, oldPid) => inside - (if oldPid.Some? then {p, oldPid.value} else {p})
    case Exited(p, _) => inside - {p}
    case Disappeared(p) => inside - {p}
    case Remark(_) => inside
  }

  /** The pid under which the exec'ing thread was known before. */
  function Execing(e: Event): Pid
    requires e.NewExec?
  {
    if e.oldPid.Some? then e.oldPid.value else e.pid
  }

  /** The order the engine keeps per tracee: entry before exit, of the same call;
      the new context within an execve(), whose exit comes after; a pid that is
      taken over has lost its thread before. */
  predicate InOrder(inside: map<Pid, SysNr>, e: Event) {
    match e
    case Entered(p, _) => p !in inside
    case Returned(p, nr, ok) =>
      if IsExecCall(nr) && ok then p !in inside else p in inside && inside[p] == nr
    case NewExec(p, oldPid) =>
      && (oldPid.Some? ==> p !in inside && p != oldPid.value)
      && Execing(e) in inside && IsExecCall(inside[Execing(e)])
    case _ => true
  }

  predicate InsideEnabled(filter: set<SysNr>, inside: map<Pid, SysNr>, p: Pid) {
    p in inside && Enabled(filter, inside[p])
  }

  predicate MatchesAt(filter: set<SysNr>, b: Books, inside: map<Pid, SysNr>, p: Pid) {
    && Current(b, p) == (if InsideEnabled(filter, inside, p) then Some(inside[p]) else None)
    && !(Active(b, p) && p in b.unfinished)
  }

  /** A tracee is inside an enabled call iff it is the active one or among the
      unfinished ones, never both, and that call is the one remembered. */
  ghost predicate Matches(filter: set<SysNr>, b: Books, inside: map<Pid, SysNr>) {
    forall p: Pid :: MatchesAt(filter, b, inside, p)
  }

  /** The printed part of another tracee's call is forgotten. */
  predicate Drops(filter: set<SysNr>, b: Books, inside: map<Pid, SysNr>, e: Event) {
    e.NewExec? && InOrder(inside, e) && !Enabled(filter, inside[Execing(e)]) && b.active.Some?
  }

  /** What was printed does not matter to that. */
  lemma PrintMatches(filter: set<SysNr>, b: Books, out: seq<Piece>, inside: map<Pid, SysNr>)
    ensures Matches(filter, b.(out := out), inside) <==> Matches(filter, b, inside)
  {
    assert forall p: Pid :: MatchesAt(filter, b.(out := out), inside, p) == MatchesAt(filter, b, inside, p);
  }

  lemma EntryMatches(filter: set<SysNr>, b: Books, inside: map<Pid, SysNr>, p: Pid, nr: SysNr)
    requires Matches(filter, b, inside) && p !in inside
    ensures Matches(filter, AfterEntry(filter, b, p, nr), inside[p := nr])
  {
    var (b1, inside1) := (AfterEntry(filter, b, p, nr), inside[p := nr]);
    forall q: Pid ensures MatchesAt(filter, b1, inside1, q) {
      assert MatchesAt(filter, b, inside, q) && MatchesAt(filter, b, inside, p);
    }
  }

  /** Taking up a call that is known cannot fail; clearing it then is its end. */
  lemma ResumeAndClear(filter: set<SysNr>, b: Books, inside: map<Pid, SysNr>, p: Pid)
    requires Matches(filter, b, inside) && InsideEnabled(filter, inside, p)
    ensures var o := AfterResume(b, p);
      && o.Kept? && (o.books.active.Some? ==> Active(o.books, p))
      && Matches(filter, o.books.(active := None), inside - {p})
  {
    assert MatchesAt(filter, b, inside, p);
    forall q: Pid ensures MatchesAt(filter, AfterResume(b, p).books.(active := None), inside - {p}, q) {
      assert MatchesAt(filter, b, inside, q);
    }
  }

  lemma ExitMatches(filter: set<SysNr>, b: Books, inside: map<Pid, SysNr>, p: Pid, nr: SysNr, ok: bool)
    requires Matches(filter, b, inside) && InOrder(inside, Returned(p, nr, ok))
    ensures var o := AfterExit(filter, b, p, nr, ok);
      o.Kept? && Matches(filter, o.books, inside - {p})
  {
    if (IsExecCall(nr) && ok) || !Enabled(filter, nr) {
      NotInside(filter, b, inside, p);
    } else {
      ResumeAndClear(filter, b, inside, p);
      var o := AfterExit(filter, b, p, nr, ok);
      PrintMatches(filter, AfterResume(b, p).books.(active := None), o.books.out, inside - {p});
    }
  }

  lemma NotInside(filter: set<SysNr>, b: Books, inside: map<Pid, SysNr>, p: Pid)
    requires Matches(filter, b, inside) && !InsideEnabled(filter, inside, p)
    ensures Matches(filter, b, inside - {p})
  {
    forall q: Pid ensures MatchesAt(filter, b, inside - {p}, q) {
      assert MatchesAt(filter, b, inside, q);
    }
  }

  lemma RenameMatches(filter: set<SysNr>, b: Books, inside: map<Pid, SysNr>, from: Pid, p: Pid)
    requires Matches(filter, b, inside) && from in inside && p !in inside
    ensures Matches(filter, AfterRename(b, from, p), (inside - {from})[p := inside[from]])
  {
    var (b1, inside1) := (AfterRename(b, from, p), (inside - {from})[p := inside[from]]);
    forall q: Pid ensures MatchesAt(filter, b1, inside1, q) {
      assert MatchesAt(filter, b, inside, q) && MatchesAt(filter, b, inside, from) && MatchesAt(filter, b, inside, p);
    }
  }

  /** The new context of a tracee, once it is known under its present pid. */
  lemma ContextMatches(filter: set<SysNr>, b: Books, inside: map<Pid, SysNr>, p: Pid)
    requires Matches(filter, b, inside) && p in inside && IsExecCall(inside[p])
    ensures var o := AfterExec(filter, b, p, None);
      o.Kept? && (Matches(filter, o.books, inside - {p}) <==> Enabled(filter, inside[p]) || b.active.None?)
  {
    assert MatchesAt(filter, b, inside, p);
    var o := AfterExec(filter, b, p, None);
    if Enabled(filter, inside[p]) {
      ResumeAndClear(filter, b, inside, p);
      PrintMatches(filter, AfterResume(b, p).books.(active := None), o.books.out, inside - {p});
    } else {
      NotInside(filter, b, inside, p);
      PrintMatches(filter, b.(active := None), o.books.out, inside - {p});
      if b.active.Some? {
        var q := b.active.value.0;
        assert MatchesAt(filter, b, inside, q);
        assert !MatchesAt(filter, AfterExec(filter, b, p, None).books, inside - {p}, q);
      }
    }
  }

  lemma ExecMatches(filter: set<SysNr>, b: Books, inside: map<Pid, SysNr>, p: Pid, oldPid: Option<Pid>)
    requires Matches(filter, b, inside) && InOrder(inside, NewExec(p, oldPid))
    ensures var (e, o) := (NewExec(p, oldPid), AfterExec(filter, b, p, oldPid));
      o.Kept? && (Matches(filter, o.books, Track(inside, e)) <==> !Drops(filter, b, inside, e))
  {
    if oldPid.Some? {
      var from := oldPid.value;
      var inside1 := (inside - {from})[p := inside[from]];
      RenameMatches(filter, b, inside, from, p);
      ContextMatches(filter, AfterRename(b, from, p), inside1, p);
      assert inside1 - {p} == Track(inside, NewExec(p, oldPid));
    } else {
      ContextMatches(filter, b, inside, p);
    }
  }

  lemma EndMatches(filter: set<SysNr>, b: Books, inside: map<Pid, SysNr>, p: Pid, abort: bool)
    requires Matches(filter, b, inside)
    ensures var o := AfterEnd(filter, b, p, abort);
      o.Kept? && Matches(filter, o.books, inside - {p})
  {
    assert MatchesAt(filter, b, inside, p);
    var o := AfterEnd(filter, b, p, abort);
    forall q: Pid ensures o.Kept? && MatchesAt(filter, o.books, inside - {p}, q) {
      assert MatchesAt(filter, b, inside, q);
    }
  }

  lemma RemarkMatches(filter: set<SysNr>, b: Books, inside: map<Pid, SysNr>, p: Pid)
    requires Matches(filter, b, inside)
    ensures Matches(filter, Print(AfterBreak(b), Note(p)), inside)
  {
    forall q: Pid ensures MatchesAt(filter, Print(AfterBreak(b), Note(p)), inside, q) {
      assert MatchesAt(filter, b, inside, q);
    }
  }

  /** The assert never fires, and the books stay right exactly unless an execve()
      that is filtered out meets an open line. */
  lemma StepMatches(filter: set<SysNr>, b: Books, inside: map<Pid, SysNr>, e: Event)
    requires Matches(filter, b, inside) && InOrder(inside, e)
    ensures Step(filter, b, e).Kept?
    ensures Matches(filter, Step(filter, b, e).books, Track(inside, e)) <==> !Drops(filter, b, inside, e)
  {
    hide Matches, AfterEntry, AfterExit, AfterExec, AfterEnd, AfterBreak;
    match e
    case Entered(p, nr) => EntryMatches(filter, b, inside, p, nr);
    case Returned(p, nr, ok) => ExitMatches(filter, b, inside, p, nr, ok);
    case NewExec(p, oldPid) => ExecMatches(filter, b, inside, p, oldPid);
    case Exited(p, fromEntryStop) => EndMatches(filter, b, inside, p, fromEntryStop);
    case Disappeared(p) => EndMatches(filter, b, inside, p, true);
    case Remark(p) => RemarkMatches(filter, b, inside, p);
  }

  // ----- runs

  function RunAll(filter: set<SysNr>, b: Books, events: seq<Event>): Outcome
    decreases |events|
  {
    if events == [] then Kept(b)
    else
      var o := Step(filter, b, events[0]);
      if o.Crashed? then Crashed else RunAll(filter, o.books, events[1..])
  }

  function TrackAll(inside: map<Pid, SysNr>, events: seq<Event>): map<Pid, SysNr>
    decreases |events|
  {
    if events == [] then inside else TrackAll(Track(inside, events[0]), events[1..])
  }

  predicate AllInOrder(inside: map<Pid, SysNr>, events: seq<Event>)
    decreases |events|
  {
    events == [] || (InOrder(inside, events[0]) && AllInOrder(Track(inside, events[0]), events[1..]))
  }

  predicate EverDrops(filter: set<SysNr>, b: Books, inside: map<Pid, SysNr>, events: seq<Event>)
    decreases |events|
  {
    if events == [] then false
    else
      var o := Step(filter, b, events[0]);
      || Drops(filter, b, inside, events[0])
      || (o.Kept? && EverDrops(filter, o.books, Track(inside, events[0]), events[1..]))
  }

  const NOTHING := Books(None, map[], [])

  lemma {:induction false} RunMatches(filter: set<SysNr>, b: Books, inside: map<Pid, SysNr>, events: seq<Event>)
    requires Matches(filter, b, inside) && AllInOrder(inside, events) && !EverDrops(filter, b, inside, events)
    ensures var o := RunAll(filter, b, events);
      o.Kept? && Matches(filter, o.books, TrackAll(inside, events))
    decreases |events|
  {
    if events != [] {
      hide Matches, Step, Track, InOrder, Drops;
      StepMatches(filter, b, inside, events[0]);
      RunMatches(filter, Step(filter, b, events[0]).books, Track(inside, events[0]), events[1..]);
    }
  }

  lemma {:induction false} WatchedExecsNeverDrop(filter: set<SysNr>, b: Books, inside: map<Pid, SysNr>, events: seq<Event>)
    requires filter == {} || {Execve, Execveat} <= filter
    ensures !EverDrops(filter, b, inside, events)
    decreases |events|
  {
    if events != [] && Step(filter, b, events[0]).Kept? {
      WatchedExecsNeverDrop(filter, Step(filter, b, events[0]).books, Track(inside, events[0]), events[1..]);
    }
  }

  /** Main result, for every well-bracketed run of any number of tracees with an
      empty filter or one that has the exec calls: the assert never fires, and
      the books say exactly who is inside an enabled call. */
  lemma BooksAreRight(filter: set<SysNr>, events: seq<Event>)
    requires filter == {} || {Execve, Execveat} <= filter
    requires AllInOrder(map[], events)
    ensures var o := RunAll(filter, NOTHING, events);
      o.Kept? && Matches(filter, o.books, TrackAll(map[], events))
  {
    WatchedExecsNeverDrop(filter, NOTHING, map[], events);
    RunMatches(filter, NOTHING, map[], events);
  }

  // ----- the line that is open

  /** Callbacks that print nothing. */
  predicate Silent(filter: set<SysNr>, e: Event) {
    match e
    case Entered(_, nr) => filter != {} && nr !in filter
    case Returned(_, nr, ok) => (filter != {} && nr !in filter) || (ok && nr in {Execve, Execveat})
    case _ => false
  }

  /** The call whose line is open: the last thing that was printed is its entry. */
  function OpenLine(filter: set<SysNr>, events: seq<Event>): Option<(Pid, SysNr)> {
    if events == [] then None
    else
      var last := events[|events| - 1];
      if Silent(filter, last) then OpenLine(filter, events[..|events| - 1])
      else if last.Entered? then Some((last.pid, last.nr)) else None
  }

  lemma {:induction false} RunLast(filter: set<SysNr>, b: Books, events: seq<Event>)
    requires events != []
    ensures var o := RunAll(filter, b, events[..|events| - 1]);
      RunAll(filter, b, events) == if o.Crashed? then Crashed else Step(filter, o.books, events[|events| - 1])
    decreases |events|
  {
    if |events| > 1 && Step(filter, b, events[0]).Kept? {
      hide Step;
      RunLast(filter, Step(filter, b, events[0]).books, events[1..]);
      assert events[..|events| - 1][1..] == events[1..][..|events[1..]| - 1];
    }
  }

  lemma StepOpens(filter: set<SysNr>, b: Books, e: Event)
    requires Step(filter, b, e).Kept?
    ensures Step(filter, b, e).books.active
         == if Silent(filter, e) then b.active else if e.Entered? then Some((e.pid, e.nr)) else None
  {}

  /** In every run that does not crash, in order or not, the active call is the
      one whose entry was the last thing printed. */
  lemma {:induction false} ActiveIsOpenLine(filter: set<SysNr>, events: seq<Event>)
    requires RunAll(filter, NOTHING, events).Kept?
    ensures RunAll(filter, NOTHING, events).books.active == OpenLine(filter, events)
  {
    if events != [] {
      hide Step, Silent;
      var before := events[..|events| - 1];
      RunLast(filter, NOTHING, events);
      ActiveIsOpenLine(filter, before);
      StepOpens(filter, RunAll(filter, NOTHING, before).books, events[|events| - 1]);
    }
  }

  /** The calls that are to be unfinished, from the callbacks alone. */
  ghost function UnfinishedOf(filter: set<SysNr>, open: Option<(Pid, SysNr)>, inside: map<Pid, SysNr>): map<Pid, SysNr> {
    map p | p in inside && (filter == {} || inside[p] in filter)
            && !(open.Some? && open.value.0 == p) :: inside[p]
  }

  lemma MatchingBooks(filter: set<SysNr>, b: Books, inside: map<Pid, SysNr>)
    requires Matches(filter, b, inside)
    ensures b.unfinished == UnfinishedOf(filter, b.active, inside)
    ensures b.active.Some? ==> InsideEnabled(filter, inside, b.active.value.0)
  {
    var c := UnfinishedOf(filter, b.active, inside);
    if b.active.Some? { assert MatchesAt(filter, b, inside, b.active.value.0); }
    forall p: Pid
      ensures (p in b.unfinished <==> p in c) && (p in c ==> b.unfinished[p] == c[p])
    {
      assert MatchesAt(filter, b, inside, p);
    }
  }

  /** Both fields exactly, for every well-bracketed run under a filter that is
      empty or has the exec calls. */
  lemma BooksExactly(filter: set<SysNr>, events: seq<Event>)
    requires filter == {} || {Execve, Execveat} <= filter
    requires AllInOrder(map[], events)
    ensures var (o, open) := (RunAll(filter, NOTHING, events), OpenLine(filter, events));
      && o.Kept? && o.books.active == open
      && o.books.unfinished == UnfinishedOf(filter, open, TrackAll(map[], events))
  {
    hide Matches, UnfinishedOf;
    BooksAreRight(filter, events);
    ActiveIsOpenLine(filter, events);
    MatchingBooks(filter, RunAll(filter, NOTHING, events).books, TrackAll(map[], events));
  }

  /** With any other filter the assert can fire: it does whenever the tracee
      whose open line an execve() made the tracer forget returns next. */
  lemma ForgottenCallCrashes(filter: set<SysNr>, b: Books, inside: map<Pid, SysNr>, e: Event, ok: bool)
    requires Matches(filter, b, inside) && Drops(filter, b, inside, e)
    ensures var (q, nr) := b.active.value;
      var b1 := Step(filter, b, e).books;
      && q in Track(inside, e) && Track(inside, e)[q] == nr
      && (!(IsExecCall(nr) && ok) ==>
            InOrder(Track(inside, e), Returned(q, nr, ok)) && Step(filter, b1, Returned(q, nr, ok)).Crashed?)
  {
    var (q, nr) := b.active.value;
    assert MatchesAt(filter, b, inside, q) && MatchesAt(filter, b, inside, Execing(e));
    assert MatchesAt(filter, b, inside, e.pid);
  }

  /** One process is inside a watched call while another starts a program by an
      exec call that is not watched; then the first call fails. */
  function ForgottenCall(watched: SysNr, exec: SysNr): seq<Event> {
    [Entered(1, watched), Entered(2, exec), NewExec(2, None), Returned(1, watched, false)]
  }

  lemma ForgottenInEveryFilter(filter: set<SysNr>, watched: SysNr, exec: SysNr)
    requires watched in filter && IsExecCall(exec) && exec !in filter
    ensures AllInOrder(map[], ForgottenCall(watched, exec))
    ensures RunAll(filter, NOTHING, ForgottenCall(watched, exec)).Crashed?
  {
    var events := ForgottenCall(watched, exec);
    var i1 := map[1 := watched];
    var i2 := map[1 := watched, 2 := exec];
    var e1, e2, e3 := events[1..], events[2..], events[3..];
    assert e1[1..] == e2 && e2[1..] == e3 && e3[1..] == [];
    assert AllInOrder(i1, e3);
    assert Track(i2, NewExec(2, None)) == i1;
    assert AllInOrder(i2, e2);
    assert AllInOrder(i1, e1);
    var b1 := Books(Some((1, watched)), map[], [Begin(1, watched)]);
    var b3 := Books(None, map[], [Begin(1, watched), Note(2)]);
    assert Step(filter, b1, NewExec(2, None)) == Kept(b3);
    assert RunAll(filter, b3, e3).Crashed?;
    assert RunAll(filter, b1, e2).Crashed?;
    assert Step(filter, b1, Entered(2, exec)) == Kept(b1);
    assert RunAll(filter, b1, e1).Crashed?;
    assert Step(filter, NOTHING, Entered(1, watched)) == Kept(b1);
  }

  /** For instance: read(2) is watched and execve(2) is not. */
  lemma ForgottenRead(read: SysNr)
    requires read.Other?
    ensures AllInOrder(map[], ForgottenCall(read, Execve))
    ensures RunAll({read}, NOTHING, ForgottenCall(read, Execve)).Crashed?
  {
    ForgottenInEveryFilter({read}, read, Execve);
  }

  /** No well-bracketed run makes the assert fire. */
  ghost predicate NeverCrashes(filter: set<SysNr>) {
    forall events | AllInOrder(map[], events) :: RunAll(filter, NOTHING, events).Kept?
  }

  lemma HasMember(filter: set<SysNr>)
    ensures filter == {} || exists nr :: nr in filter
  {
    if forall nr :: nr !in filter { assert filter == {}; }
  }

  /** What a user can go by: the assert never fires if and only if the filter is
      empty or lets both exec calls through. */
  lemma SafeFiltersExactly(filter: set<SysNr>)
    ensures NeverCrashes(filter) <==> filter == {} || {Execve, Execveat} <= filter
  {
    if filter == {} || {Execve, Execveat} <= filter {
      forall events | AllInOrder(map[], events) ensures RunAll(filter, NOTHING, events).Kept? {
        BooksAreRight(filter, events);
      }
    } else {
      HasMember(filter);
      var watched :| watched in filter;
      var exec := if Execve in filter then Execveat else Execve;
      ForgottenInEveryFilter(filter, watched, exec);
      assert !RunAll(filter, NOTHING, ForgottenCall(watched, exec)).Kept?;
    }
  }

  // ----- the consumer object

  /** The tracer with its two fields, updated by the callbacks. The ghost field
      is what the callbacks said so far, and the assert is the source's. */
  class TermTracer {
    const filter: set<SysNr>
    var active: Option<(Pid, SysNr)>
    var unfinished: map<Pid, SysNr>
    var out: seq<Piece>
    ghost var inside: map<Pid, SysNr>

    function View(): Books
      reads this
    {
      Books(active, unfinished, out)
    }

    ghost predicate Valid()
      reads this
    {
      Matches(filter, View(), inside)
    }

    constructor (filter: set<SysNr>)
      ensures Valid() && this.filter == filter && View() == NOTHING && inside == map[]
    {
      this.filter, active, unfinished, out, inside := filter, None, map[], [], map[];
    }

    predicate HasActive(p: Pid)
      reads this
    {
      active.Some? && active.value.0 == p
    }

    method StartNewLine()
      modifies `active, `unfinished, `out
      ensures View() == AfterBreak(old(View()))
    {
      if active.Some? {
        unfinished := unfinished[active.value.0 := active.value.1];
        active := None;
        out := out + [BrokenOff];
      }
    }

    method CheckResumedSyscall(p: Pid)
      requires Current(View(), p).Some?
      modifies `active, `unfinished, `out
      ensures Kept(View()) == AfterResume(old(View()), p)
    {
      if HasActive(p) {
        return;
      }
      assert p in unfinished;
      var nr := unfinished[p];
      unfinished := unfinished - {p};
      StartNewLine();
      out := out + [Resume(p, nr)];
    }

    method SyscallEntry(p: Pid, nr: SysNr)
      requires Valid() && InOrder(inside, Entered(p, nr))
      modifies this
      ensures Valid() && inside == Track(old(inside), Entered(p, nr))
      ensures View() == AfterEntry(filter, old(View()), p, nr)
    {
      StepMatches(filter, View(), inside, Entered(p, nr));
      inside := Track(inside, Entered(p, nr));
      if Enabled(filter, nr) {
        StartNewLine();
        out := out + [Begin(p, nr)];
        active := Some((p, nr));
      }
    }

    method SyscallExit(p: Pid, nr: SysNr, succeeded: bool)
      requires Valid() && InOrder(inside, Returned(p, nr, succeeded))
      modifies this
      ensures Valid() && inside == Track(old(inside), Returned(p, nr, succeeded))
      ensures Kept(View()) == AfterExit(filter, old(View()), p, nr, succeeded)
    {
      StepMatches(filter, View(), inside, Returned(p, nr, succeeded));
      inside := Track(inside, Returned(p, nr, succeeded));
      if (IsExecCall(nr) && succeeded) || !Enabled(filter, nr) {
        return;
      }
      CheckResumedSyscall(p);
      var needNewline := active.Some? && !HasActive(p);
      assert !needNewline;   // no other tracee's line is ever open here
      out := out + [End(p, nr, Returns)];
      active := None;
    }

    method UpdateTracee(p: Pid, oldPid: Pid)
      modifies `active, `unfinished, `out
      ensures View() == AfterRename(old(View()), oldPid, p)
    {
      if HasActive(oldPid) {
        active := Some((p, active.value.1));
      } else if oldPid in unfinished {
        unfinished := unfinished[p := unfinished[oldPid]];
        unfinished := unfinished - {oldPid};
      }
    }

    method NewExecutionContext(p: Pid, oldPid: Option<Pid>)
      requires Valid() && InOrder(inside, NewExec(p, oldPid))
      requires !Drops(filter, View(), inside, NewExec(p, oldPid))
      modifies this
      ensures Valid() && inside == Track(old(inside), NewExec(p, oldPid))
      ensures Kept(View()) == AfterExec(filter, old(View()), p, oldPid)
    {
      StepMatches(filter, View(), inside, NewExec(p, oldPid));
      inside := Track(inside, NewExec(p, oldPid));
      if oldPid.Some? {
        UpdateTracee(p, oldPid.value);
      }
      if CurrentEnabled(filter, View(), p) {
        var nr := Current(View(), p).value;
        CheckResumedSyscall(p);
        out := out + [End(p, nr, Succeeds)];
      }
      active := None;
      out := out + [Note(p)];
    }

    method AbortSyscall(p: Pid)
      modifies `active, `unfinished, `out
      ensures Kept(View()) == AfterAbort(filter, old(View()), p)
    {
      var current := Current(View(), p);
      var enabled := CurrentEnabled(filter, View(), p);
      if HasActive(p) {
        active := None;
      } else if enabled {
        CheckResumedSyscall(p);
      }
      if enabled {
        out := out + [End(p, current.value, Never)];
      }
    }

    method TraceeGone(p: Pid, aborts: bool)
      requires Valid()
      modifies this
      ensures Valid() && inside == old(inside) - {p}
      ensures Kept(View()) == AfterEnd(filter, old(View()), p, aborts)
    {
      StepMatches(filter, View(), inside, if aborts then Event.Disappeared(p) else Event.Exited(p, false));
      inside := inside - {p};
      if aborts {
        AbortSyscall(p);
      }
      StartNewLine();
      out := out + [Note(p)];
      if HasActive(p) {
        active := None;
      } else {
        unfinished := unfinished - {p};
      }
    }
  }
}
