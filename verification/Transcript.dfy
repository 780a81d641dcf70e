// What the terminal tracer prints about calls, as a reader takes it in: lines that
// are opened, broken off, taken up again and ended (src/termtracer/TermTracer.cxx).
module Transcript {
  import opened Common
  import opened TraceeModel
  import opened TerminalTracing

  /** The line that stands open, and those that were broken off. */
  datatype Page = Page(open: Option<(Pid, SysNr)>, broken: map<Pid, SysNr>)

  /** One piece, if it makes sense where it stands: only one line is open at a time,
      only an open line ends or is broken off, only a broken one is taken up, and
      for the call it was about. */
  function Read(page: Page, piece: Piece): Option<Page> {
    match piece
    case Begin(p, nr) =>
      if page.open.None? && p !in page.broken then Some(page.(open := Some((p, nr)))) else None
    case BrokenOff =>
      if page.open.None? then None
      else Some(Page(None, page.broken[page.open.value.0 := page.open.value.1]))
    case Resume(p, nr) =>
      if page.open.None? && p in page.broken && page.broken[p] == nr
      then Some(Page(Some((p, nr)), page.broken - {p})) else None
    case End(p, nr, _) => if page.open == Some((p, nr)) then Some(page.(open := None)) else None
    case Note(_) => if page.open.None? then Some(page) else None
  }

  function ReadAll(page: Page, pieces: seq<Piece>): Option<Page>
    decreases |pieces|
  {
    if pieces == [] then Some(page)
    else
      var next := Read(page, pieces[0]);
      if next.None? then None else ReadAll(next.value, pieces[1..])
  }

  /** A tracee that is known under another pid from now on. */
  function Renamed(page: Page, e: Event): Page {
    if !e.NewExec? || e.oldPid.None? then page
    else if page.open.Some? && page.open.value.0 == e.oldPid.value then page.(open := Some((e.pid, page.open.value.1)))
    else if e.oldPid.value in page.broken then
      page.(broken := page.broken[e.pid := page.broken[e.oldPid.value]] - {e.oldPid.value})
    else page
  }

  /** A tracee that is gone leaves a broken line broken. */
  function Closed(page: Page, e: Event): Page {
    if e.Exited? || e.Disappeared? then page.(broken := page.broken - {e.pid}) else page
  }

  function ReadEvent(page: Page, e: Event, pieces: seq<Piece>): Option<Page> {
    var r := ReadAll(Renamed(page, e), pieces);
    if r.None? then None else Some(Closed(r.value, e))
  }

  /** The beginnings and endings of calls. */
  function CallsIn(pieces: seq<Piece>): seq<Piece> {
    if pieces == [] then []
    else CallIn(pieces[0]) + CallsIn(pieces[1..])
  }

  function CallIn(x: Piece): seq<Piece> { if x.Begin? || x.End? then [x] else [] }

  /** What is due to be printed of calls: each watched one begins once and ends
      once, with its result, with success at the new context of an execve, or
      unanswered when the tracee disappears or exits from within it. */
  function DueOf(filter: set<SysNr>, inside: map<Pid, SysNr>, e: Event): seq<Piece>
    requires InOrder(inside, e)
  {
    var watched := (nr: SysNr) => filter == {} || nr in filter;
    match e
    case Entered(p, nr) => if watched(nr) then [Begin(p, nr)] else []
    case Returned(p, nr, ok) => if watched(nr) && !(ok && nr in {Execve, Execveat}) then [End(p, nr, Returns)] else []
    case NewExec(p, oldPid) =>
      var nr := inside[if oldPid.Some? then oldPid.value else p];
      if watched(nr) then [End(p, nr, Succeeds)] else []
    case Exited(p, fromEntry) => if fromEntry && p in inside && watched(inside[p]) then [End(p, inside[p], Never)] else []
    case Disappeared(p) => if p in inside && watched(inside[p]) then [End(p, inside[p], Never)] else []
    case Remark(_) => []
  }

  function PageOf(b: Books): Page { Page(b.active, b.unfinished) }

  // ----- one event

  /** What was printed in going from one state to the next. */
  predicate Prints(b: Books, c: Books, pieces: seq<Piece>) { c.out == b.out + pieces }

  lemma ReadOne(page: Page, x: Piece)
    ensures ReadAll(page, [x]) == Read(page, x)
    ensures CallsIn([x]) == if x.Begin? || x.End? then [x] else []
  {
    assert [x][1..] == [];
  }

  lemma {:induction false} ReadMore(page: Page, a: seq<Piece>, b: seq<Piece>)
    ensures var r := ReadAll(page, a);
      ReadAll(page, a + b) == if r.None? then None else ReadAll(r.value, b)
    decreases |a|
  {
    hide Read;
    if a == [] {
      assert a + b == b;
    } else {
      assert (a + b)[0] == a[0] && (a + b)[1..] == a[1..] + b;
      if Read(page, a[0]).Some? { ReadMore(Read(page, a[0]).value, a[1..], b); }
    }
  }

  lemma {:induction false} CallsInMore(a: seq<Piece>, b: seq<Piece>)
    ensures CallsIn(a + b) == CallsIn(a) + CallsIn(b)
  {
    hide CallIn;
    if a == [] {
      assert a + b == b;
    } else {
      assert (a + b)[0] == a[0] && (a + b)[1..] == a[1..] + b;
      CallsInMore(a[1..], b);
      var (x, rest, more) := (CallIn(a[0]), CallsIn(a[1..]), CallsIn(b));
      assert (x + rest) + more == x + (rest + more);
    }
  }

  /** The pieces lead from one state's page to the next one's. */
  predicate Leads(b: Books, c: Books, pieces: seq<Piece>) {
    Prints(b, c, pieces) && ReadAll(PageOf(b), pieces) == Some(PageOf(c))
  }

  lemma LeadsOn(b: Books, c: Books, d: Books, x: seq<Piece>, y: seq<Piece>)
    requires Leads(b, c, x) && Leads(c, d, y)
    ensures Leads(b, d, x + y) && CallsIn(x + y) == CallsIn(x) + CallsIn(y)
  {
    ReadMore(PageOf(b), x, y);
    CallsInMore(x, y);
    assert b.out + x + y == b.out + (x + y);
  }

  function BreakPieces(b: Books): seq<Piece> { if b.active.Some? then [BrokenOff] else [] }

  lemma BreakLeads(b: Books)
    ensures Leads(b, AfterBreak(b), BreakPieces(b)) && CallsIn(BreakPieces(b)) == []
  {
    if b.active.Some? { ReadOne(PageOf(b), BrokenOff); }
  }

  lemma PieceLeads(b: Books, c: Books, x: Piece)
    requires c.out == b.out + [x] && Read(PageOf(b), x) == Some(PageOf(c))
    ensures Leads(b, c, [x])
  {
    ReadOne(PageOf(b), x);
  }

  lemma NoteLeads(b: Books, p: Pid)
    ensures var (c, pieces) := (Print(AfterBreak(b), Note(p)), BreakPieces(b) + [Note(p)]);
      Leads(b, c, pieces) && CallsIn(pieces) == []
  {
    BreakLeads(b);
    PieceLeads(AfterBreak(b), Print(AfterBreak(b), Note(p)), Note(p));
    LeadsOn(b, AfterBreak(b), Print(AfterBreak(b), Note(p)), BreakPieces(b), [Note(p)]);
    ReadOne(PageOf(b), Note(p));
  }

  lemma EntryLeads(filter: set<SysNr>, b: Books, inside: map<Pid, SysNr>, p: Pid, nr: SysNr) returns (pieces: seq<Piece>)
    requires Matches(filter, b, inside) && p !in inside
    ensures Leads(b, AfterEntry(filter, b, p, nr), pieces)
    ensures CallsIn(pieces) == DueOf(filter, inside, Entered(p, nr))
  {
    pieces := [];
    if Enabled(filter, nr) {
      assert MatchesAt(filter, b, inside, p);
      var c := AfterBreak(b);
      BreakLeads(b);
      PieceLeads(c, AfterEntry(filter, b, p, nr), Begin(p, nr));
      LeadsOn(b, c, AfterEntry(filter, b, p, nr), BreakPieces(b), [Begin(p, nr)]);
      ReadOne(PageOf(b), Begin(p, nr));
      pieces := BreakPieces(b) + [Begin(p, nr)];
    }
  }

  /** Take up the line of a call that is known, and end it. */
  function ResumePieces(b: Books, p: Pid): seq<Piece>
    requires Current(b, p).Some?
  {
    if Active(b, p) then [] else BreakPieces(b) + [Resume(p, b.unfinished[p])]
  }

  /** The state with the line open; the source's field says so only before. */
  function Taken(b: Books, p: Pid): Books
    requires Current(b, p).Some?
  {
    if Active(b, p) then b else AfterResume(b, p).books.(active := Some((p, b.unfinished[p])))
  }

  lemma ResumeLeads(b: Books, p: Pid)
    requires Current(b, p).Some?
    ensures Leads(b, Taken(b, p), ResumePieces(b, p)) && CallsIn(ResumePieces(b, p)) == []
  {
    if !Active(b, p) {
      var c := AfterBreak(b);
      BreakLeads(b);
      assert AfterBreak(b.(unfinished := b.unfinished - {p})) == c.(unfinished := c.unfinished - {p});
      PieceLeads(c, Taken(b, p), Resume(p, b.unfinished[p]));
      LeadsOn(b, c, Taken(b, p), BreakPieces(b), [Resume(p, b.unfinished[p])]);
      ReadOne(PageOf(c), Resume(p, b.unfinished[p]));
    }
  }

  /** The books once the line is ended. */
  function Ended(b: Books, p: Pid, how: Ending): Books
    requires Current(b, p).Some?
  {
    Print(Taken(b, p), End(p, Current(b, p).value, how)).(active := None)
  }

  lemma EndLeads(b: Books, p: Pid, how: Ending)
    requires Current(b, p).Some?
    ensures var pieces := ResumePieces(b, p) + [End(p, Current(b, p).value, how)];
      Leads(b, Ended(b, p, how), pieces) && CallsIn(pieces) == [End(p, Current(b, p).value, how)]
  {
    var x := End(p, Current(b, p).value, how);
    ResumeLeads(b, p);
    PieceLeads(Taken(b, p), Ended(b, p, how), x);
    LeadsOn(b, Taken(b, p), Ended(b, p, how), ResumePieces(b, p), [x]);
    ReadOne(PageOf(b), x);
  }

  lemma ExitLeads(filter: set<SysNr>, b: Books, inside: map<Pid, SysNr>, p: Pid, nr: SysNr, ok: bool)
    returns (pieces: seq<Piece>)
    requires Matches(filter, b, inside) && InOrder(inside, Returned(p, nr, ok))
    ensures var o := AfterExit(filter, b, p, nr, ok); o.Kept? && Leads(b, o.books, pieces)
    ensures CallsIn(pieces) == DueOf(filter, inside, Returned(p, nr, ok))
  {
    pieces := [];
    assert MatchesAt(filter, b, inside, p);
    if !(IsExecCall(nr) && ok) && Enabled(filter, nr) {
      EndLeads(b, p, Returns);
      pieces := ResumePieces(b, p) + [End(p, nr, Returns)];
    }
  }

  lemma ContextLeads(filter: set<SysNr>, b: Books, p: Pid, nr: SysNr) returns (pieces: seq<Piece>)
    requires Enabled(filter, nr) ==> Current(b, p) == Some(nr)
    requires !Enabled(filter, nr) ==> Current(b, p).None? && b.active.None?
    ensures Leads(b, AfterExec(filter, b, p, None).books, pieces)
    ensures CallsIn(pieces) == if Enabled(filter, nr) then [End(p, nr, Succeeds)] else []
  {
    var c := if Enabled(filter, nr) then Ended(b, p, Succeeds) else b;
    pieces := if Enabled(filter, nr) then ResumePieces(b, p) + [End(p, nr, Succeeds)] else [];
    if Enabled(filter, nr) { EndLeads(b, p, Succeeds); }
    PieceLeads(c, Print(c, Note(p)), Note(p));
    LeadsOn(b, c, Print(c, Note(p)), pieces, [Note(p)]);
    ReadOne(PageOf(c), Note(p));
    pieces := pieces + [Note(p)];
  }

  lemma AbortLeads(filter: set<SysNr>, b: Books, inside: map<Pid, SysNr>, p: Pid, abort: bool)
    returns (pieces: seq<Piece>)
    requires Matches(filter, b, inside)
    ensures var o := if abort then AfterAbort(filter, b, p) else Kept(b);
      && o.Kept? && Leads(b, o.books, pieces)
      && CallsIn(pieces) == if abort && InsideEnabled(filter, inside, p) then [End(p, inside[p], Never)] else []
  {
    pieces := [];
    assert MatchesAt(filter, b, inside, p);
    if abort && InsideEnabled(filter, inside, p) {
      EndLeads(b, p, Never);
      pieces := ResumePieces(b, p) + [End(p, inside[p], Never)];
    }
  }

  lemma GoneLeads(filter: set<SysNr>, b: Books, inside: map<Pid, SysNr>, p: Pid, abort: bool)
    returns (pieces: seq<Piece>)
    requires Matches(filter, b, inside)
    ensures var c := AfterEnd(filter, b, p, abort).books;
      && Prints(b, c, pieces)
      && ReadEvent(PageOf(b), Event.Disappeared(p), pieces) == Some(PageOf(c))
      && CallsIn(pieces) == if abort && InsideEnabled(filter, inside, p) then [End(p, inside[p], Never)] else []
  {
    var more := AbortLeads(filter, b, inside, p, abort);
    var c := (if abort then AfterAbort(filter, b, p) else Kept(b)).books;
    NoteLeads(c, p);
    LeadsOn(b, c, Print(AfterBreak(c), Note(p)), more, BreakPieces(c) + [Note(p)]);
    pieces := more + (BreakPieces(c) + [Note(p)]);
  }

  lemma ExecLeads(filter: set<SysNr>, b: Books, inside: map<Pid, SysNr>, e: Event) returns (pieces: seq<Piece>)
    requires Matches(filter, b, inside) && e.NewExec? && InOrder(inside, e) && !Drops(filter, b, inside, e)
    ensures var c := AfterExec(filter, b, e.pid, e.oldPid).books;
      && Prints(b, c, pieces)
      && ReadEvent(PageOf(b), e, pieces) == Some(PageOf(c))
      && CallsIn(pieces) == DueOf(filter, inside, e)
  {
    assert MatchesAt(filter, b, inside, Execing(e)) && MatchesAt(filter, b, inside, e.pid);
    var b1 := if e.oldPid.Some? then AfterRename(b, e.oldPid.value, e.pid) else b;
    assert PageOf(b1) == Renamed(PageOf(b), e);
    pieces := ContextLeads(filter, b1, e.pid, inside[Execing(e)]);
  }

  /** What is printed at one event makes sense to the reader, who then knows what
      the books say, and begins and ends exactly the calls that are due. */
  lemma StepReads(filter: set<SysNr>, b: Books, inside: map<Pid, SysNr>, e: Event) returns (pieces: seq<Piece>)
    requires Matches(filter, b, inside) && InOrder(inside, e) && !Drops(filter, b, inside, e)
    ensures var o := Step(filter, b, e);
      && o.Kept? && Prints(b, o.books, pieces)
      && ReadEvent(PageOf(b), e, pieces) == Some(PageOf(o.books))
      && CallsIn(pieces) == DueOf(filter, inside, e)
  {
    hide AfterEntry, AfterExit, AfterExec, AfterEnd, AfterBreak, Matches, ReadAll, CallsIn;
    StepMatches(filter, b, inside, e);
    match e
    case Entered(p, nr) => pieces := EntryLeads(filter, b, inside, p, nr);
    case Returned(p, nr, ok) => pieces := ExitLeads(filter, b, inside, p, nr, ok);
    case NewExec(p, oldPid) => pieces := ExecLeads(filter, b, inside, e);
    case Exited(p, fromEntry) => pieces := GoneLeads(filter, b, inside, p, fromEntry);
    case Disappeared(p) => pieces := GoneLeads(filter, b, inside, p, true);
    case Remark(p) =>
      NoteLeads(b, p);
      pieces := BreakPieces(b) + [Note(p)];
  }

  /** Nobody can read on when an execve that is filtered out made the tracer forget
      the open line: it goes on in that line. */
  lemma DropGarbles(filter: set<SysNr>, b: Books, inside: map<Pid, SysNr>, e: Event)
    requires Matches(filter, b, inside) && Drops(filter, b, inside, e)
    ensures var o := Step(filter, b, e);
      && o.Kept? && o.books.out == b.out + [Note(e.pid)]
      && ReadEvent(PageOf(b), e, [Note(e.pid)]).None?
  {
    assert MatchesAt(filter, b, inside, Execing(e)) && MatchesAt(filter, b, inside, e.pid);
    ReadOne(Renamed(PageOf(b), e), Note(e.pid));
  }

  // ----- runs

  /** Read what is printed event by event. */
  function ReadRun(filter: set<SysNr>, page: Page, b: Books, events: seq<Event>): Option<Page>
    decreases |events|
  {
    if events == [] then Some(page)
    else
      var o := Step(filter, b, events[0]);
      if o.Crashed? || |o.books.out| < |b.out| then None
      else
        var r := ReadEvent(page, events[0], o.books.out[|b.out|..]);
        if r.None? then None else ReadRun(filter, r.value, o.books, events[1..])
  }

  function AllDue(filter: set<SysNr>, inside: map<Pid, SysNr>, events: seq<Event>): seq<Piece>
    requires AllInOrder(inside, events)
    decreases |events|
  {
    if events == [] then []
    else DueOf(filter, inside, events[0]) + AllDue(filter, Track(inside, events[0]), events[1..])
  }

  lemma {:induction false} RunReads(filter: set<SysNr>, b: Books, inside: map<Pid, SysNr>, events: seq<Event>)
    requires Matches(filter, b, inside) && AllInOrder(inside, events)
    ensures var (o, r) := (RunAll(filter, b, events), ReadRun(filter, PageOf(b), b, events));
      if EverDrops(filter, b, inside, events) then r.None?
      else
        && o.Kept? && r == Some(PageOf(o.books))
        && CallsIn(o.books.out) == CallsIn(b.out) + AllDue(filter, inside, events)
    decreases |events|
  {
    hide Matches, Step, Track, InOrder, Drops, ReadEvent, DueOf, CallsIn;
    if events == [] {
      assert CallsIn(b.out) + [] == CallsIn(b.out);
    } else {
      var (e, o) := (events[0], Step(filter, b, events[0]));
      if Drops(filter, b, inside, e) {
        DropGarbles(filter, b, inside, e);
        assert o.books.out[|b.out|..] == [Note(e.pid)];
      } else {
        StepMatches(filter, b, inside, e);
        var pieces := StepReads(filter, b, inside, e);
        assert o.books.out[|b.out|..] == pieces;
        RunReads(filter, o.books, Track(inside, e), events[1..]);
        CallsInMore(b.out, pieces);
        assert CallsIn(b.out) + CallsIn(pieces) + AllDue(filter, Track(inside, e), events[1..])
            == CallsIn(b.out) + (CallsIn(pieces) + AllDue(filter, Track(inside, e), events[1..]));
      }
    }
  }

  /** Main result on the printed trace, for every well-bracketed run and any filter:
      it can be read exactly if no execve that is filtered out meets an open line;
      and then the reader knows what the books say, and each watched call was begun
      and ended exactly as the events call for, in their order. */
  lemma ReadableExactly(filter: set<SysNr>, events: seq<Event>)
    requires AllInOrder(map[], events)
    ensures var (o, r) := (RunAll(filter, NOTHING, events), ReadRun(filter, Page(None, map[]), NOTHING, events));
      && (r.Some? <==> !EverDrops(filter, NOTHING, map[], events))
      && (r.Some? ==> o.Kept? && r.value == Page(o.books.active, o.books.unfinished)
                      && CallsIn(o.books.out) == AllDue(filter, map[], events))
  {
    RunReads(filter, NOTHING, map[], events);
    assert CallsIn([]) + AllDue(filter, map[], events) == AllDue(filter, map[], events);
  }

  /** So it is under every filter that is empty or has the exec calls. */
  lemma WatchedExecsAreReadable(filter: set<SysNr>, events: seq<Event>)
    requires filter == {} || {Execve, Execveat} <= filter
    requires AllInOrder(map[], events)
    ensures ReadRun(filter, Page(None, map[]), NOTHING, events).Some?
    ensures var o := RunAll(filter, NOTHING, events);
      o.Kept? && CallsIn(o.books.out) == AllDue(filter, map[], events)
  {
    WatchedExecsNeverDrop(filter, NOTHING, map[], events);
    ReadableExactly(filter, events);
  }
}
