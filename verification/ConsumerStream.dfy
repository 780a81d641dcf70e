// From the engine to the terminal tracer: the callbacks about all tracees, in
// whatever order they are interleaved, are the well-bracketed run that the
// terminal tracer's books rely on.
module ConsumerStream {
  import opened Common
  import opened TraceeModel
  import opened TraceeRuns
  import opened EngineModel
  import EngineRuns
  import EngineCallbacks
  import Term = TerminalTracing
  import Transcript

  /** A callback about a tracee object. The flag says what the callback's own
      arguments do: that an exit succeeded, that an exited() tracee had last been
      in an entry stop, and whether other callbacks print something. */
  datatype Said = Said(id: nat, callback: Callback, flag: bool)

  /** What the terminal tracer makes of it; the child's side of newChildProcess()
      is the same call as the parent's. */
  function EventsOf(pid: Pid, s: Said): seq<Term.Event> {
    match s.callback
    case SyscallEntry(nr, _) => [Term.Entered(pid, nr)]
    case SyscallExit(nr, _) => [Term.Returned(pid, nr, s.flag)]
    case NewExecutionContext(oldPid) => [Term.NewExec(pid, oldPid)]
    case Exited(_) => [Term.Event.Exited(pid, s.flag)]
    case Disappeared => [Term.Event.Disappeared(pid)]
    case Announced => []
    case Resumed => []
    case VforkComplete(_) => []
    case _ => if s.flag then [Term.Remark(pid)] else []
  }

  predicate Named(pids: map<nat, Pid>, stream: seq<Said>) { forall s | s in stream :: s.id in pids }

  function Events(pids: map<nat, Pid>, stream: seq<Said>): seq<Term.Event>
    requires Named(pids, stream)
  {
    if stream == [] then []
    else Events(pids, stream[..|stream| - 1]) + EventsOf(pids[stream[|stream| - 1].id], stream[|stream| - 1])
  }

  /** What is said about one object. */
  function About(stream: seq<Said>, id: nat): seq<Said> {
    if stream == [] then []
    else About(stream[..|stream| - 1], id) + (if stream[|stream| - 1].id == id then [stream[|stream| - 1]] else [])
  }

  function Callbacks(said: seq<Said>): (r: seq<Callback>)
    ensures |r| == |said| && forall i | 0 <= i < |r| :: r[i] == said[i].callback
  {
    seq(|said|, i requires 0 <= i < |said| => said[i].callback)
  }

  // ----- what the kernel keeps beyond alternation

  predicate Ended(said: seq<Said>) { exists s :: s in said && (s.callback.Exited? || s.callback.Disappeared?) }

  /** A new execution context came since the last entry. */
  function Renewed(said: seq<Said>): bool {
    said != [] &&
    var last := said[|said| - 1].callback;
    (last.NewExecutionContext? || (!IsCallCallback(last) && Renewed(said[..|said| - 1])))
  }

  /** A process that ended makes no more calls. An execve() succeeds exactly if
      it brought a new context, which it does once and from within that call;
      here under the pid the tracee had. */
  predicate Keeps(before: seq<Said>, s: Said) {
    var open := Observe(Callbacks(before)).open;
    && (IsCallCallback(s.callback) ==> !Ended(before))
    && (s.callback.SyscallExit? && Term.IsExecCall(s.callback.nr) ==> (s.flag <==> Renewed(before)))
    && (s.callback.NewExecutionContext? ==>
          && s.callback.oldPid == None && !Ended(before) && !Renewed(before)
          && open.Some? && Term.IsExecCall(open.value))
  }

  predicate Disciplined(said: seq<Said>) {
    said == [] || (Disciplined(said[..|said| - 1]) && Keeps(said[..|said| - 1], said[|said| - 1]))
  }

  // ----- one object

  /** The call a tracee is inside of, as far as the consumer can tell. */
  function Inside(said: seq<Said>): Option<SysNr> {
    if Ended(said) || Renewed(said) then None else Observe(Callbacks(said)).open
  }

  predicate MayFollow(inside: Option<SysNr>, s: Said) {
    match s.callback
    case SyscallEntry(_, _) => inside == None
    case SyscallExit(nr, _) => inside == if Term.IsExecCall(nr) && s.flag then None else Some(nr)
    case NewExecutionContext(oldPid) => oldPid == None && inside.Some? && Term.IsExecCall(inside.value)
    case _ => true
  }

  /** What becomes of it with the next callback. */
  function Next(inside: Option<SysNr>, c: Callback): Option<SysNr> {
    match c
    case SyscallEntry(nr, _) => Some(nr)
    case SyscallExit(_, _) => None
    case NewExecutionContext(_) => None
    case Exited(_) => None
    case Disappeared => None
    case _ => inside
  }

  lemma CallbacksNext(said: seq<Said>)
    requires said != []
    ensures var (before, last) := (said[..|said| - 1], said[|said| - 1]);
      Callbacks(said) == Callbacks(before) + [last.callback]
      && Observe(Callbacks(said)) == See(Observe(Callbacks(before)), last.callback)
  {
    ObserveNext(Callbacks(said[..|said| - 1]), said[|said| - 1].callback);
    assert Callbacks(said) == Callbacks(said[..|said| - 1]) + [said[|said| - 1].callback];
  }

  lemma EndedNext(said: seq<Said>)
    requires said != []
    ensures var last := said[|said| - 1].callback;
      Ended(said) <==> Ended(said[..|said| - 1]) || last.Exited? || last.Disappeared?
  {
    var (before, last) := (said[..|said| - 1], said[|said| - 1]);
    assert said == before + [last];
  }

  /** A renewed tracee has an exec call open. */
  lemma {:induction false} RenewedInExec(said: seq<Said>)
    requires Disciplined(said) && Renewed(said)
    ensures var open := Observe(Callbacks(said)).open; open.Some? && Term.IsExecCall(open.value)
  {
    CallbacksNext(said);
    if !said[|said| - 1].callback.NewExecutionContext? { RenewedInExec(said[..|said| - 1]); }
  }

  lemma {:induction false} OneInOrder(said: seq<Said>)
    requires said != [] && Disciplined(said) && Observe(Callbacks(said)).bracketed
    ensures var (before, last) := (said[..|said| - 1], said[|said| - 1]);
      && Observe(Callbacks(before)).bracketed
      && MayFollow(Inside(before), last)
      && Inside(said) == Next(Inside(before), last.callback)
  {
    var (before, last) := (said[..|said| - 1], said[|said| - 1]);
    hide Observe;
    CallbacksNext(said);
    EndedNext(said);
    if Renewed(before) { RenewedInExec(before); }
  }

  // ----- all objects

  predicate DifferentPids(pids: map<nat, Pid>) {
    forall i, j | i in pids && j in pids && i != j :: pids[i] != pids[j]
  }

  ghost predicate Bracketed(pids: map<nat, Pid>, stream: seq<Said>) {
    forall id | id in pids :: Disciplined(About(stream, id)) && Observe(Callbacks(About(stream, id))).bracketed
  }

  /** The terminal tracer's view of all tracees is the sum of the views of each. */
  ghost predicate Sums(pids: map<nat, Pid>, stream: seq<Said>, inside: map<Pid, SysNr>) {
    forall id | id in pids ::
      Inside(About(stream, id)) == if pids[id] in inside then Some(inside[pids[id]]) else None
  }

  lemma {:induction false} TrackSplit(inside: map<Pid, SysNr>, a: seq<Term.Event>, b: seq<Term.Event>)
    ensures Term.TrackAll(inside, a + b) == Term.TrackAll(Term.TrackAll(inside, a), b)
    ensures Term.AllInOrder(inside, a + b)
       <==> Term.AllInOrder(inside, a) && Term.AllInOrder(Term.TrackAll(inside, a), b)
    decreases |a|
  {
    if a == [] {
      assert a + b == b;
    } else {
      TrackSplit(Term.Track(inside, a[0]), a[1..], b);
      assert (a + b)[0] == a[0] && (a + b)[1..] == a[1..] + b;
    }
  }

  lemma OneEvent(inside: map<Pid, SysNr>, e: Term.Event)
    ensures Term.TrackAll(inside, [e]) == Term.Track(inside, e)
    ensures Term.AllInOrder(inside, [e]) <==> Term.InOrder(inside, e)
  {
    assert [e][1..] == [];
  }

  lemma NothingSaid(inside: map<Pid, SysNr>)
    ensures Term.TrackAll(inside, []) == inside && Term.AllInOrder(inside, [])
  {}

  /** One callback, seen by the terminal tracer. */
  lemma CallbackInOrder(pid: Pid, s: Said, inside: map<Pid, SysNr>)
    requires MayFollow(if pid in inside then Some(inside[pid]) else None, s)
    ensures var events := EventsOf(pid, s);
      var after := Term.TrackAll(inside, events);
      && Term.AllInOrder(inside, events)
      && after - {pid} == inside - {pid}
      && (if pid in after then Some(after[pid]) else None)
         == Next(if pid in inside then Some(inside[pid]) else None, s.callback)
  {
    NothingSaid(inside);
    if EventsOf(pid, s) != [] {
      OneEvent(inside, EventsOf(pid, s)[0]);
      assert EventsOf(pid, s) == [EventsOf(pid, s)[0]];
    }
  }

  /** Any interleaving of callbacks that alternate for each tracee is in order. */
  lemma {:induction false} StreamInOrder(pids: map<nat, Pid>, stream: seq<Said>)
    requires Named(pids, stream) && DifferentPids(pids) && Bracketed(pids, stream)
    ensures Term.AllInOrder(map[], Events(pids, stream))
    ensures Sums(pids, stream, Term.TrackAll(map[], Events(pids, stream)))
  {
    if stream == [] {
      NothingSaid(map[]);
    } else {
      hide Bracketed, Sums, EventsOf, MayFollow, Next;
      var (before, s) := (stream[..|stream| - 1], stream[|stream| - 1]);
      assert s in stream;
      BracketedBefore(pids, stream);
      StreamInOrder(pids, before);
      var inside := Term.TrackAll(map[], Events(pids, before));
      NextOfStream(pids, stream, inside);
      TrackSplit(map[], Events(pids, before), EventsOf(pids[s.id], s));
    }
  }

  lemma AboutNext(stream: seq<Said>, id: nat)
    requires stream != []
    ensures var (before, s) := (stream[..|stream| - 1], stream[|stream| - 1]);
      && (s.id != id ==> About(stream, id) == About(before, id))
      && (s.id == id ==> About(stream, id) != [] && About(stream, id)[|About(stream, id)| - 1] == s
                         && About(stream, id)[..|About(stream, id)| - 1] == About(before, id))
  {}

  lemma BracketedBefore(pids: map<nat, Pid>, stream: seq<Said>)
    requires stream != [] && Bracketed(pids, stream)
    ensures Bracketed(pids, stream[..|stream| - 1])
  {
    var before := stream[..|stream| - 1];
    forall id | id in pids
      ensures Disciplined(About(before, id)) && Observe(Callbacks(About(before, id))).bracketed
    {
      hide Observe, Keeps;
      AboutNext(stream, id);
      if stream[|stream| - 1].id == id { OneInOrder(About(stream, id)); }
    }
  }

  lemma NextOfStream(pids: map<nat, Pid>, stream: seq<Said>, inside: map<Pid, SysNr>)
    requires stream != [] && stream[|stream| - 1].id in pids && DifferentPids(pids) && Bracketed(pids, stream)
    requires Sums(pids, stream[..|stream| - 1], inside)
    ensures var (before, s) := (stream[..|stream| - 1], stream[|stream| - 1]);
      var events := EventsOf(pids[s.id], s);
      Term.AllInOrder(inside, events) && Sums(pids, stream, Term.TrackAll(inside, events))
  {
    hide Observe, Disciplined, Inside, MayFollow, Next, EventsOf;
    var (before, s) := (stream[..|stream| - 1], stream[|stream| - 1]);
    AboutNext(stream, s.id);
    OneInOrder(About(stream, s.id));
    CallbackInOrder(pids[s.id], s, inside);
    var after := Term.TrackAll(inside, EventsOf(pids[s.id], s));
    forall id | id in pids
      ensures Inside(About(stream, id)) == if pids[id] in after then Some(after[pids[id]]) else None
    {
      AboutNext(stream, id);
      if id != s.id { OtherPid(inside, after, pids[s.id], pids[id]); }
    }
  }

  lemma OtherPid(inside: map<Pid, SysNr>, after: map<Pid, SysNr>, p: Pid, q: Pid)
    requires after - {p} == inside - {p} && p != q
    ensures q in after <==> q in inside
    ensures q in after ==> after[q] == inside[q]
  {
    assert q in after <==> q in after - {p};
    assert q in inside <==> q in inside - {p};
  }

  // ----- engine and terminal tracer together

  ghost predicate IsLogOf(e: Engine, id: nat, log: seq<Callback>) {
    || (exists p :: p in e.tracees && e.tracees[p].id == id && e.tracees[p].log == log)
    || (id in e.retired && e.retired[id].log == log)
  }

  /** The stream consists of what the engine told about each of its objects. */
  ghost predicate Interleaves(e: Engine, pids: map<nat, Pid>, stream: seq<Said>) {
    Named(pids, stream) && forall id | id in pids :: IsLogOf(e, id, Callbacks(About(stream, id)))
  }

  /** The callbacks of a run of the engine in which no pid changes hands, in any
      order of the tracees, are well-bracketed. */
  lemma EngineInOrder(e: Engine, rounds: seq<EngineRuns.Round>, pids: map<nat, Pid>, stream: seq<Said>)
    requires EngineRuns.Fresh(e) && EngineRuns.PlausibleRounds(e, rounds)
    requires EngineCallbacks.PlainRounds(e, rounds, false)
    requires Interleaves(EngineRuns.TraceAll(e, rounds), pids, stream) && DifferentPids(pids)
    requires forall id | id in pids :: Disciplined(About(stream, id))
    ensures Term.AllInOrder(map[], Events(pids, stream))
  {
    hide Disciplined, Observe, EngineRuns.TraceAll, EngineRuns.PlausibleRounds, EngineCallbacks.PlainRounds;
    EngineCallbacks.CallbacksOfAllTracees(e, rounds);
    forall id | id in pids ensures Observe(Callbacks(About(stream, id))).bracketed {
      BracketedMeansAlternates(Callbacks(About(stream, id)));
    }
    StreamInOrder(pids, stream);
  }

  /** End to end, for every run of the engine in which no pid changes hands and
      every interleaving of its callbacks: with an empty filter or one that has
      the exec calls, the terminal tracer's assert never fires, and its books say
      exactly who is inside an enabled call and whose line is open. */
  lemma EngineKeepsBooksRight(e: Engine, rounds: seq<EngineRuns.Round>, filter: set<SysNr>,
                              pids: map<nat, Pid>, stream: seq<Said>)
    requires EngineRuns.Fresh(e) && EngineRuns.PlausibleRounds(e, rounds)
    requires EngineCallbacks.PlainRounds(e, rounds, false)
    requires Interleaves(EngineRuns.TraceAll(e, rounds), pids, stream) && DifferentPids(pids)
    requires forall id | id in pids :: Disciplined(About(stream, id))
    requires filter == {} || {Execve, Execveat} <= filter
    ensures var o := Term.RunAll(filter, Term.NOTHING, Events(pids, stream));
      o.Kept? && Term.Matches(filter, o.books, Term.TrackAll(map[], Events(pids, stream)))
    ensures var events := Events(pids, stream);
      var (o, open) := (Term.RunAll(filter, Term.NOTHING, events), Term.OpenLine(filter, events));
      && o.books.active == open
      && o.books.unfinished == Term.UnfinishedOf(filter, open, Term.TrackAll(map[], events))
  {
    hide Disciplined, IsLogOf, EngineRuns.PlausibleRounds, EngineCallbacks.PlainRounds;
    EngineInOrder(e, rounds, pids, stream);
    Term.BooksAreRight(filter, Events(pids, stream));
    Term.BooksExactly(filter, Events(pids, stream));
  }

  /** And what it prints can be read: every watched call of every tracee begins and
      ends exactly as the callbacks say, however their lines are broken up. */
  lemma EnginePrintsReadably(e: Engine, rounds: seq<EngineRuns.Round>, filter: set<SysNr>,
                             pids: map<nat, Pid>, stream: seq<Said>)
    requires EngineRuns.Fresh(e) && EngineRuns.PlausibleRounds(e, rounds)
    requires EngineCallbacks.PlainRounds(e, rounds, false)
    requires Interleaves(EngineRuns.TraceAll(e, rounds), pids, stream) && DifferentPids(pids)
    requires forall id | id in pids :: Disciplined(About(stream, id))
    requires filter == {} || {Execve, Execveat} <= filter
    ensures var events := Events(pids, stream);
      && Term.AllInOrder(map[], events)
      && Transcript.ReadRun(filter, Transcript.Page(None, map[]), Term.NOTHING, events).Some?
      && var o := Term.RunAll(filter, Term.NOTHING, events);
         o.Kept? && Transcript.CallsIn(o.books.out) == Transcript.AllDue(filter, map[], events)
  {
    hide Disciplined, IsLogOf, EngineRuns.PlausibleRounds, EngineCallbacks.PlainRounds;
    EngineInOrder(e, rounds, pids, stream);
    Transcript.WatchedExecsAreReadable(filter, Events(pids, stream));
  }
}
