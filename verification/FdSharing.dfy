// Descriptor tables of many tracees, some of which share one: as the tracer
// mirrors them, and as the kernel has them.
module FdSharing {
  import opened Common
  import opened FdTracking

  type Pid = int

  /** Who uses which table. In the tracer a table is a ProcessData object. */
  datatype World<T> = World(owner: map<Pid, nat>, tables: map<nat, T>, next: nat)

  ghost predicate Sane<T>(w: World<T>) {
    && (forall p | p in w.owner :: w.owner[p] in w.tables)
    && (forall i | i in w.tables :: i < w.next)
  }

  function TableOf<T>(w: World<T>, p: Pid): T
    requires p in w.owner && w.owner[p] in w.tables
  {
    w.tables[w.owner[p]]
  }

  function SetTable<T>(w: World<T>, p: Pid, t: T): World<T>
    requires p in w.owner
  {
    w.(tables := w.tables[w.owner[p] := t])
  }

  /** A new task uses its parent's table, or starts with a copy of it. */
  function Joined<T>(w: World<T>, parent: Pid, child: Pid, shared: bool): World<T>
    requires parent in w.owner && w.owner[parent] in w.tables
  {
    if shared then w.(owner := w.owner[child := w.owner[parent]])
    else World(w.owner[child := w.next], w.tables[w.next := TableOf(w, parent)], w.next + 1)
  }

  /** The call a new task came from: for clone3() whether its argument structure
      could be read, and whether CLONE_FILES was really given. */
  datatype Spawning = ViaClone(shareFiles: bool) | ViaClone3(argsRead: bool, shareFiles: bool) | ViaFork | ViaVfork

  /** shares_file_descriptors_with_parent() */
  function SharesWithParent(s: Spawning): bool {
    match s
    case ViaClone3(argsRead, shareFiles) => argsRead && shareFiles
    case ViaClone(shareFiles) => shareFiles
    case ViaFork => false
    case ViaVfork => false
  }

  /** For a clone3() whose arguments are missing the engine asks them next, before
      it tells anybody of the new task, whether a thread was created. */
  predicate Faults(s: Spawning) { s.ViaClone3? && !s.argsRead }

  predicate KernelShares(s: Spawning) { (s.ViaClone? || s.ViaClone3?) && s.shareFiles }

  datatype Step =
    | Call(pid: Pid, call: FdCall)
    | Spawn(parent: Pid, child: Pid, how: Spawning)
    | Exec(pid: Pid, order: seq<int>)    // the order the mirror's entries are walked in
    | Gone(pid: Pid)

  predicate Alone(owner: map<Pid, nat>, p: Pid)
    requires p in owner
  {
    forall q | q in owner && q != p :: owner[q] != owner[p]
  }

  /** What the step does to the kernel's tables. An execve() ends sharing. */
  function KernelStep(k: World<KernelTable>, s: Step): World<KernelTable>
    requires Sane(k) && PossibleStep(k, s)
  {
    match s
    case Call(p, c) => SetTable(k, p, Done(TableOf(k, p), c))
    case Spawn(parent, child, how) => Joined(k, parent, child, KernelShares(how))
    case Exec(p, _) =>
      var k1 := if Alone(k.owner, p) then k else Joined(k, p, p, false);
      SetTable(k1, p, Survivors(TableOf(k, p)))
    case Gone(p) => k.(owner := k.owner - {p})
  }

  ghost predicate PossibleStep(k: World<KernelTable>, s: Step)
    requires Sane(k)
  {
    match s
    case Call(p, c) => p in k.owner && Possible(TableOf(k, p), c)
    case Spawn(parent, child, _) => parent in k.owner && child !in k.owner
    case Exec(p, _) => p in k.owner
    case Gone(p) => p in k.owner
  }

  /** What it does to the tracer's mirror; only the tables of known tracees. */
  function MirrorStep(m: World<FdMap>, k: World<KernelTable>, s: Step): World<FdMap>
    requires Sane(m) && Sane(k) && PossibleStep(k, s) && m.owner.Keys == k.owner.Keys
  {
    match s
    case Call(p, c) => SetTable(m, p, Tracked(TableOf(m, p), c))
    case Spawn(parent, child, how) => Joined(m, parent, child, SharesWithParent(how))
    case Exec(p, order) => SetTable(m, p, Synced(TableOf(m, p), order, Survivors(TableOf(k, p)).Keys))
    case Gone(p) => m.(owner := m.owner - {p})
  }

  /** The same tracees share, and each table mirrors the kernel's. */
  ghost predicate Agrees(m: World<FdMap>, k: World<KernelTable>) {
    && Sane(m) && Sane(k) && m.owner == k.owner && m.next == k.next
    && forall p | p in m.owner :: Mirrors(TableOf(m, p), TableOf(k, p))
  }

  /** What the mirror needs: readable results and arguments, no execve() of a
      process that shares its table, and no two neighbours closed by one. */
  ghost predicate Followable(m: World<FdMap>, k: World<KernelTable>, s: Step)
    requires Sane(m) && Sane(k)
  {
    match s
    case Call(_, c) => Readable(c)
    case Spawn(_, _, how) => SharesWithParent(how) == KernelShares(how)
    case Exec(p, order) =>
      p in m.owner && p in k.owner ==>
        Alone(k.owner, p) && IsOrderOf(order, TableOf(m, p))
        && !NeighboursClosed(order, Survivors(TableOf(k, p)).Keys)
    case Gone(_) => true
  }

  lemma StepAgrees(m: World<FdMap>, k: World<KernelTable>, s: Step)
    requires Agrees(m, k) && PossibleStep(k, s) && Followable(m, k, s)
    ensures Agrees(MirrorStep(m, k, s), KernelStep(k, s))
  {
    hide Tracked, Done, Mirrors, Survivors, Synced, Possible, Readable;
    match s
    case Call(p, c) => CallMirrored(TableOf(m, p), TableOf(k, p), c);
    case Exec(p, order) => ExecMirroredExactly(TableOf(m, p), TableOf(k, p), order);
    case _ =>
  }

  // ----- runs

  ghost predicate PossibleRun(m: World<FdMap>, k: World<KernelTable>, steps: seq<Step>)
    requires Agrees(m, k)
    decreases |steps|
  {
    steps == [] ||
    (PossibleStep(k, steps[0]) && Followable(m, k, steps[0])
     && (StepAgrees(m, k, steps[0]);
         PossibleRun(MirrorStep(m, k, steps[0]), KernelStep(k, steps[0]), steps[1..])))
  }

  ghost function RunBoth(m: World<FdMap>, k: World<KernelTable>, steps: seq<Step>): (World<FdMap>, World<KernelTable>)
    requires Agrees(m, k) && PossibleRun(m, k, steps)
    decreases |steps|
  {
    if steps == [] then (m, k)
    else
      StepAgrees(m, k, steps[0]);
      RunBoth(MirrorStep(m, k, steps[0]), KernelStep(k, steps[0]), steps[1..])
  }

  /** Main result, for every run of calls, new tasks, execve() and ends of any
      number of tracees: each one's mirrored table has exactly the open
      descriptors, and two tracees share a mirror iff they share a table. */
  lemma {:induction false} MirrorInEveryRun(m: World<FdMap>, k: World<KernelTable>, steps: seq<Step>)
    requires Agrees(m, k) && PossibleRun(m, k, steps)
    ensures var (m1, k1) := RunBoth(m, k, steps);
      && m1.owner.Keys == k1.owner.Keys
      && (forall p | p in m1.owner :: p in k1.owner && m1.owner[p] in m1.tables && k1.owner[p] in k1.tables
            && Mirrors(TableOf(m1, p), TableOf(k1, p)))
      && (forall p, q | p in m1.owner && q in m1.owner ::
            m1.owner[p] == m1.owner[q] <==> k1.owner[p] == k1.owner[q])
    decreases |steps|
  {
    if steps != [] {
      hide Agrees, PossibleStep, Followable;
      StepAgrees(m, k, steps[0]);
      MirrorInEveryRun(MirrorStep(m, k, steps[0]), KernelStep(k, steps[0]), steps[1..]);
    }
  }

  // ----- where mirror and kernel part

  lemma {:induction false} SomethingIsDropped(keys: seq<int>, left: set<int>) returns (fd: int)
    requires Ascending(keys) && !AllIn(keys, left)
    ensures fd in keys && fd !in Kept(keys, left)
    decreases |keys|
  {
    if keys[0] in left {
      fd := SomethingIsDropped(keys[1..], left);
      assert fd in keys[1..];
    } else {
      fd := keys[0];
      KeptAreKeys(keys, left);
      if |keys| > 1 { KeptAreKeys(keys[2..], left); }
    }
  }

  /** The execve() of a process that shares its table with another one, which
      keeps it: the mirror of the other stays right exactly if nothing is closed. */
  lemma SharedExecExactly(m: World<FdMap>, k: World<KernelTable>, p: Pid, q: Pid, order: seq<int>)
    requires Agrees(m, k) && p in m.owner && q in m.owner && p != q && m.owner[p] == m.owner[q]
    requires IsOrderOf(order, TableOf(m, p))
    ensures var (m1, k1) := (MirrorStep(m, k, Exec(p, order)), KernelStep(k, Exec(p, order)));
      && k1.owner[p] != k1.owner[q] && m1.owner[p] == m1.owner[q]
      && (Mirrors(TableOf(m1, q), TableOf(k1, q)) <==> forall fd | fd in TableOf(k, p) :: !TableOf(k, p)[fd].cloexec)
  {
    var (before, table) := (TableOf(m, p), TableOf(k, p));
    var left := Survivors(table).Keys;
    var m1 := MirrorStep(m, k, Exec(p, order));
    assert !Alone(k.owner, p);
    if AllIn(order, left) {
      forall fd | fd in before ensures fd in Kept(order, left) { KeptIsSubset(order, left, fd); }
      assert TableOf(m1, q) == before;
    } else {
      var fd := SomethingIsDropped(order, left);
      assert fd in before && fd !in TableOf(m1, q);
    }
  }

  /** A clone3() whose argument structure cannot be read is taken for one that
      does not share; what the parent opens next would be missing from the
      child's mirror then. This is the one case in which sharing is not
      recognised, and in it the engine does not get as far as that: it goes on to
      dereference the missing arguments. */
  lemma UnreadCloneExactly(m: World<FdMap>, k: World<KernelTable>, parent: Pid, child: Pid, how: Spawning,
                           opening: FdCall)
    requires Agrees(m, k) && parent in m.owner && child !in m.owner
    requires opening.Open? && Unused(TableOf(k, parent), opening.fd)
    ensures var (m1, k1) := (MirrorStep(m, k, Spawn(parent, child, how)), KernelStep(k, Spawn(parent, child, how)));
      var open := Call(parent, opening);
      && Mirrors(TableOf(m1, child), TableOf(k1, child))
      && (Mirrors(TableOf(MirrorStep(m1, k1, open), child), TableOf(KernelStep(k1, open), child))
          <==> SharesWithParent(how) == KernelShares(how))
      && (SharesWithParent(how) != KernelShares(how) <==> Faults(how) && how.shareFiles)
  {
    var (m1, k1) := (MirrorStep(m, k, Spawn(parent, child, how)), KernelStep(k, Spawn(parent, child, how)));
    var (open, fd) := (Call(parent, opening), opening.fd);
    CallMirrored(TableOf(m, parent), TableOf(k, parent), opening);
    if SharesWithParent(how) != KernelShares(how) {
      assert fd in TableOf(KernelStep(k1, open), child);
      assert fd !in TableOf(MirrorStep(m1, k1, open), child);
    }
  }

  // ----- the objects

  lemma HasMember(s: set<int>)
    ensures s == {} || exists x :: x in s
  {
    if forall x :: x !in s { assert s == {}; }
  }

  method LeastOf(s: set<int>) returns (x: int)
    requires s != {}
    ensures x in s && forall y | y in s :: x <= y
  {
    HasMember(s);
    x :| x in s;
    var rest := s - {x};
    while rest != {}
      invariant x in s && rest <= s && forall y | y in s :: y in rest || x <= y
      decreases rest
    {
      HasMember(rest);
      var y :| y in rest;
      if y < x { x := y; }
      rest := rest - {y};
    }
  }

  /** The keys of a std::map in the order it is walked. */
  method OrderOf(m: FdMap) returns (keys: seq<int>)
    ensures IsOrderOf(keys, m)
  {
    keys := [];
    var rest := m.Keys;
    while rest != {}
      invariant Ascending(keys) && rest <= m.Keys
      invariant forall fd :: fd in m <==> fd in keys || fd in rest
      invariant forall i, fd | 0 <= i < |keys| && fd in rest :: keys[i] < fd
      decreases rest
    {
      var least := LeastOf(rest);
      keys := keys + [least];
      rest := rest - {least};
    }
  }

  lemma RestrictedToAll(m: FdMap, keys: seq<int>)
    requires IsOrderOf(keys, m)
    ensures Restricted(m, keys) == m
  {
    var r := Restricted(m, keys);
    assert forall fd :: fd in r <==> fd in m;
    assert r.Keys == m.Keys;
  }

  /** One turn of the loop, from an entry to the next it looks at. */
  lemma Turn(keys: seq<int>, left: set<int>, it: nat, done: seq<int>)
    requires it < |keys| && Kept(keys, left) == done + Kept(keys[it..], left)
    ensures var next := if keys[it] in left then it else it + 1;
      if next == |keys| then Kept(keys, left) == done
      else Kept(keys, left) == (done + [keys[next]]) + Kept(keys[next + 1..], left)
  {
    var next := if keys[it] in left then it else it + 1;
    var rest := keys[it..];
    if next < |keys| {
      assert rest[next - it + 1..] == keys[next + 1..];
      assert (done + [keys[next]]) + Kept(keys[next + 1..], left) == done + ([keys[next]] + Kept(keys[next + 1..], left));
    } else {
      assert rest == [keys[it]];
    }
  }

  lemma Erased(m: FdMap, done: seq<int>, rest: seq<int>)
    requires rest != [] && Ascending(rest) && rest[0] !in done
    ensures Restricted(m, done + rest) - {rest[0]} == Restricted(m, done + rest[1..])
  {
    assert rest == [rest[0]] + rest[1..];
  }

  class ProcessData {
    var fdInfoMap: FdMap

    constructor (m: FdMap)
      ensures fdInfoMap == m
    {
      fdInfoMap := m;
    }

    /** The loop over the map: an erase moves on to the next entry, and so does
        the loop itself. */
    method EraseClosed(keys: seq<int>, left: set<int>)
      requires IsOrderOf(keys, fdInfoMap)
      modifies this
      ensures fdInfoMap == Synced(old(fdInfoMap), keys, left)
    {
      hide Synced, Reached, IsOrderOf;
      ghost var m := fdInfoMap;
      ghost var done: seq<int> := [];
      var it := 0;
      NotStarted(m, keys, left);
      while it < |keys|
        invariant 0 <= it <= |keys| && Reached(m, keys, left, it, done, fdInfoMap)
      {
        if keys[it] !in left {
          EraseTurn(m, keys, left, it, done, fdInfoMap);
          fdInfoMap := fdInfoMap - {keys[it]};
          it := it + 1;
          if it == |keys| {
            return;
          }
        } else {
          KeepTurn(m, keys, left, it, done, fdInfoMap);
        }
        done := done + [keys[it]];
        it := it + 1;
      }
      Finished(m, keys, left, done, fdInfoMap);
    }
  }

  /** The loop stands before entry it; those it keeps so far are done. */
  ghost predicate Reached(m: FdMap, keys: seq<int>, left: set<int>, it: nat, done: seq<int>, now: FdMap) {
    && it <= |keys| && Kept(keys, left) == done + Kept(keys[it..], left)
    && (forall i | it <= i < |keys| :: keys[i] !in done)
    && now == Restricted(m, done + keys[it..])
  }

  lemma NotStarted(m: FdMap, keys: seq<int>, left: set<int>)
    requires IsOrderOf(keys, m)
    ensures Reached(m, keys, left, 0, [], m)
  {
    assert [] + keys[0..] == keys && keys[0..] == keys && [] + Kept(keys, left) == Kept(keys, left);
    RestrictedToAll(m, keys);
  }

  lemma Finished(m: FdMap, keys: seq<int>, left: set<int>, done: seq<int>, now: FdMap)
    requires Reached(m, keys, left, |keys|, done, now)
    ensures now == Synced(m, keys, left)
  {
    assert keys[|keys|..] == [] && done + [] == done;
  }

  lemma KeepTurn(m: FdMap, keys: seq<int>, left: set<int>, it: nat, done: seq<int>, now: FdMap)
    requires IsOrderOf(keys, m) && Reached(m, keys, left, it, done, now) && it < |keys| && keys[it] in left
    ensures Reached(m, keys, left, it + 1, done + [keys[it]], now)
  {
    hide Restricted, Kept;
    Turn(keys, left, it, done);
    assert (done + [keys[it]]) + keys[it + 1..] == done + keys[it..];
  }

  lemma EraseTurn(m: FdMap, keys: seq<int>, left: set<int>, it: nat, done: seq<int>, now: FdMap)
    requires IsOrderOf(keys, m) && Reached(m, keys, left, it, done, now) && it < |keys| && keys[it] !in left
    ensures var now1 := now - {keys[it]};
      if it + 1 == |keys| then now1 == Synced(m, keys, left)
      else Reached(m, keys, left, it + 2, done + [keys[it + 1]], now1)
  {
    hide Restricted, Kept;
    Turn(keys, left, it, done);
    Erased(m, done, keys[it..]);
    assert keys[it..][1..] == keys[it + 1..];
    if it + 1 == |keys| {
      assert done + keys[it + 1..] == done;
    } else {
      assert (done + [keys[it + 1]]) + keys[it + 2..] == done + keys[it + 1..];
    }
  }

  class FdTracee {
    var processData: ProcessData

    /** A root tracee has a table of its own, one with a sibling uses that one's. */
    constructor (sibling: FdTracee?)
      ensures if sibling != null then processData == sibling.processData
              else fresh(processData) && processData.fdInfoMap == map[]
    {
      if sibling != null {
        processData := sibling.processData;
      } else {
        processData := new ProcessData(map[]);
      }
    }

    function Table(): FdMap
      reads this, processData
    {
      processData.fdInfoMap
    }

    method UnshareProcessData()
      modifies this
      ensures fresh(processData) && Table() == old(Table())
    {
      processData := new ProcessData(processData.fdInfoMap);
    }

    /** AutoAttachedTracee: constructed with its parent as the sibling. */
    method Configure(how: Spawning)
      modifies this
      ensures Table() == old(Table())
      ensures if SharesWithParent(how) then processData == old(processData) else fresh(processData)
    {
      if !SharesWithParent(how) {
        UnshareProcessData();
      }
    }

    method TrackFD(info: FdInfo)
      modifies processData
      ensures Table() == TrackFd(old(Table()), info)
    {
      if info.fd == INVALID {
        return;
      }
      if info.fd !in processData.fdInfoMap {
        processData.fdInfoMap := processData.fdInfoMap[info.fd := info];
      }
    }

    method UpdateFD(info: FdInfo)
      modifies processData
      ensures Table() == UpdateFd(old(Table()), info)
    {
      if info.fd in processData.fdInfoMap {
        processData.fdInfoMap := processData.fdInfoMap[info.fd := info];
      }
    }

    method DropFD(fd: int)
      modifies processData
      ensures Table() == old(Table()) - {fd}
    {
      processData.fdInfoMap := processData.fdInfoMap - {fd};
    }

    /** updateFDTracking(): what one tracee's call changes is seen by exactly the
        tracees that share its table. */
    method UpdateFDTracking(c: FdCall, ghost others: set<FdTracee>)
      modifies processData
      ensures Table() == Tracked(old(Table()), c)
      ensures forall t | t in others ::
        t.Table() == if t.processData == processData then Table() else old(t.Table())
    {
      match c {
        case Open(path, mode, fd, flags) =>
          TrackFD(Bare(FsPath, fd).(path := path, mode := Some(mode), flags := Some(flags)));
        case Dup(source, fd, _) =>
          if source in Table() { TrackFD(Table()[source].(fd := fd)); }
        case FcntlDup(source, fd, cloexec) =>
          if source in Table() {
            var info := Table()[source].(fd := fd);
            TrackFD(if cloexec || info.flags.Some? then WithCloexec(info, cloexec) else info);
          }
        case FcntlSetFd(fd, cloexec) =>
          if fd in Table() { UpdateFD(WithCloexec(Table()[fd], cloexec)); }
        case Close(fd) => DropFD(fd);
        case MakePipe(ends, _, _, _) =>
          if ends.Some? {
            TrackFD(Bare(Pipe, ends.value.0).(mode := Some(ReadOnly)));
            TrackFD(Bare(Pipe, ends.value.1).(mode := Some(WriteOnly)));
          }
        case MakeSocket(domain, sockType, fd, flags) =>
          TrackFD(SocketInfo(fd, flags, Family(Some(domain), Some(sockType))));
        case SocketPair(domain, sockType, first, second, flags) =>
          TrackFD(SocketInfo(first, flags, Family(Some(domain), Some(sockType))));
          TrackFD(SocketInfo(second, flags, Family(Some(domain), Some(sockType))));
        case Accept(listener, fd, flags, lookup) => TrackAccepted(listener, fd, flags, lookup);
        case MakeEventFd(fd) => TrackFD(Bare(EventFd, fd));
        case MakeEventFd2(fd, flags) => TrackFD(Bare(EventFd, fd).(flags := Some(flags)));
        case EpollCreate(fd, _) => TrackFD(Bare(EventFd, fd));
        case MakeSignalFd(arg, fd, flags) =>
          if arg != fd { TrackFD(Bare(SignalFd, fd).(flags := flags)); }
        case PidfdOpen(fd, nonblock) =>
          TrackFD(Bare(PidFd, fd).(flags := if nonblock then Some(Flags(false, true)) else None));
        case ClonePidfd(argsRead, fd) =>
          if argsRead { TrackFD(Bare(PidFd, fd)); }
      }
    }

    method TrackAccepted(listener: int, fd: int, flags: Flags, lookup: Family)
      modifies processData
      ensures Table() == Accepted(old(Table()), listener, fd, flags, lookup)
    {
      var family := lookup;
      if listener in Table() {
        if Table()[listener].family.Full?() {
          family := Table()[listener].family;
        } else {
          UpdateFD(Table()[listener].(family := lookup));
        }
      }
      TrackFD(SocketInfo(fd, flags, family));
    }

    /** After an execve(); nothing changes if /proc could not be read. */
    method SyncFDsAfterExec(open: Option<set<int>>) returns (ghost order: seq<int>)
      modifies processData
      ensures IsOrderOf(order, old(Table()))
      ensures Table() == if open.Some? then Synced(old(Table()), order, open.value) else old(Table())
    {
      var keys := OrderOf(processData.fdInfoMap);
      order := keys;
      if open.Some? {
        processData.EraseClosed(keys, open.value);
      }
    }
  }
}
