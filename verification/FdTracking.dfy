// The tracer's mirror of its tracees' file descriptor tables (src/Tracee.cxx,
// src/syscalls/*.cxx, src/AutoAttachedTracee.cxx), next to the tables the kernel
// keeps: which entries there are, and what they say about their descriptors.
module FdTracking {
  import opened Common

  const INVALID := -1

  datatype Kind = FsPath | EventFd | Epoll | SignalFd | Socket | Pipe | PidFd

  datatype Mode = ReadOnly | WriteOnly | ReadWrite

  /** OpenFlags, as far as the tracking calls use them. */
  datatype Flags = Flags(cloexec: bool, nonblock: bool)

  /** Socket domain and type, each if known. */
  datatype Family = Family(domain: Option<int>, sockType: Option<int>) {
    predicate Full?() { domain.Some? && sockType.Some? }
  }

  datatype FdInfo = FdInfo(kind: Kind, fd: int, path: string, mode: Option<Mode>, flags: Option<Flags>, family: Family)

  type FdMap = map<int, FdInfo>

  /** Successful calls, with what the kernel returned. */
  datatype FdCall =
    | Open(path: string, mode: Mode, fd: int, flags: Flags)  // open(), openat()
    | Dup(source: int, fd: int, cloexec: bool)               // dup(), dup2(), dup3()
    | FcntlDup(source: int, fd: int, cloexec: bool)          // F_DUPFD, F_DUPFD_CLOEXEC
    | FcntlSetFd(fd: int, cloexec: bool)
    | Close(fd: int)
    | MakePipe(ends: Option<(int, int)>, readEnd: int, writeEnd: int, flags: Flags)
    | MakeSocket(domain: int, sockType: int, fd: int, flags: Flags)
    | SocketPair(domain: int, sockType: int, first: int, second: int, flags: Flags)
    | Accept(listener: int, fd: int, flags: Flags, lookup: Family)   // what getsockopt() would tell
    | MakeEventFd(fd: int)                                   // eventfd()
    | MakeEventFd2(fd: int, flags: Flags)
    | EpollCreate(fd: int, cloexec: bool)
    | MakeSignalFd(arg: int, fd: int, flags4: Option<Flags>) // signalfd(), signalfd4()
    | PidfdOpen(fd: int, nonblock: bool)
    | ClonePidfd(argsRead: bool, fd: int)                    // clone3() with CLONE_PIDFD

  // ----- what the tracer does

  /** A new FDInfo of some type. */
  function Bare(kind: Kind, fd: int): FdInfo { FdInfo(kind, fd, "", None, None, Family(None, None)) }

  /** make_socket_info() */
  function SocketInfo(fd: int, flags: Flags, family: Family): FdInfo {
    Bare(Socket, fd).(flags := Some(flags), family := family)
  }

  /** trackFD() */
  function TrackFd(m: FdMap, info: FdInfo): FdMap {
    if info.fd == INVALID || info.fd in m then m else m[info.fd := info]
  }

  /** updateFD() */
  function UpdateFd(m: FdMap, info: FdInfo): FdMap {
    if info.fd in m then m[info.fd := info] else m
  }

  function WithCloexec(info: FdInfo, cloexec: bool): FdInfo {
    info.(flags := Some(Flags(cloexec, info.flags.Some? && info.flags.value.nonblock)))
  }

  /** An accepted socket is like the listening one; if not all is known of that,
      both get what the socket itself is asked for. */
  function Accepted(m: FdMap, listener: int, fd: int, flags: Flags, lookup: Family): FdMap {
    if listener in m && m[listener].family.Full?() then
      TrackFd(m, SocketInfo(fd, flags, m[listener].family))
    else
      var m1 := if listener in m then UpdateFd(m, m[listener].(family := lookup)) else m;
      TrackFd(m1, SocketInfo(fd, flags, lookup))
  }

  /** updateFDTracking() of the call's class. */
  function Tracked(m: FdMap, c: FdCall): FdMap {
    match c
    case Open(path, mode, fd, flags) =>
      TrackFd(m, Bare(FsPath, fd).(path := path, mode := Some(mode), flags := Some(flags)))
    case Dup(source, fd, _) => if source in m then TrackFd(m, m[source].(fd := fd)) else m
    case FcntlDup(source, fd, cloexec) =>
      if source !in m then m
      else
        var info := m[source].(fd := fd);
        TrackFd(m, if cloexec || info.flags.Some? then WithCloexec(info, cloexec) else info)
    case FcntlSetFd(fd, cloexec) => if fd in m then UpdateFd(m, WithCloexec(m[fd], cloexec)) else m
    case Close(fd) => m - {fd}
    case MakePipe(ends, _, _, _) =>
      if ends.None? then m
      else TrackFd(TrackFd(m, Bare(Pipe, ends.value.0).(mode := Some(ReadOnly))),
                   Bare(Pipe, ends.value.1).(mode := Some(WriteOnly)))
    case MakeSocket(domain, sockType, fd, flags) =>
      TrackFd(m, SocketInfo(fd, flags, Family(Some(domain), Some(sockType))))
    case SocketPair(domain, sockType, first, second, flags) =>
      var family := Family(Some(domain), Some(sockType));
      TrackFd(TrackFd(m, SocketInfo(first, flags, family)), SocketInfo(second, flags, family))
    case Accept(listener, fd, flags, lookup) => Accepted(m, listener, fd, flags, lookup)
    case MakeEventFd(fd) => TrackFd(m, Bare(EventFd, fd))
    case MakeEventFd2(fd, flags) => TrackFd(m, Bare(EventFd, fd).(flags := Some(flags)))
    case EpollCreate(fd, _) => TrackFd(m, Bare(EventFd, fd))
    case MakeSignalFd(arg, fd, flags) => if arg == fd then m else TrackFd(m, Bare(SignalFd, fd).(flags := flags))
    case PidfdOpen(fd, nonblock) =>
      TrackFd(m, Bare(PidFd, fd).(flags := if nonblock then Some(Flags(false, true)) else None))
    case ClonePidfd(argsRead, fd) => if argsRead then TrackFd(m, Bare(PidFd, fd)) else m
  }

  // ----- what the kernel does

  /** What a descriptor refers to. */
  datatype File =
    | PathFile(path: string, mode: Mode)
    | SocketFile(domain: int, sockType: int)
    | PipeEnd(mode: Mode)
    | EventFile | EpollFile | SignalFile | PidFile

  /** An open descriptor: its file, whether it closes on exec, whether the file was
      opened non-blocking, and whether a call told the tracer flags of it: the one
      that opened it, or a later fcntl() on it or on one it was copied from. */
  datatype Descriptor = Descriptor(file: File, cloexec: bool, nonblock: bool, told: bool)

  type KernelTable = map<int, Descriptor>

  function Opened(file: File, flags: Flags, told: bool): Descriptor {
    Descriptor(file, flags.cloexec, flags.nonblock, told)
  }

  /** The calls in whose entries flags are kept: those that name them as arguments,
      but not pipe2(), epoll_create1() and clone3(). */
  predicate NamesFlags(c: FdCall) {
    || c.Open? || c.MakeSocket? || c.SocketPair? || c.Accept? || c.MakeEventFd2?
    || (c.MakeSignalFd? && c.flags4.Some?) || (c.PidfdOpen? && c.nonblock)
  }

  function Done(k: KernelTable, c: FdCall): KernelTable
    requires Possible(k, c)
  {
    var told := NamesFlags(c);
    match c
    case Open(path, mode, fd, flags) => k[fd := Opened(PathFile(path, mode), flags, told)]
    case Dup(source, fd, cloexec) => if source == fd then k else k[fd := k[source].(cloexec := cloexec)]
    case FcntlDup(source, fd, cloexec) =>
      k[fd := k[source].(cloexec := cloexec, told := k[source].told || cloexec)]
    case FcntlSetFd(fd, cloexec) => k[fd := k[fd].(cloexec := cloexec, told := true)]
    case Close(fd) => k - {fd}
    case MakePipe(_, r, w, flags) =>
      k[r := Opened(PipeEnd(ReadOnly), flags, told)][w := Opened(PipeEnd(WriteOnly), flags, told)]
    case MakeSocket(domain, sockType, fd, flags) => k[fd := Opened(SocketFile(domain, sockType), flags, told)]
    case SocketPair(domain, sockType, first, second, flags) =>
      var d := Opened(SocketFile(domain, sockType), flags, told);
      k[first := d][second := d]
    case Accept(listener, fd, flags, _) => k[fd := Opened(k[listener].file, flags, told)]
    case MakeEventFd(fd) => k[fd := Opened(EventFile, Flags(false, false), told)]
    case MakeEventFd2(fd, flags) => k[fd := Opened(EventFile, flags, told)]
    case EpollCreate(fd, cloexec) => k[fd := Opened(EpollFile, Flags(cloexec, false), told)]
    case MakeSignalFd(arg, fd, flags) =>
      if arg == fd then k
      else k[fd := Opened(SignalFile, if flags.Some? then flags.value else Flags(false, false), told)]
    case PidfdOpen(fd, nonblock) => k[fd := Opened(PidFile, Flags(true, nonblock), told)]
    case ClonePidfd(_, fd) => k[fd := Opened(PidFile, Flags(true, false), told)]
  }

  predicate Unused(k: KernelTable, fd: int) { fd >= 0 && fd !in k }

  /** What is known of a socket is right. */
  predicate Fits(family: Family, file: File)
    requires file.SocketFile?
  {
    && (family.domain.Some? ==> family.domain.value == file.domain)
    && (family.sockType.Some? ==> family.sockType.value == file.sockType)
  }

  /** The call can succeed with that result. */
  predicate Possible(k: KernelTable, c: FdCall) {
    match c
    case Dup(source, fd, _) => source in k && fd >= 0     // dup2() may replace an open one
    case FcntlDup(source, fd, _) => source in k && Unused(k, fd)
    case FcntlSetFd(fd, _) => fd in k
    case Close(fd) => fd in k
    case MakePipe(ends, r, w, _) => Unused(k, r) && Unused(k, w) && r != w && (ends.Some? ==> ends.value == (r, w))
    case SocketPair(_, _, first, second, _) => Unused(k, first) && Unused(k, second) && first != second
    case Accept(listener, fd, _, lookup) =>
      && listener in k && k[listener].file.SocketFile? && Unused(k, fd)
      && Fits(lookup, k[listener].file)
    case MakeSignalFd(arg, fd, _) => if arg == fd then fd in k else Unused(k, fd)
    case Open(_, _, fd, _) => Unused(k, fd)
    case MakeSocket(_, _, fd, _) => Unused(k, fd)
    case MakeEventFd(fd) => Unused(k, fd)
    case MakeEventFd2(fd, _) => Unused(k, fd)
    case EpollCreate(fd, _) => Unused(k, fd)
    case PidfdOpen(fd, _) => Unused(k, fd)
    case ClonePidfd(_, fd) => Unused(k, fd)
  }

  // ----- refinement of one call

  /** The mirror has an entry for exactly the open descriptors, each for itself. */
  ghost predicate Mirrors(m: FdMap, k: KernelTable) {
    m.Keys == k.Keys && forall fd | fd in m :: m[fd].fd == fd && fd != INVALID
  }

  /** The results of the call that are in the tracee's memory could be read. */
  predicate Readable(c: FdCall) {
    && (c.MakePipe? ==> c.ends.Some?)
    && (c.ClonePidfd? ==> c.argsRead)
  }

  /** After a call the mirror is right exactly if the results could be read. */
  lemma CallMirrored(m: FdMap, k: KernelTable, c: FdCall)
    requires Mirrors(m, k) && Possible(k, c)
    ensures Mirrors(Tracked(m, c), Done(k, c)) <==> Readable(c)
  {
    if !Readable(c) {
      var fd := if c.MakePipe? then c.readEnd else c.fd;
      assert fd in Done(k, c) && fd !in Tracked(m, c);
    }
  }

  /** Entries that say something about close-on-exec say what the kernel does. */
  ghost predicate FlagsRight(m: FdMap, k: KernelTable) {
    forall fd | fd in m && fd in k && m[fd].flags.Some? :: m[fd].flags.value.cloexec == k[fd].cloexec
  }

  /** The entry there is for the duplicate: the one of the descriptor that was
      replaced, which stays, or a copy of the source's. */
  function Duplicate(m: FdMap, c: FdCall): FdInfo
    requires c.Dup? && c.source in m
  {
    if c.fd in m then m[c.fd] else m[c.source]
  }

  /** dup() and its kin do not hand on the flag, but the copied entry has it; and
      pidfd_open() always sets it, but the entry for a non-blocking one has not. */
  predicate Miscopies(m: FdMap, c: FdCall) {
    || (c.Dup? && c.source in m && c.source != c.fd
        && Duplicate(m, c).flags.Some? && Duplicate(m, c).flags.value.cloexec != c.cloexec)
    || (c.PidfdOpen? && c.nonblock)
  }

  /** Otherwise the flags stay right: exactly. */
  lemma FlagsKeptExactly(m: FdMap, k: KernelTable, c: FdCall)
    requires Mirrors(m, k) && FlagsRight(m, k) && Possible(k, c) && Readable(c)
    ensures FlagsRight(Tracked(m, c), Done(k, c)) <==> !Miscopies(m, c)
  {
    if Miscopies(m, c) {
      assert c.fd in Tracked(m, c) && c.fd in Done(k, c);
    }
  }

  // ----- after execve()

  predicate Ascending(keys: seq<int>) { forall i, j | 0 <= i < j < |keys| :: keys[i] < keys[j] }

  /** The order in which a std::map is walked. */
  ghost predicate IsOrderOf(keys: seq<int>, m: FdMap) {
    Ascending(keys) && forall fd :: fd in keys <==> fd in m
  }

  /** What the loop keeps. After an erase it stands on the next entry already,
      and the loop's own increment passes over that one. */
  function Kept(keys: seq<int>, left: set<int>): seq<int> {
    if keys == [] then []
    else if keys[0] in left then [keys[0]] + Kept(keys[1..], left)
    else if |keys| == 1 then []
    else [keys[1]] + Kept(keys[2..], left)
  }

  predicate NeighboursClosed(keys: seq<int>, left: set<int>) {
    exists i | 0 <= i < |keys| - 1 :: keys[i] !in left && keys[i + 1] !in left
  }

  lemma NeighboursInRest(keys: seq<int>, left: set<int>, d: nat)
    requires 1 <= d <= 2 <= |keys|
    requires NeighboursClosed(keys[d..], left)
    ensures NeighboursClosed(keys, left)
  {
    var rest := keys[d..];
    var i :| 0 <= i < |rest| - 1 && rest[i] !in left && rest[i + 1] !in left;
    assert keys[i + d] == rest[i] && keys[i + d + 1] == rest[i + 1];
  }

  lemma NeighboursOfRest(keys: seq<int>, left: set<int>, d: nat, i: nat)
    requires d <= i < |keys| - 1 && keys[i] !in left && keys[i + 1] !in left
    ensures NeighboursClosed(keys[d..], left)
  {
    var rest := keys[d..];
    assert rest[i - d] == keys[i] && rest[i - d + 1] == keys[i + 1];
  }

  lemma {:induction false} KeptIsSubset(keys: seq<int>, left: set<int>, fd: int)
    requires fd in keys && fd in left
    ensures fd in Kept(keys, left)
    decreases |keys|
  {
    if keys[0] in left {
      if fd != keys[0] { assert fd in keys[1..]; KeptIsSubset(keys[1..], left, fd); }
    } else if |keys| > 1 {
      if fd != keys[1] { assert fd in keys[2..]; KeptIsSubset(keys[2..], left, fd); }
    }
  }

  lemma {:induction false} KeptAreKeys(keys: seq<int>, left: set<int>)
    ensures forall fd | fd in Kept(keys, left) :: fd in keys
    decreases |keys|
  {
    if keys != [] {
      if keys[0] in left { KeptAreKeys(keys[1..], left); }
      else if |keys| > 1 { KeptAreKeys(keys[2..], left); }
    }
  }

  /** The loop drops all closed descriptors exactly if no two neighbours in the
      map are both closed. */
  lemma {:induction false} KeptExactly(keys: seq<int>, left: set<int>)
    ensures AllIn(Kept(keys, left), left) <==> !NeighboursClosed(keys, left)
    decreases |keys|
  {
    if |keys| >= 2 {
      var d := if keys[0] in left then 1 else 2;
      var rest := keys[d..];
      KeptExactly(rest, left);
      var (x, kept) := (keys[d - 1], Kept(keys, left));
      assert kept == [x] + Kept(rest, left);
      if NeighboursClosed(rest, left) {
        NeighboursInRest(keys, left, d);
        var fd :| fd in Kept(rest, left) && fd !in left;
        assert fd in kept;
      } else if NeighboursClosed(keys, left) {
        var i :| 0 <= i < |keys| - 1 && keys[i] !in left && keys[i + 1] !in left;
        if i >= d { NeighboursOfRest(keys, left, d, i); }
        assert x !in left;
        assert x in kept;
        assert !AllIn(kept, left);
      } else {
        assert 0 < |keys| - 1 && (keys[0] in left || keys[0 + 1] in left);
        assert x in left;
      }
    }
  }

  predicate AllIn(keys: seq<int>, left: set<int>) { forall fd | fd in keys :: fd in left }

  /** The descriptors that survive an execve(). */
  function Survivors(k: KernelTable): KernelTable { map fd | fd in k && !k[fd].cloexec :: k[fd] }

  function Restricted(m: FdMap, keys: seq<int>): FdMap { map fd | fd in m && fd in keys :: m[fd] }

  function Synced(m: FdMap, keys: seq<int>, left: set<int>): FdMap { Restricted(m, Kept(keys, left)) }

  /** After an execve() the mirror is right exactly if no two neighbouring
      descriptors were both closed; entries still open are never touched. */
  lemma ExecMirroredExactly(m: FdMap, k: KernelTable, keys: seq<int>)
    requires Mirrors(m, k) && IsOrderOf(keys, m)
    ensures var left := Survivors(k).Keys;
      && (Mirrors(Synced(m, keys, left), Survivors(k)) <==> !NeighboursClosed(keys, left))
      && forall fd | fd in left :: fd in Synced(m, keys, left) && Synced(m, keys, left)[fd] == m[fd]
  {
    var left := Survivors(k).Keys;
    KeptExactly(keys, left);
    KeptAreKeys(keys, left);
    forall fd | fd in left ensures fd in Kept(keys, left) { KeptIsSubset(keys, left, fd); }
    if NeighboursClosed(keys, left) {
      var fd :| fd in Kept(keys, left) && fd !in left;
      assert fd in Synced(m, keys, left);
    } else {
      assert forall fd | fd in left :: fd in m;
      assert forall fd :: fd in Synced(m, keys, left) <==> fd in left;
    }
  }
}
