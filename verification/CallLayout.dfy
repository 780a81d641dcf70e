// The parameter lists of system call objects. One object per number is reused
// for every call with that number; the classes whose parameters depend on the
// call itself rebuild their lists each time (src/SystemCall.cxx, src/syscalls/).
module CallLayout {
  import opened Common

  datatype Abi = UnknownAbi | X86_64 | I386 | X32 | Aarch64

  /** The tracer's own architecture decides which ABIs its tracees can have. */
  datatype Host = HostX86_64 | HostI386 | HostAarch64

  predicate Occurs(h: Host, abi: Abi) {
    match h
    case HostX86_64 => abi in {X86_64, I386, X32}
    case HostI386 => abi == I386
    case HostAarch64 => abi == Aarch64
  }

  /** The numbers with an own class here, and all others with theirs. */
  datatype Nr =
    | Fcntl | Open | OpenAt | Fadvise64 | Fadvise64_64 | Statfs | Statfs64 | Fstatfs | Fstatfs64
    | Clone | WaitId | Futex | Mmap | Mmap2 | Select | NewSelect
    | Other(id: nat, count: nat)

  /** The members of the classes that can be parameters or return items. */
  datatype Item =
    | Unused
    | FcntlFd | FcntlOperation | DupLowest | FdFlagsArg | StatusFlagsArg | FlockArg | OwnerArg | ExtOwnerArg
    | IoSignalArg | LeaseArg | DnotifyArg | PipeSizeArg | FileSealsArg | RwHintArg
    | RetDupfd | RetFdFlags | RetStatusFlags | RetOwner | RetIoSignal | RetLease | RetPipeSize | RetSeals
    | Success                                                        // the member `result`
    | DirFd | Filename | OpenFlags | Mode | NewFd
    | AdviseFd | OffsetPlain | OffsetLow | OffsetCombined | SizePlain | SizeLow | SizeCombined | Advice
    | FsPath | FsFd | FsSize | FsBuf
    | CloneFlags | Stack | ParentTid | Pidfd | ChildTid | Tls | NewPid
    | IdType | IdPid | IdPgid | IdPidfd | SigInfo | WaitOptions | Rusage
    | FutexAddr | FutexOperation | FutexValue | WakeCount | FdSig | Timeout | Addr2 | RequeueValue | RequeueLimit
    | WakeCount2 | WakeOp | Bitset | NumWokenUp
    | Hint | Length | Protection | MmapFlags | MmapFd | MmapOffset | OldMmapArgs | MapAddr
    | Nfds | ReadFds | WriteFds | ExceptFds | SelectTimeout | OldSelectArgs | NumReady
    | OtherPar(pos: nat) | OtherResult

  datatype FcntlOper =
    | DupFd | DupFdCloexec | GetFd | SetFd | GetFl | SetFl | AnyLock | GetOwn | SetOwn | GetOwnEx | SetOwnEx
    | GetSig | SetSig | GetLease | SetLease | Notify | SetPipeSz | GetPipeSz | AddSeals | GetSeals
    | GetRwHint | SetRwHint | UnknownOper

  datatype FutexCommand =
    | Wait | WaitBitset | Wake | WakeBitset | CreateFd | Requeue | CmpRequeue | CmpRequeuePi | WakeOpCommand
    | LockPi | LockPi2 | TrylockPi | UnlockPi | WaitRequeuePi | UnknownCommand

  datatype WaitType = ByPid | ByPgid | ByPidfd | All | UnknownWaitType

  /** What the items of the first pass read out of the argument words: whether
      O_CREAT or O_TMPFILE is given, the clone() flags, and the operations. */
  datatype Meaning = Meaning(
    creates: bool, parentSettid: bool, pidfd: bool, childSettid: bool, settls: bool,
    fcntl: FcntlOper, futex: FutexCommand, wait: WaitType)

  /** A system call entry: the ABI, six argument words, and what they mean. */
  datatype Info = Info(abi: Abi, args: Words, means: Meaning)

  type Words = s: seq<nat> | |s| == 6 witness [0, 0, 0, 0, 0, 0]

  /** A SystemCall object: parameter list, optional members that hold something,
      return item, and the value each item was last filled with. */
  datatype Obj = Obj(pars: seq<Item>, present: set<Item>, ret: Item, native64: bool, values: map<Item, nat>)

  const MMAP_PARS := [Hint, Length, Protection, MmapFlags, MmapFd, MmapOffset]
  const SELECT_PARS := [Nfds, ReadFds, WriteFds, ExceptFds, SelectTimeout]
  const ADVISE_PARS := [AdviseFd, OffsetPlain, SizePlain, Advice]

  function Others(n: nat): seq<Item> { seq(n, i requires 0 <= i < n => OtherPar(i)) }

  /** A newly constructed object. */
  function Fresh(h: Host, nr: Nr): Obj {
    match nr
    case Fcntl => Obj([FcntlFd, FcntlOperation], {}, Unused, true, map[])
    case Open => Obj([Filename, OpenFlags], {}, NewFd, true, map[])
    case OpenAt => Obj([DirFd, Filename, OpenFlags], {}, NewFd, true, map[])
    case Fadvise64 => FreshAdvise(h)
    case Fadvise64_64 => FreshAdvise(h)
    case Statfs => Obj([FsPath, FsBuf], {}, Success, true, map[])
    case Statfs64 => Obj([FsPath, FsBuf], {}, Success, true, map[])
    case Fstatfs => Obj([FsFd, FsBuf], {}, Success, true, map[])
    case Fstatfs64 => Obj([FsFd, FsBuf], {}, Success, true, map[])
    case Clone => Obj([CloneFlags, Stack], {}, NewPid, true, map[])
    case WaitId => Obj([IdType], {}, Success, true, map[])
    case Futex => Obj([FutexAddr, FutexOperation], {Success}, Success, true, map[])
    case Mmap => Obj(MMAP_PARS, {}, MapAddr, true, map[])
    case Mmap2 => Obj(MMAP_PARS, {}, MapAddr, true, map[])
    case Select => Obj(SELECT_PARS, {}, NumReady, true, map[])
    case NewSelect => Obj(SELECT_PARS, {}, NumReady, true, map[])
    case Other(_, count) => Obj(Others(Min(count, 6)), {}, OtherResult, true, map[])
  }

  function FreshAdvise(h: Host): Obj {
    if h == HostI386 then Obj([], {}, Success, false, map[])
    else Obj(ADVISE_PARS, {OffsetPlain, SizePlain}, Success, true, map[])
  }

  /** dropParameters() */
  function Drop(o: Obj, start: nat): Obj { o.(pars := if |o.pars| > start then o.pars[..start] else o.pars) }

  function Add(o: Obj, items: seq<Item>): Obj { o.(pars := o.pars + items) }

  function Emplace(o: Obj, items: set<Item>): Obj { o.(present := o.present + items) }

  // ----- prepareNewSystemCall()

  function PrepareAdvise(o: Obj, nr: Nr, abi: Abi): Option<Obj> {
    match abi
    case Aarch64 => Some(o)
    case X86_64 =>
      if o.native64 then Some(o)
      else Some(o.(native64 := true, present := {OffsetPlain, SizePlain}, pars := ADVISE_PARS))
    case I386 =>
      if nr == Fadvise64_64 then
        Some(o.(native64 := false, present := {OffsetCombined, SizeCombined},
                pars := [AdviseFd, OffsetLow, OffsetCombined, SizeLow, SizeCombined, Advice]))
      else
        Some(o.(native64 := false, present := {OffsetCombined, SizePlain},
                pars := [AdviseFd, OffsetLow, OffsetCombined, SizePlain, Advice]))
    case X32 => None
    case UnknownAbi => None
  }

  /** statfs64() and fstatfs64() have a size in between. */
  function PrepareStatfs(o: Obj, first: Item, sized: bool): Obj {
    if sized then
      if FsSize in o.present then o else o.(present := {FsSize}, pars := [first, FsSize, FsBuf])
    else
      if FsSize in o.present then o.(present := {}, pars := [first, FsBuf]) else o
  }

  /** mmap() and select() of i386 take one pointer to a structure. */
  function PrepareOld(o: Obj, legacy: bool, args: Item, pars: seq<Item>): Obj {
    if legacy then
      if args in o.present then o else o.(present := {args}, pars := [args])
    else
      if args in o.present then o.(present := {}, pars := pars) else o
  }

  /** None if the source throws. */
  function Prepare(o: Obj, nr: Nr, abi: Abi): Option<Obj> {
    match nr
    case Fcntl => Some(Drop(o, 2).(present := {Success}, ret := Success))
    case Open => Some(Drop(o, 2).(present := {}))
    case OpenAt => Some(Drop(o, 3).(present := {}))
    case Fadvise64 => PrepareAdvise(o, nr, abi)
    case Fadvise64_64 => PrepareAdvise(o, nr, abi)
    case Statfs => Some(PrepareStatfs(o, FsPath, false))
    case Statfs64 => Some(PrepareStatfs(o, FsPath, true))
    case Fstatfs => Some(PrepareStatfs(o, FsFd, false))
    case Fstatfs64 => Some(PrepareStatfs(o, FsFd, true))
    case Clone => Some(Drop(o, 2).(present := {}))
    case WaitId => Some(Drop(o, 1).(present := {}))
    case Futex => Some(Drop(o, 2).(present := {Success}, ret := Success))
    case Mmap => Some(PrepareOld(o, abi == I386, OldMmapArgs, MMAP_PARS))
    case Mmap2 => Some(PrepareOld(o, false, OldMmapArgs, MMAP_PARS))
    case Select => Some(PrepareOld(o, abi == I386, OldSelectArgs, SELECT_PARS))
    case NewSelect => Some(PrepareOld(o, false, OldSelectArgs, SELECT_PARS))
    case Other(_, _) => Some(o)
  }

  // ----- check2ndPass()

  function Ret(o: Obj, r: Item): Obj { o.(present := o.present - {Success} + {r}, ret := r) }

  function SecondFcntl(o: Obj, op: FcntlOper): Obj {
    match op
    case DupFd => Add(Emplace(Ret(o, RetDupfd), {DupLowest}), [DupLowest])
    case DupFdCloexec => Add(Emplace(Ret(o, RetDupfd), {DupLowest}), [DupLowest])
    case GetFd => Ret(o, RetFdFlags)
    case SetFd => Add(Emplace(o, {FdFlagsArg}), [FdFlagsArg])
    case GetFl => Ret(o, RetStatusFlags)
    case SetFl => Add(Emplace(o, {StatusFlagsArg}), [StatusFlagsArg])
    case AnyLock => Add(Emplace(o, {FlockArg}), [FlockArg])
    case GetOwn => Ret(o, RetOwner)
    case SetOwn => Add(Emplace(o, {OwnerArg}), [OwnerArg])
    case GetOwnEx => Add(Emplace(o, {ExtOwnerArg}), [ExtOwnerArg])
    case SetOwnEx => Add(Emplace(o, {ExtOwnerArg}), [ExtOwnerArg])
    case GetSig => Ret(o, RetIoSignal)
    case SetSig => Add(Emplace(o, {IoSignalArg}), [IoSignalArg])
    case GetLease => Ret(o, RetLease)
    case SetLease => Add(Emplace(o, {LeaseArg}), [LeaseArg])
    case Notify => Add(Emplace(o, {DnotifyArg}), [DnotifyArg])
    case SetPipeSz => Ret(Add(Emplace(o, {PipeSizeArg}), [PipeSizeArg]), RetPipeSize)
    case GetPipeSz => Ret(o, RetPipeSize)
    case AddSeals => Add(Emplace(o, {FileSealsArg}), [FileSealsArg])
    case GetSeals => Ret(o, RetSeals)
    case GetRwHint => Add(Emplace(o, {RwHintArg}), [RwHintArg])
    case SetRwHint => Add(Emplace(o, {RwHintArg}), [RwHintArg])
    case UnknownOper => o
  }

  function SecondFutex(o: Obj, c: FutexCommand): Obj {
    match c
    case Wait => Add(Emplace(o, {FutexValue, Timeout}), [FutexValue, Timeout])
    case WaitBitset => Add(Emplace(o, {FutexValue, Timeout, Bitset}), [FutexValue, Timeout, Unused, Bitset])
    case Wake => Ret(Add(Emplace(o, {WakeCount}), [WakeCount]), NumWokenUp)
    case WakeBitset => Ret(Add(Emplace(o, {WakeCount, Bitset}), [WakeCount, Unused, Unused, Bitset]), NumWokenUp)
    case CreateFd => Ret(Add(Emplace(o, {FdSig}), [FdSig]), NewFd)
    case Requeue => Ret(Add(Emplace(o, {WakeCount, RequeueLimit, Addr2}), [WakeCount, RequeueLimit, Addr2]), NumWokenUp)
    case CmpRequeue => SecondCmpRequeue(o)
    case CmpRequeuePi => SecondCmpRequeue(o)
    case WakeOpCommand =>
      Ret(Add(Emplace(o, {WakeCount, WakeCount2, Addr2, WakeOp}), [WakeCount, WakeCount2, Addr2, WakeOp]), NumWokenUp)
    case LockPi => Add(Emplace(o, {Timeout}), [Unused, Timeout])
    case LockPi2 => Add(Emplace(o, {Timeout}), [Unused, Timeout])
    case TrylockPi => o
    case UnlockPi => o
    case WaitRequeuePi => Add(Emplace(o, {FutexValue, Timeout, Addr2}), [FutexValue, Timeout, Addr2])
    case UnknownCommand => o
  }

  function SecondCmpRequeue(o: Obj): Obj {
    Ret(Add(Emplace(o, {WakeCount, RequeueLimit, Addr2, RequeueValue}),
            [WakeCount, RequeueLimit, Addr2, RequeueValue]), NumWokenUp)
  }

  /** Fill up with unused parameters to a register index. */
  function Pad(o: Obj, index: nat): (r: Obj)
    ensures |r.pars| == if |o.pars| < index then index else |o.pars|
    ensures o.pars <= r.pars && forall i | |o.pars| <= i < |r.pars| :: r.pars[i] == Unused
    ensures r == o.(pars := r.pars)
    decreases index - |o.pars|
  {
    if index > |o.pars| then Pad(Add(o, [Unused]), index) else o
  }

  function MaybeAt(o: Obj, given: bool, index: nat, item: Item): Obj {
    if given then Add(Pad(Emplace(o, {item}), index), [item]) else o
  }

  function SecondClone(o: Obj, abi: Abi, m: Meaning): Obj {
    var o1 :=
      if m.parentSettid then Add(Emplace(o, {ParentTid}), [ParentTid])
      else if m.pidfd then Add(Emplace(o, {Pidfd}), [Pidfd])
      else o;
    match abi
    case X86_64 => MaybeAt(MaybeAt(o1, m.childSettid, 3, ChildTid), m.settls, 4, Tls)
    case X32 => MaybeAt(MaybeAt(o1, m.childSettid, 3, ChildTid), m.settls, 4, Tls)
    case Aarch64 => MaybeAt(MaybeAt(o1, m.settls, 3, Tls), m.childSettid, 4, ChildTid)
    case I386 => MaybeAt(MaybeAt(o1, m.settls, 3, Tls), m.childSettid, 4, ChildTid)
    case UnknownAbi => o1
  }

  function SecondWait(o: Obj, t: WaitType): Option<Obj> {
    match t
    case ByPid => Some(Add(Emplace(o, {IdPid}), [IdPid, SigInfo, WaitOptions, Rusage]))
    case ByPgid => Some(Add(Emplace(o, {IdPgid}), [IdPgid, SigInfo, WaitOptions, Rusage]))
    case ByPidfd => Some(Add(Emplace(o, {IdPidfd}), [IdPidfd, SigInfo, WaitOptions, Rusage]))
    case All => Some(Add(o, [Unused, SigInfo, WaitOptions, Rusage]))
    case UnknownWaitType => None
  }

  /** The new object and whether a second pass is wanted; None for a throw. */
  function Second(o: Obj, nr: Nr, i: Info): Option<(Obj, bool)> {
    match nr
    case Fcntl => Some((SecondFcntl(o, i.means.fcntl), true))
    case Open => if i.means.creates then Some((Add(Emplace(o, {Mode}), [Mode]), true)) else Some((o, false))
    case OpenAt => if i.means.creates then Some((Add(Emplace(o, {Mode}), [Mode]), true)) else Some((o, false))
    case Clone => var r := SecondClone(o, i.abi, i.means); Some((r, |r.pars| > 2))
    case WaitId => var r := SecondWait(o, i.means.wait); if r.None? then None else Some((r.value, true))
    case Futex => Some((SecondFutex(o, i.means.futex), true))
    case _ => Some((o, false))
  }

  // ----- setEntryInfo()

  function FillFrom(o: Obj, args: seq<nat>, n: nat): (r: Obj)
    requires |o.pars| <= |args| && n <= |o.pars|
    ensures r == o.(values := r.values)
    decreases |o.pars| - n
  {
    if n == |o.pars| then o
    else FillFrom(o.(values := o.values[o.pars[n] := args[n]]), args, n + 1)
  }

  function Fill(o: Obj, args: seq<nat>): (r: Obj)
    requires |o.pars| <= |args|
    ensures r == o.(values := r.values)
  {
    FillFrom(o, args, 0)
  }

  datatype Entered = Entered(obj: Obj, threw: bool)

  /** The register array holds six words; no list may become longer. */
  predicate FitsRegisters(o: Obj) { |o.pars| <= 6 }

  function SetEntryInfo(o: Obj, nr: Nr, i: Info): Entered {
    var p := Prepare(o, nr, i.abi);
    if p.None? || !FitsRegisters(p.value) then Entered(o, true)
    else
      var filled := Fill(p.value, i.args);
      var s := Second(filled, nr, i);
      if s.None? || !FitsRegisters(s.value.0) then Entered(filled, true)
      else Entered(if s.value.1 then Fill(s.value.0, i.args) else s.value.0, false)
  }
}
