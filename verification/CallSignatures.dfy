// What each system call object is to look like at an entry, written down call by
// call, and that it does: parameters, optional members and return item.
module CallSignatures {
  import opened Common
  import opened CallLayout
  import opened CallReuse

  /** What fcntl(2) returns besides an error. */
  function FcntlResult(op: FcntlOper): Item {
    match op
    case DupFd => RetDupfd
    case DupFdCloexec => RetDupfd
    case GetFd => RetFdFlags
    case GetFl => RetStatusFlags
    case GetOwn => RetOwner
    case GetSig => RetIoSignal
    case GetLease => RetLease
    case SetPipeSz => RetPipeSize
    case GetPipeSz => RetPipeSize
    case GetSeals => RetSeals
    case _ => Success
  }

  function FutexResult(c: FutexCommand): Item {
    if c == CreateFd then NewFd
    else if c in {Wake, WakeBitset, Requeue, CmpRequeue, CmpRequeuePi, WakeOpCommand} then NumWokenUp
    else Success
  }

  function ReturnOf(nr: Nr, i: Info): Item {
    match nr
    case Fcntl => FcntlResult(i.means.fcntl)
    case Futex => FutexResult(i.means.futex)
    case Open => NewFd
    case OpenAt => NewFd
    case Clone => NewPid
    case Mmap => MapAddr
    case Mmap2 => MapAddr
    case Select => NumReady
    case NewSelect => NumReady
    case Other(_, _) => OtherResult
    case _ => Success
  }

  function IdOf(t: WaitType): Item {
    match t
    case ByPid => IdPid
    case ByPgid => IdPgid
    case ByPidfd => IdPidfd
    case _ => Unused
  }

  /** The parameters, one per register. On i386 a 64-bit offset or size takes two,
      the lower half first; its old mmap() and select() take a structure. */
  function ParametersOf(nr: Nr, i: Info): seq<Item> {
    match nr
    case Fcntl => [FcntlFd, FcntlOperation] + FcntlExtra(i.means.fcntl)
    case Futex => [FutexAddr, FutexOperation] + FutexExtra(i.means.futex)
    case Open => [Filename, OpenFlags] + if i.means.creates then [Mode] else []
    case OpenAt => [DirFd, Filename, OpenFlags] + if i.means.creates then [Mode] else []
    case Clone => CloneRegisters(i.abi, i.means)
    case WaitId => [IdType, IdOf(i.means.wait), SigInfo, WaitOptions, Rusage]
    case Fadvise64 =>
      if i.abi == I386 then [AdviseFd, OffsetLow, OffsetCombined, SizePlain, Advice]
      else [AdviseFd, OffsetPlain, SizePlain, Advice]
    case Fadvise64_64 =>
      if i.abi == I386 then [AdviseFd, OffsetLow, OffsetCombined, SizeLow, SizeCombined, Advice]
      else [AdviseFd, OffsetPlain, SizePlain, Advice]
    case Statfs => [FsPath, FsBuf]
    case Statfs64 => [FsPath, FsSize, FsBuf]
    case Fstatfs => [FsFd, FsBuf]
    case Fstatfs64 => [FsFd, FsSize, FsBuf]
    case Mmap => if i.abi == I386 then [OldMmapArgs] else [Hint, Length, Protection, MmapFlags, MmapFd, MmapOffset]
    case Mmap2 => [Hint, Length, Protection, MmapFlags, MmapFd, MmapOffset]
    case Select => if i.abi == I386 then [OldSelectArgs] else [Nfds, ReadFds, WriteFds, ExceptFds, SelectTimeout]
    case NewSelect => [Nfds, ReadFds, WriteFds, ExceptFds, SelectTimeout]
    case Other(_, count) => seq(Min(count, 6), k requires 0 <= k < Min(count, 6) => OtherPar(k))
  }

  /** The members of a class that hold something for some of its calls only. */
  predicate Optional(nr: Nr, item: Item) {
    match nr
    case Fcntl => item !in {FcntlFd, FcntlOperation}
    case Futex => item !in {FutexAddr, FutexOperation, Unused}
    case Open => item == Mode
    case OpenAt => item == Mode
    case Clone => item in {ParentTid, Pidfd, ChildTid, Tls}
    case WaitId => item in {IdPid, IdPgid, IdPidfd}
    case Fadvise64 => item in {OffsetPlain, OffsetCombined, SizePlain, SizeCombined}
    case Fadvise64_64 => item in {OffsetPlain, OffsetCombined, SizePlain, SizeCombined}
    case Mmap => item == OldMmapArgs
    case Mmap2 => item == OldMmapArgs
    case Select => item == OldSelectArgs
    case NewSelect => item == OldSelectArgs
    case Other(_, _) => false
    case _ => item == FsSize
  }

  /** The optional members there are: those in the list, and the return item. */
  ghost predicate HoldsMembers(o: Obj, nr: Nr) {
    forall item :: item in o.present <==> (item in o.pars || item == o.ret) && Optional(nr, item)
  }

  /** The object is what this call needs, and nothing more. */
  ghost predicate Fits(o: Obj, nr: Nr, i: Info) {
    o.pars == ParametersOf(nr, i) && o.ret == ReturnOf(nr, i) && HoldsMembers(o, nr)
  }

  predicate Rejoined(o: Obj, fixed: seq<Item>) {
    o.pars == fixed && o.present == {Success} && o.ret == Success
  }

  lemma FcntlMembers(o: Obj, op: FcntlOper)
    requires o.present == {Success} && o.ret == Success
    ensures var (r, extra) := (SecondFcntl(o, op), FcntlExtra(op));
      && r.ret == FcntlResult(op) && |extra| <= 1
      && r.present == (if extra == [] then {} else {extra[0]}) + {r.ret}
  {}

  lemma FcntlFits(o: Obj, i: Info)
    requires Rejoined(o, [FcntlFd, FcntlOperation])
    ensures Fits(SecondFcntl(o, i.means.fcntl), Fcntl, i)
  {
    hide SecondFcntl, FcntlResult;
    var (r, extra) := (SecondFcntl(o, i.means.fcntl), FcntlExtra(i.means.fcntl));
    FcntlParameters(o, i.means.fcntl);
    FcntlMembers(o, i.means.fcntl);
    FcntlNotFixed(i.means.fcntl);
    if extra == [] { assert r.pars == o.pars; } else { assert r.pars == o.pars + [extra[0]]; }
  }

  lemma FcntlNotFixed(op: FcntlOper)
    ensures FcntlFd !in FcntlExtra(op) && FcntlOperation !in FcntlExtra(op)
    ensures FcntlResult(op) !in {FcntlFd, FcntlOperation}
  {}

  function Used(items: seq<Item>): set<Item> { set x | x in items && x != Unused }

  /** The optional arguments of futex(). */
  function FutexArgs(c: FutexCommand): set<Item> {
    match c
    case Wait => {FutexValue, Timeout}
    case WaitBitset => {FutexValue, Timeout, Bitset}
    case Wake => {WakeCount}
    case WakeBitset => {WakeCount, Bitset}
    case CreateFd => {FdSig}
    case Requeue => {WakeCount, RequeueLimit, Addr2}
    case CmpRequeue => {WakeCount, RequeueLimit, Addr2, RequeueValue}
    case CmpRequeuePi => {WakeCount, RequeueLimit, Addr2, RequeueValue}
    case WakeOpCommand => {WakeCount, WakeCount2, Addr2, WakeOp}
    case LockPi => {Timeout}
    case LockPi2 => {Timeout}
    case WaitRequeuePi => {FutexValue, Timeout, Addr2}
    case _ => {}
  }

  lemma FutexUsed(c: FutexCommand)
    ensures Used(FutexExtra(c)) == FutexArgs(c) && Success !in FutexArgs(c)
  {}

  lemma ReturnReplaced(o: Obj, args: set<Item>, more: seq<Item>, r: Item)
    requires o.present == {Success} && Success !in args
    ensures Ret(Add(Emplace(o, args), more), r).present == args + {r}
    ensures Add(Emplace(o, args), more).present == args + {Success}
  {}

  lemma FutexMembers(o: Obj, c: FutexCommand)
    requires o.present == {Success} && o.ret == Success
    ensures var r := SecondFutex(o, c);
      r.ret == FutexResult(c) && r.present == Used(FutexExtra(c)) + {r.ret}
  {
    hide Used, FutexArgs, FutexExtra, Emplace, Add, Ret;
    FutexUsed(c);
    FutexPass(o, c);
  }

  lemma FutexPass(o: Obj, c: FutexCommand)
    requires o.present == {Success} && o.ret == Success
    ensures SecondFutex(o, c).ret == FutexResult(c)
    ensures SecondFutex(o, c).present == FutexArgs(c) + {FutexResult(c)}
  {
    match c
    case Wait => ReturnReplaced(o, FutexArgs(c), [FutexValue, Timeout], Success);
    case WaitBitset => ReturnReplaced(o, FutexArgs(c), [FutexValue, Timeout, Unused, Bitset], Success);
    case Wake => ReturnReplaced(o, FutexArgs(c), [WakeCount], NumWokenUp);
    case WakeBitset => ReturnReplaced(o, FutexArgs(c), [WakeCount, Unused, Unused, Bitset], NumWokenUp);
    case CreateFd => ReturnReplaced(o, FutexArgs(c), [FdSig], NewFd);
    case Requeue => ReturnReplaced(o, FutexArgs(c), [WakeCount, RequeueLimit, Addr2], NumWokenUp);
    case CmpRequeue => ReturnReplaced(o, FutexArgs(c), [WakeCount, RequeueLimit, Addr2, RequeueValue], NumWokenUp);
    case CmpRequeuePi => ReturnReplaced(o, FutexArgs(c), [WakeCount, RequeueLimit, Addr2, RequeueValue], NumWokenUp);
    case WakeOpCommand => ReturnReplaced(o, FutexArgs(c), [WakeCount, WakeCount2, Addr2, WakeOp], NumWokenUp);
    case LockPi => ReturnReplaced(o, FutexArgs(c), [Unused, Timeout], Success);
    case LockPi2 => ReturnReplaced(o, FutexArgs(c), [Unused, Timeout], Success);
    case WaitRequeuePi => ReturnReplaced(o, FutexArgs(c), [FutexValue, Timeout, Addr2], Success);
    case _ =>
  }

  lemma FutexFits(o: Obj, i: Info)
    requires Rejoined(o, [FutexAddr, FutexOperation])
    ensures Fits(SecondFutex(o, i.means.futex), Futex, i)
  {
    hide SecondFutex, FutexExtra, FutexResult;
    FutexParameters(o, i.means.futex);
    FutexMembers(o, i.means.futex);
    FutexExtraOrderly(i.means.futex);
    FutexResultOptional(i.means.futex);
  }

  lemma FutexResultOptional(c: FutexCommand)
    ensures FutexResult(c) !in {FutexAddr, FutexOperation, Unused}
  {}

  lemma OpenFits(o: Obj, nr: Nr, i: Info, fixed: seq<Item>)
    requires nr in {Open, OpenAt} && o.pars == fixed && o.present == {} && o.ret == NewFd
    requires fixed == if nr == Open then [Filename, OpenFlags] else [DirFd, Filename, OpenFlags]
    ensures Fits(Second(o, nr, i).value.0, nr, i)
  {
    assert fixed + [] == fixed;
  }

  lemma WaitMember(i: Info, item: Item)
    ensures (item in ParametersOf(WaitId, i) || item == Success) && Optional(WaitId, item)
       <==> item == IdOf(i.means.wait) && item != Unused
  {}

  lemma WaitShape(o: Obj, t: WaitType)
    requires o.pars == [IdType] && o.present == {} && t != UnknownWaitType
    ensures SecondWait(o, t).Some?
    ensures var r := SecondWait(o, t).value;
      && r.pars == [IdType, IdOf(t), SigInfo, WaitOptions, Rusage] && r.ret == o.ret
      && forall item :: item in r.present <==> item == IdOf(t) && item != Unused
  {}

  lemma WaitFits(o: Obj, i: Info)
    requires o.pars == [IdType] && o.present == {} && o.ret == Success && i.means.wait != UnknownWaitType
    ensures Fits(SecondWait(o, i.means.wait).value, WaitId, i)
  {
    hide Optional, SecondWait, IdOf;
    WaitShape(o, i.means.wait);
    var r := SecondWait(o, i.means.wait).value;
    forall item ensures item in r.present <==> (item in r.pars || item == r.ret) && Optional(WaitId, item) {
      WaitMember(i, item);
    }
  }

  lemma ThirdMembers(o: Obj, m: Meaning)
    requires o.present == {}
    ensures WithThird(o, m).present == if Third(m) == Unused then {} else {Third(m)}
  {}

  lemma MaybeMembers(o: Obj, given: bool, index: nat, item: Item)
    ensures MaybeAt(o, given, index, item).present == o.present + if given then {item} else {}
  {}

  lemma CloneMembers(o: Obj, abi: Abi, m: Meaning)
    requires o.present == {} && abi != UnknownAbi
    ensures SecondClone(o, abi, m).present
      == (if Third(m) == Unused then {} else {Third(m)})
         + (if m.childSettid then {ChildTid} else {}) + (if m.settls then {Tls} else {})
  {
    hide MaybeAt, Third;
    var o1 := WithThird(o, m);
    ThirdMembers(o, m);
    MaybeMembers(o1, m.childSettid, 3, ChildTid);
    MaybeMembers(MaybeAt(o1, m.childSettid, 3, ChildTid), m.settls, 4, Tls);
    MaybeMembers(o1, m.settls, 3, Tls);
    MaybeMembers(MaybeAt(o1, m.settls, 3, Tls), m.childSettid, 4, ChildTid);
  }

  lemma RegistersHold(abi: Abi, m: Meaning, item: Item)
    ensures item in CloneRegisters(abi, m) && Optional(Clone, item) <==>
      || (m.parentSettid && item == ParentTid) || (!m.parentSettid && m.pidfd && item == Pidfd)
      || (m.childSettid && item == ChildTid) || (m.settls && item == Tls)
  {
    hide CloneRegisters, Optional;
    assert Optional(Clone, item) <==> item in {ParentTid, Pidfd, ChildTid, Tls} by { OptionalInClone(item); }
    TlsAndTidPlaces(abi, m);
    OnlyRegisters(abi, m);
  }

  lemma OptionalInClone(item: Item)
    ensures Optional(Clone, item) <==> item in {ParentTid, Pidfd, ChildTid, Tls}
  {}

  lemma OnlyRegisters(abi: Abi, m: Meaning)
    ensures var pars := CloneRegisters(abi, m);
      && (ParentTid in pars ==> m.parentSettid) && (Pidfd in pars ==> !m.parentSettid && m.pidfd)
      && (ChildTid in pars ==> m.childSettid) && (Tls in pars ==> m.settls)
  {}

  lemma CloneFits(o: Obj, i: Info)
    requires o.pars == [CloneFlags, Stack] && o.present == {} && o.ret == NewPid && i.abi != UnknownAbi
    ensures Fits(SecondClone(o, i.abi, i.means), Clone, i)
  {
    hide SecondClone, CloneRegisters, Optional;
    var r := SecondClone(o, i.abi, i.means);
    CloneInRegisters(o, i.abi, i.means);
    CloneMembers(o, i.abi, i.means);
    OptionalInClone(NewPid);
    forall item ensures item in r.present <==> (item in r.pars || item == r.ret) && Optional(Clone, item) {
      RegistersHold(i.abi, i.means, item);
    }
  }

  /** The classes without a second pass: a list, and which of it is optional. */
  predicate Looks(o: Obj, pars: seq<Item>, present: set<Item>, ret: Item) {
    o.pars == pars && o.present == present && o.ret == ret
  }

  lemma LooksFit(o: Obj, nr: Nr, i: Info, present: set<Item>)
    requires Looks(o, ParametersOf(nr, i), present, ReturnOf(nr, i))
    requires forall item :: item in present <==> (item in ParametersOf(nr, i) || item == ReturnOf(nr, i)) && Optional(nr, item)
    ensures Fits(o, nr, i)
  {
    hide ParametersOf, ReturnOf, Optional;
  }

  lemma AdvisePlainLooks(h: Host, nr: Nr, i: Info)
    requires IsAdvise(nr) && Occurs(h, i.abi) && i.abi in {X86_64, Aarch64}
    ensures Prepare(Fresh(h, nr), nr, i.abi).Some?
    ensures Looks(Prepare(Fresh(h, nr), nr, i.abi).value, ADVISE_PARS, {OffsetPlain, SizePlain}, Success)
  {}

  lemma AdvisePlainFits(h: Host, nr: Nr, i: Info)
    requires IsAdvise(nr) && Occurs(h, i.abi) && i.abi in {X86_64, Aarch64}
    ensures Fits(Prepare(Fresh(h, nr), nr, i.abi).value, nr, i)
  {
    hide Prepare, Fresh, Fits;
    AdvisePlainLooks(h, nr, i);
    LooksFit(Prepare(Fresh(h, nr), nr, i.abi).value, nr, i, {OffsetPlain, SizePlain});
  }

  lemma Advise32Looks(h: Host, nr: Nr, i: Info)
    requires IsAdvise(nr) && i.abi == I386
    ensures Prepare(Fresh(h, nr), nr, i.abi).Some?
    ensures Looks(Prepare(Fresh(h, nr), nr, i.abi).value, ParametersOf(nr, i),
                  {OffsetCombined, if nr == Fadvise64_64 then SizeCombined else SizePlain}, Success)
  {}

  lemma Advise32Fits(h: Host, nr: Nr, i: Info)
    requires IsAdvise(nr) && i.abi == I386
    ensures Fits(Prepare(Fresh(h, nr), nr, i.abi).value, nr, i)
  {
    hide Prepare, Fresh, Fits;
    Advise32Looks(h, nr, i);
    LooksFit(Prepare(Fresh(h, nr), nr, i.abi).value, nr, i,
             {OffsetCombined, if nr == Fadvise64_64 then SizeCombined else SizePlain});
  }

  function SizedPresent(nr: Nr): set<Item> { if nr in {Statfs64, Fstatfs64} then {FsSize} else {} }

  lemma SizedLooks(h: Host, nr: Nr, i: Info)
    requires IsSized(nr)
    ensures Prepare(Fresh(h, nr), nr, i.abi).Some?
    ensures Looks(Prepare(Fresh(h, nr), nr, i.abi).value, ParametersOf(nr, i), SizedPresent(nr), Success)
  {}

  lemma SizedFits(h: Host, nr: Nr, i: Info)
    requires IsSized(nr)
    ensures Fits(Prepare(Fresh(h, nr), nr, i.abi).value, nr, i)
  {
    hide Prepare, Fresh, Fits;
    SizedLooks(h, nr, i);
    LooksFit(Prepare(Fresh(h, nr), nr, i.abi).value, nr, i, SizedPresent(nr));
  }

  function SwitchedPresent(nr: Nr, abi: Abi): set<Item> {
    if nr == Mmap && abi == I386 then {OldMmapArgs}
    else if nr == Select && abi == I386 then {OldSelectArgs} else {}
  }

  lemma SwitchedLooks(h: Host, nr: Nr, i: Info)
    requires nr in {Mmap, Mmap2, Select, NewSelect}
    ensures Prepare(Fresh(h, nr), nr, i.abi).Some?
    ensures Looks(Prepare(Fresh(h, nr), nr, i.abi).value, ParametersOf(nr, i), SwitchedPresent(nr, i.abi), ReturnOf(nr, i))
  {}

  lemma NoneOptional(nr: Nr, i: Info, item: Item)
    requires nr in {Mmap, Mmap2, Select, NewSelect} && (nr in {Mmap, Select} ==> i.abi != I386)
    ensures item in ParametersOf(nr, i) || item == ReturnOf(nr, i) ==> !Optional(nr, item)
  {}

  lemma SwitchedMembers(nr: Nr, i: Info, item: Item)
    requires nr in {Mmap, Mmap2, Select, NewSelect}
    ensures item in SwitchedPresent(nr, i.abi)
       <==> (item in ParametersOf(nr, i) || item == ReturnOf(nr, i)) && Optional(nr, item)
  {
    if nr in {Mmap, Select} && i.abi == I386 {
    } else {
      hide ParametersOf, ReturnOf, Optional;
      NoneOptional(nr, i, item);
    }
  }

  lemma SwitchedFits(h: Host, nr: Nr, i: Info)
    requires nr in {Mmap, Mmap2, Select, NewSelect}
    ensures Fits(Prepare(Fresh(h, nr), nr, i.abi).value, nr, i)
  {
    hide Prepare, Fresh, Fits, ParametersOf, ReturnOf, Optional, SwitchedPresent;
    SwitchedLooks(h, nr, i);
    forall item
      ensures item in SwitchedPresent(nr, i.abi)
         <==> (item in ParametersOf(nr, i) || item == ReturnOf(nr, i)) && Optional(nr, item)
    {
      SwitchedMembers(nr, i, item);
    }
    LooksFit(Prepare(Fresh(h, nr), nr, i.abi).value, nr, i, SwitchedPresent(nr, i.abi));
  }

  lemma OtherFits(h: Host, nr: Nr, i: Info)
    requires nr.Other?
    ensures Fits(Prepare(Fresh(h, nr), nr, i.abi).value, nr, i)
  {}

  lemma RebuiltStart(h: Host, nr: Nr, abi: Abi)
    requires Rebuilds(nr)
    ensures Prepare(Fresh(h, nr), nr, abi).Some?
    ensures var (o, f) := (Prepare(Fresh(h, nr), nr, abi).value, Fresh(h, nr));
      && o.pars == f.pars && o.ret == (if nr in {Fcntl, Futex} then Success else f.ret)
      && o.present == if nr in {Fcntl, Futex} then {Success} else {}
  {
    DropsTo(Fresh(h, nr), Fresh(h, nr).pars);
  }

  /** A new object, prepared for a call and looked at for a second pass. */
  lemma SecondFits(h: Host, nr: Nr, i: Info)
    requires Occurs(h, i.abi) && !Throws(nr, i)
    ensures var q := Prepare(Fresh(h, nr), nr, i.abi);
      q.Some? && Second(q.value, nr, i).Some? && Fits(Second(q.value, nr, i).value.0, nr, i)
  {
    hide Prepare, Fits, SecondFcntl, SecondFutex, SecondClone, SecondWait, Second;
    FreshInSteps(h, nr, i);
    if Rebuilds(nr) {
      RebuiltFits(h, nr, i);
    } else {
      NoSecondPass(Prepare(Fresh(h, nr), nr, i.abi).value, nr, i);
      if IsAdvise(nr) { if i.abi == I386 { Advise32Fits(h, nr, i); } else { AdvisePlainFits(h, nr, i); } }
      else if IsSized(nr) { SizedFits(h, nr, i); }
      else if nr.Other? { OtherFits(h, nr, i); }
      else { SwitchedFits(h, nr, i); }
    }
  }

  lemma NoSecondPass(o: Obj, nr: Nr, i: Info)
    requires !Rebuilds(nr)
    ensures Second(o, nr, i) == Some((o, false))
  {}

  lemma RebuiltFits(h: Host, nr: Nr, i: Info)
    requires Rebuilds(nr) && Occurs(h, i.abi) && !Throws(nr, i)
    ensures Fits(Second(Prepare(Fresh(h, nr), nr, i.abi).value, nr, i).value.0, nr, i)
  {
    hide Prepare, Fits, SecondFcntl, SecondFutex, SecondClone, SecondWait;
    RebuiltStart(h, nr, i.abi);
    FreshInSteps(h, nr, i);
    var o := Prepare(Fresh(h, nr), nr, i.abi).value;
    match nr
    case Fcntl => FcntlFits(o, i);
    case Futex => FutexFits(o, i);
    case Clone => CloneFits(o, i);
    case WaitId => WaitFits(o, i);
    case Open => OpenFits(o, nr, i, o.pars);
    case OpenAt => OpenFits(o, nr, i, o.pars);
  }

  lemma LayoutFits(a: Obj, b: Obj, nr: Nr, i: Info)
    requires Layout(a) == Layout(b) && Fits(b, nr, i)
    ensures Fits(a, nr, i)
  {}

  /** Main result on what an entry leaves, for every object after any history of
      calls and ABIs: unless it throws, the object has the call's parameters, each
      with its argument word, the call's return item, and no optional member but
      those. */
  lemma EntryFits(h: Host, nr: Nr, history: seq<Info>, i: Info)
    requires Occurs(h, i.abi) && forall j | j in history :: Occurs(h, j.abi)
    ensures var e := SetEntryInfo(After(Fresh(h, nr), nr, history), nr, i);
      && (e.threw <==> Throws(nr, i))
      && (!e.threw ==> Fits(e.obj, nr, i) && HoldsArgs(e.obj, i.args))
  {
    hide Reachable, SetEntryInfo, Orderly, HoldsArgs, Fresh, Fits, Prepare, Second;
    FreshIsReachable(h, nr);
    HistoryStaysInReach(h, nr, Fresh(h, nr), history);
    EntryIsFresh(h, nr, After(Fresh(h, nr), nr, history), i);
    if !Throws(nr, i) {
      FreshFits(h, nr, i);
      LayoutFits(SetEntryInfo(After(Fresh(h, nr), nr, history), nr, i).obj,
                 SetEntryInfo(Fresh(h, nr), nr, i).obj, nr, i);
    }
  }

  lemma FreshFits(h: Host, nr: Nr, i: Info)
    requires Occurs(h, i.abi) && !Throws(nr, i)
    ensures Fits(SetEntryInfo(Fresh(h, nr), nr, i).obj, nr, i)
  {
    hide SetEntryInfo, Fresh, Fits, Prepare, Second;
    FreshInSteps(h, nr, i);
    SecondFits(h, nr, i);
    LayoutFits(SetEntryInfo(Fresh(h, nr), nr, i).obj,
               Second(Prepare(Fresh(h, nr), nr, i.abi).value, nr, i).value.0, nr, i);
  }

  /** Which calls return just success or an error. */
  lemma SuccessCodeExactly(nr: Nr, i: Info)
    ensures ReturnOf(nr, i) == Success <==>
      || (nr == Fcntl && i.means.fcntl in {SetFd, SetFl, AnyLock, SetOwn, GetOwnEx, SetOwnEx, SetSig, SetLease,
                                           Notify, AddSeals, GetRwHint, SetRwHint, UnknownOper})
      || (nr == Futex && i.means.futex in {Wait, WaitBitset, LockPi, LockPi2, TrylockPi, UnlockPi, WaitRequeuePi,
                                           UnknownCommand})
      || nr in {Fadvise64, Fadvise64_64, Statfs, Statfs64, Fstatfs, Fstatfs64, WaitId}
  {
    hide FutexResult;
    FutexSuccess(i.means.futex);
  }

  lemma FutexSuccess(c: FutexCommand)
    ensures FutexResult(c) == Success <==>
      c in {Wait, WaitBitset, LockPi, LockPi2, TrylockPi, UnlockPi, WaitRequeuePi, UnknownCommand}
  {}
}
