// Reusing a system call object is invisible: after any history it looks like a
// new one once the entry of the next call was set (src/SystemCall.cxx,
// src/SystemCallDB.cxx).
module CallReuse {
  import opened Common
  import opened CallLayout

  predicate IsAdvise(nr: Nr) { nr == Fadvise64 || nr == Fadvise64_64 }

  /** Everything but the values. */
  function Layout(o: Obj): Obj { o.(values := map[]) }

  predicate StartsWith(o: Obj, pars: seq<Item>, ret: Item) { pars <= o.pars && o.ret == ret }

  predicate OneOf(o: Obj, item: Item, with: seq<Item>, without: seq<Item>) {
    if item in o.present then o.present == {item} && o.pars == with else o.present == {} && o.pars == without
  }

  /** What a history of calls can leave in an object. */
  predicate Reachable(h: Host, nr: Nr, o: Obj) {
    && (!IsAdvise(nr) ==> o.native64)
    && match nr
       case Fcntl => [FcntlFd, FcntlOperation] <= o.pars
       case Futex => [FutexAddr, FutexOperation] <= o.pars
       case Open => StartsWith(o, [Filename, OpenFlags], NewFd)
       case OpenAt => StartsWith(o, [DirFd, Filename, OpenFlags], NewFd)
       case Clone => StartsWith(o, [CloneFlags, Stack], NewPid)
       case WaitId => StartsWith(o, [IdType], Success)
       case Fadvise64 => ReachableAdvise(h, o)
       case Fadvise64_64 => ReachableAdvise(h, o)
       case Statfs => o.ret == Success && OneOf(o, FsSize, [FsPath, FsSize, FsBuf], [FsPath, FsBuf])
       case Statfs64 => o.ret == Success && OneOf(o, FsSize, [FsPath, FsSize, FsBuf], [FsPath, FsBuf])
       case Fstatfs => o.ret == Success && OneOf(o, FsSize, [FsFd, FsSize, FsBuf], [FsFd, FsBuf])
       case Fstatfs64 => o.ret == Success && OneOf(o, FsSize, [FsFd, FsSize, FsBuf], [FsFd, FsBuf])
       case Mmap => o.ret == MapAddr && OneOf(o, OldMmapArgs, [OldMmapArgs], MMAP_PARS)
       case Mmap2 => o.ret == MapAddr && OneOf(o, OldMmapArgs, [OldMmapArgs], MMAP_PARS)
       case Select => o.ret == NumReady && OneOf(o, OldSelectArgs, [OldSelectArgs], SELECT_PARS)
       case NewSelect => o.ret == NumReady && OneOf(o, OldSelectArgs, [OldSelectArgs], SELECT_PARS)
       case Other(_, count) => Layout(o) == Layout(Fresh(h, nr))
  }

  predicate ReachableAdvise(h: Host, o: Obj) {
    && o.ret == Success
    && (h == HostAarch64 ==> o.native64)
    && (h != HostI386 && o.native64 ==> o.pars == ADVISE_PARS && o.present == {OffsetPlain, SizePlain})
  }

  lemma FreshIsReachable(h: Host, nr: Nr)
    ensures Reachable(h, nr, Fresh(h, nr))
  {}

  predicate SamePrepared(a: Option<Obj>, b: Option<Obj>) {
    && a.Some? == b.Some?
    && (a.Some? ==> Layout(a.value) == Layout(b.value))
  }

  lemma DropsTo(o: Obj, pars: seq<Item>)
    requires pars <= o.pars
    ensures Drop(o, |pars|) == o.(pars := pars)
  {}

  predicate Rebuilds(nr: Nr) { nr in {Fcntl, Futex, Open, OpenAt, Clone, WaitId} }

  lemma FixedPars(h: Host, nr: Nr, o: Obj)
    requires Reachable(h, nr, o) && Rebuilds(nr)
    ensures Fresh(h, nr).pars <= o.pars && Fresh(h, nr).native64 && o.native64
    ensures nr in {Fcntl, Futex} || o.ret == Fresh(h, nr).ret
    ensures |Fresh(h, nr).pars| == (if nr == OpenAt then 3 else if nr == WaitId then 1 else 2)
  {}

  lemma RebuildForgets(h: Host, nr: Nr, o: Obj, abi: Abi)
    requires Reachable(h, nr, o) && Rebuilds(nr)
    ensures SamePrepared(Prepare(o, nr, abi), Prepare(Fresh(h, nr), nr, abi))
  {
    hide Drop, Fresh, Reachable;
    FixedPars(h, nr, o);
    DropsTo(o, Fresh(h, nr).pars);
    DropsTo(Fresh(h, nr), Fresh(h, nr).pars);
  }

  lemma AdviseForgets(h: Host, nr: Nr, o: Obj, abi: Abi)
    requires Reachable(h, nr, o) && Occurs(h, abi) && IsAdvise(nr)
    ensures SamePrepared(Prepare(o, nr, abi), Prepare(Fresh(h, nr), nr, abi))
  {}

  /** prepareNewSystemCall() forgets whatever was before. */
  lemma PrepareForgets(h: Host, nr: Nr, o: Obj, abi: Abi)
    requires Reachable(h, nr, o) && Occurs(h, abi)
    ensures SamePrepared(Prepare(o, nr, abi), Prepare(Fresh(h, nr), nr, abi))
  {
    if Rebuilds(nr) {
      RebuildForgets(h, nr, o, abi);
    } else if IsAdvise(nr) {
      AdviseForgets(h, nr, o, abi);
    }
  }

  // ----- the second pass does not look at what is left of earlier values

  function With(o: Obj, values: map<Item, nat>): Obj { o.(values := values) }

  lemma FcntlBlind(o: Obj, v: map<Item, nat>, op: FcntlOper)
    ensures SecondFcntl(With(o, v), op) == With(SecondFcntl(o, op), v)
  {}

  lemma FutexBlind(o: Obj, v: map<Item, nat>, c: FutexCommand)
    ensures SecondFutex(With(o, v), c) == With(SecondFutex(o, c), v)
  {}

  lemma MaybeAtBlind(o: Obj, v: map<Item, nat>, given: bool, index: nat, item: Item)
    ensures MaybeAt(With(o, v), given, index, item) == With(MaybeAt(o, given, index, item), v)
  {
    var (a, b) := (Pad(Emplace(With(o, v), {item}), index), Pad(Emplace(o, {item}), index));
    assert a.pars == b.pars;
  }

  lemma CloneBlind(o: Obj, v: map<Item, nat>, abi: Abi, m: Meaning)
    ensures SecondClone(With(o, v), abi, m) == With(SecondClone(o, abi, m), v)
  {
    hide MaybeAt;
    var o1 :=
      if m.parentSettid then Add(Emplace(o, {ParentTid}), [ParentTid])
      else if m.pidfd then Add(Emplace(o, {Pidfd}), [Pidfd])
      else o;
    MaybeAtBlind(o1, v, m.childSettid, 3, ChildTid);
    MaybeAtBlind(MaybeAt(o1, m.childSettid, 3, ChildTid), v, m.settls, 4, Tls);
    MaybeAtBlind(o1, v, m.settls, 3, Tls);
    MaybeAtBlind(MaybeAt(o1, m.settls, 3, Tls), v, m.childSettid, 4, ChildTid);
  }

  lemma SecondBlind(o: Obj, v: map<Item, nat>, nr: Nr, i: Info)
    ensures var (a, b) := (Second(With(o, v), nr, i), Second(o, nr, i));
      && a.Some? == b.Some?
      && (a.Some? ==> a.value == (With(b.value.0, v), b.value.1))
  {
    hide SecondFcntl, SecondFutex, SecondClone;
    FcntlBlind(o, v, i.means.fcntl);
    FutexBlind(o, v, i.means.futex);
    CloneBlind(o, v, i.abi, i.means);
  }

  /** So the layout after an entry depends only on the layout it started from. */
  lemma EntryForgets(h: Host, nr: Nr, o: Obj, i: Info)
    requires Reachable(h, nr, o) && Occurs(h, i.abi)
    ensures var (cached, brandNew) := (SetEntryInfo(o, nr, i), SetEntryInfo(Fresh(h, nr), nr, i));
      && cached.threw == brandNew.threw
      && (!cached.threw ==> Layout(cached.obj) == Layout(brandNew.obj))
  {
    hide Second, Fill, Prepare, Fresh, Reachable;
    PrepareForgets(h, nr, o, i.abi);
    var (p, q) := (Prepare(o, nr, i.abi), Prepare(Fresh(h, nr), nr, i.abi));
    if p.Some? && FitsRegisters(p.value) {
      var (a, b) := (Fill(p.value, i.args), Fill(q.value, i.args));
      assert a == With(b, a.values);
      SecondBlind(b, a.values, nr, i);
    }
  }

  // ----- what the lists look like

  predicate NoRepeats(pars: seq<Item>) {
    forall j, k | 0 <= j < k < |pars| :: pars[j] == pars[k] ==> pars[j] == Unused
  }

  /** A list that fits the registers and names each item once. */
  predicate Orderly(o: Obj) { FitsRegisters(o) && NoRepeats(o.pars) }

  /** The parameter fcntl() has besides the first two. */
  function FcntlExtra(op: FcntlOper): seq<Item> {
    match op
    case DupFd => [DupLowest]
    case DupFdCloexec => [DupLowest]
    case SetFd => [FdFlagsArg]
    case SetFl => [StatusFlagsArg]
    case AnyLock => [FlockArg]
    case SetOwn => [OwnerArg]
    case GetOwnEx => [ExtOwnerArg]
    case SetOwnEx => [ExtOwnerArg]
    case SetSig => [IoSignalArg]
    case SetLease => [LeaseArg]
    case Notify => [DnotifyArg]
    case SetPipeSz => [PipeSizeArg]
    case AddSeals => [FileSealsArg]
    case GetRwHint => [RwHintArg]
    case SetRwHint => [RwHintArg]
    case _ => []
  }

  lemma FcntlParameters(o: Obj, op: FcntlOper)
    ensures var r := SecondFcntl(o, op);
      r.pars == o.pars + FcntlExtra(op) && r.native64 == o.native64
  {
    assert o.pars + [] == o.pars;
  }

  lemma FcntlOrderly(o: Obj, op: FcntlOper)
    requires o.pars == [FcntlFd, FcntlOperation]
    ensures Orderly(SecondFcntl(o, op)) && [FcntlFd, FcntlOperation] <= SecondFcntl(o, op).pars
    ensures SecondFcntl(o, op).native64 == o.native64
  {
    hide SecondFcntl;
    FcntlParameters(o, op);
    BothOrderly(o.pars, FcntlExtra(op));
  }

  /** The parameters futex() has besides the first two. */
  function FutexExtra(c: FutexCommand): seq<Item> {
    match c
    case Wait => [FutexValue, Timeout]
    case WaitBitset => [FutexValue, Timeout, Unused, Bitset]
    case Wake => [WakeCount]
    case WakeBitset => [WakeCount, Unused, Unused, Bitset]
    case CreateFd => [FdSig]
    case Requeue => [WakeCount, RequeueLimit, Addr2]
    case CmpRequeue => [WakeCount, RequeueLimit, Addr2, RequeueValue]
    case CmpRequeuePi => [WakeCount, RequeueLimit, Addr2, RequeueValue]
    case WakeOpCommand => [WakeCount, WakeCount2, Addr2, WakeOp]
    case LockPi => [Unused, Timeout]
    case LockPi2 => [Unused, Timeout]
    case TrylockPi => []
    case UnlockPi => []
    case WaitRequeuePi => [FutexValue, Timeout, Addr2]
    case UnknownCommand => []
  }

  lemma FutexParameters(o: Obj, c: FutexCommand)
    ensures var r := SecondFutex(o, c);
      r.pars == o.pars + FutexExtra(c) && r.native64 == o.native64
  {}

  /** Items of two lists that have nothing in common but unused ones. */
  lemma BothOrderly(a: seq<Item>, b: seq<Item>)
    requires NoRepeats(a) && NoRepeats(b) && forall k | 0 <= k < |b| :: b[k] == Unused || b[k] !in a
    ensures NoRepeats(a + b)
  {
    forall j, k | 0 <= j < k < |a + b| && (a + b)[j] == (a + b)[k] ensures (a + b)[j] == Unused {
      if j < |a| <= k { assert b[k - |a|] == (a + b)[k]; }
    }
  }

  lemma FutexExtraOrderly(c: FutexCommand)
    ensures NoRepeats(FutexExtra(c)) && |FutexExtra(c)| <= 4
    ensures forall k | 0 <= k < |FutexExtra(c)| :: FutexExtra(c)[k] !in [FutexAddr, FutexOperation]
  {}

  lemma FutexOrderly(o: Obj, c: FutexCommand)
    requires o.pars == [FutexAddr, FutexOperation]
    ensures Orderly(SecondFutex(o, c)) && [FutexAddr, FutexOperation] <= SecondFutex(o, c).pars
    ensures SecondFutex(o, c).native64 == o.native64
  {
    hide SecondFutex, FutexExtra;
    FutexParameters(o, c);
    FutexExtraOrderly(c);
    BothOrderly(o.pars, FutexExtra(c));
  }

  /** The registers of clone(), as the ABI assigns them, up to the last one that
      the flags say is used: flags, stack, a place for a tid or pidfd, and then
      child_tid and tls, in this order or the other. */
  function CloneRegisters(abi: Abi, m: Meaning): seq<Item> {
    var (tid, tls) := (if m.childSettid then ChildTid else Unused, if m.settls then Tls else Unused);
    [CloneFlags, Stack] +
    (if abi == X86_64 || abi == X32 then UpToLast(Third(m), tid, tls) else UpToLast(Third(m), tls, tid))
  }

  function Third(m: Meaning): Item { if m.parentSettid then ParentTid else if m.pidfd then Pidfd else Unused }

  function UpToLast(third: Item, fourth: Item, fifth: Item): seq<Item> {
    if fifth != Unused then [third, fourth, fifth]
    else if fourth != Unused then [third, fourth]
    else if third != Unused then [third]
    else []
  }

  /** One optional parameter at its index, with unused ones before it. */
  lemma PutAt(o: Obj, given: bool, index: nat, item: Item, pars: seq<Item>)
    requires |o.pars| <= index
    requires if given then o.pars <= pars && |pars| == index + 1 && pars[index] == item
                           && (forall k | |o.pars| <= k < index :: pars[k] == Unused)
             else pars == o.pars
    ensures var r := MaybeAt(o, given, index, item);
      r.pars == pars && r.ret == o.ret && r.native64 == o.native64
  {}

  lemma PutFourth(o: Obj, third: Item, given: bool, a: Item)
    requires o.pars == [CloneFlags, Stack] + UpToLast(third, Unused, Unused) && a != Unused
    ensures var r := MaybeAt(o, given, 3, a);
      && r.ret == o.ret && r.native64 == o.native64
      && r.pars == [CloneFlags, Stack] + UpToLast(third, if given then a else Unused, Unused)
  {
    hide MaybeAt;
    PutAt(o, given, 3, a, [CloneFlags, Stack] + UpToLast(third, if given then a else Unused, Unused));
  }

  lemma PutFifth(o: Obj, third: Item, fourth: Item, given: bool, b: Item)
    requires o.pars == [CloneFlags, Stack] + UpToLast(third, fourth, Unused) && b != Unused
    ensures var r := MaybeAt(o, given, 4, b);
      && r.ret == o.ret && r.native64 == o.native64
      && r.pars == [CloneFlags, Stack] + UpToLast(third, fourth, if given then b else Unused)
  {
    hide MaybeAt;
    PutAt(o, given, 4, b, [CloneFlags, Stack] + UpToLast(third, fourth, if given then b else Unused));
  }

  lemma PutTwo(o: Obj, third: Item, first: bool, a: Item, second: bool, b: Item)
    requires o.pars == [CloneFlags, Stack] + UpToLast(third, Unused, Unused) && a != Unused && b != Unused
    ensures var r := MaybeAt(MaybeAt(o, first, 3, a), second, 4, b);
      && r.ret == o.ret && r.native64 == o.native64
      && r.pars == [CloneFlags, Stack] + UpToLast(third, if first then a else Unused, if second then b else Unused)
  {
    hide MaybeAt, UpToLast;
    PutFourth(o, third, first, a);
    PutFifth(MaybeAt(o, first, 3, a), third, if first then a else Unused, second, b);
  }

  lemma ThirdAdded(o: Obj, m: Meaning)
    requires o.pars == [CloneFlags, Stack]
    ensures var o1 := WithThird(o, m);
      && o1.pars == [CloneFlags, Stack] + UpToLast(Third(m), Unused, Unused)
      && o1.ret == o.ret && o1.native64 == o.native64
  {}

  function WithThird(o: Obj, m: Meaning): Obj {
    if m.parentSettid then Add(Emplace(o, {ParentTid}), [ParentTid])
    else if m.pidfd then Add(Emplace(o, {Pidfd}), [Pidfd])
    else o
  }

  /** So clone()'s parameters sit where the ABI passes them, for every flag set. */
  lemma CloneInRegisters(o: Obj, abi: Abi, m: Meaning)
    requires o.pars == [CloneFlags, Stack] && abi != UnknownAbi
    ensures var r := SecondClone(o, abi, m);
      && r.pars == CloneRegisters(abi, m) && r.ret == o.ret && r.native64 == o.native64
  {
    hide MaybeAt, Third, UpToLast;
    ThirdAdded(o, m);
    var o1 := WithThird(o, m);
    if abi == X86_64 || abi == X32 {
      PutTwo(o1, Third(m), m.childSettid, ChildTid, m.settls, Tls);
    } else {
      PutTwo(o1, Third(m), m.settls, Tls, m.childSettid, ChildTid);
    }
  }

  lemma UpToLastOrderly(third: Item, fourth: Item, fifth: Item)
    requires {third, fourth, fifth} !! {CloneFlags, Stack}
    requires (third == Unused || (third != fourth && third != fifth)) && (fourth == Unused || fourth != fifth)
    ensures NoRepeats([CloneFlags, Stack] + UpToLast(third, fourth, fifth)) && |UpToLast(third, fourth, fifth)| <= 3
  {
    var rest := UpToLast(third, fourth, fifth);
    UpToThree(third, fourth, fifth);
    UpToThree(CloneFlags, Stack, Unused);
    BothOrderly([CloneFlags, Stack], rest);
  }

  lemma RegistersOrderly(o: Obj, abi: Abi, m: Meaning)
    requires o.pars == CloneRegisters(abi, m)
    ensures Orderly(o) && [CloneFlags, Stack] <= o.pars
  {
    hide NoRepeats, UpToLast;
    var (tid, tls) := (if m.childSettid then ChildTid else Unused, if m.settls then Tls else Unused);
    UpToLastOrderly(Third(m), tid, tls);
    UpToLastOrderly(Third(m), tls, tid);
  }

  lemma UpToThree(a: Item, b: Item, c: Item)
    requires (a == Unused || (a != b && a != c)) && (b == Unused || b != c)
    ensures NoRepeats([a, b, c]) && NoRepeats([a, b]) && NoRepeats([a]) && NoRepeats([])
  {}

  /** In particular tls and child_tid, which swap places between ABIs. */
  lemma TlsAndTidPlaces(abi: Abi, m: Meaning)
    ensures var pars := CloneRegisters(abi, m);
      var (tid, tls) := if abi == X86_64 || abi == X32 then (3, 4) else (4, 3);
      && (m.childSettid <==> |pars| > tid && pars[tid] == ChildTid)
      && (m.settls <==> |pars| > tls && pars[tls] == Tls)
      && (m.parentSettid <==> |pars| > 2 && pars[2] == ParentTid)
      && (!m.parentSettid && m.pidfd <==> |pars| > 2 && pars[2] == Pidfd)
  {}

  // ----- entries of new objects

  predicate Throws(nr: Nr, i: Info) {
    (IsAdvise(nr) && i.abi == X32) || (nr == WaitId && i.means.wait == UnknownWaitType)
  }

  /** The second pass on a newly prepared object. */
  predicate GoodSecond(h: Host, nr: Nr, o: Obj, i: Info) {
    var s := Second(o, nr, i);
    && (s.None? <==> nr == WaitId && i.means.wait == UnknownWaitType)
    && (s.Some? ==> Orderly(s.value.0) && Reachable(h, nr, s.value.0)
                    && (!s.value.1 ==> s.value.0 == o))
  }

  lemma GoodFcntlFutex(h: Host, nr: Nr, i: Info)
    requires nr == Fcntl || nr == Futex
    ensures GoodSecond(h, nr, Prepare(Fresh(h, nr), nr, i.abi).value, i)
  {
    hide SecondFcntl, SecondFutex, NoRepeats;
    var o := Prepare(Fresh(h, nr), nr, i.abi).value;
    DropsTo(Fresh(h, nr), Fresh(h, nr).pars);
    if nr == Fcntl { FcntlOrderly(o, i.means.fcntl); } else { FutexOrderly(o, i.means.futex); }
  }

  lemma GoodClone(h: Host, i: Info)
    requires i.abi != UnknownAbi
    ensures GoodSecond(h, Clone, Prepare(Fresh(h, Clone), Clone, i.abi).value, i)
  {
    hide SecondClone, NoRepeats, CloneRegisters;
    var o := Prepare(Fresh(h, Clone), Clone, i.abi).value;
    DropsTo(Fresh(h, Clone), Fresh(h, Clone).pars);
    CloneInRegisters(o, i.abi, i.means);
    RegistersOrderly(SecondClone(o, i.abi, i.means), i.abi, i.means);
    if |SecondClone(o, i.abi, i.means).pars| <= 2 { CloneUnchanged(o, i.abi, i.means); }
  }

  lemma CloneUnchanged(o: Obj, abi: Abi, m: Meaning)
    requires o.pars == [CloneFlags, Stack] && abi != UnknownAbi && |SecondClone(o, abi, m).pars| <= 2
    ensures SecondClone(o, abi, m) == o
  {}

  lemma OpenListsOrderly()
    ensures NoRepeats([Filename, OpenFlags]) && NoRepeats([Filename, OpenFlags] + [Mode])
    ensures NoRepeats([DirFd, Filename, OpenFlags]) && NoRepeats([DirFd, Filename, OpenFlags] + [Mode])
  {}

  lemma GoodOpen(h: Host, nr: Nr, i: Info)
    requires nr == Open || nr == OpenAt
    ensures GoodSecond(h, nr, Prepare(Fresh(h, nr), nr, i.abi).value, i)
  {
    hide NoRepeats, Drop;
    OpenListsOrderly();
    DropsTo(Fresh(h, nr), Fresh(h, nr).pars);
  }

  lemma WaitListOrderly(x: Item)
    requires x !in {IdType, SigInfo, WaitOptions, Rusage}
    ensures NoRepeats([IdType] + [x, SigInfo, WaitOptions, Rusage])
  {}

  lemma WaitOrderly(o: Obj, t: WaitType)
    requires o.pars == [IdType]
    ensures var r := SecondWait(o, t);
      && (r.None? <==> t == UnknownWaitType)
      && (r.Some? ==> Orderly(r.value) && [IdType] <= r.value.pars
                      && r.value.ret == o.ret && r.value.native64 == o.native64)
  {
    hide NoRepeats;
    WaitListOrderly(match t case ByPid => IdPid case ByPgid => IdPgid case ByPidfd => IdPidfd case _ => Unused);
  }

  lemma GoodWait(h: Host, i: Info)
    ensures GoodSecond(h, WaitId, Prepare(Fresh(h, WaitId), WaitId, i.abi).value, i)
  {
    hide SecondWait, Orderly;
    WaitOrderly(Prepare(Fresh(h, WaitId), WaitId, i.abi).value, i.means.wait);
    DropsTo(Fresh(h, WaitId), Fresh(h, WaitId).pars);
  }

  /** Most calls have no second pass. */
  lemma GoodSingle(h: Host, nr: Nr, i: Info, o: Obj)
    requires !Rebuilds(nr) && Orderly(o) && Reachable(h, nr, o)
    ensures GoodSecond(h, nr, o, i)
  {
    hide Reachable, Orderly;
  }

  /** A new object prepared for a call, in every case. */
  lemma FreshPrepared(h: Host, nr: Nr, i: Info)
    requires Occurs(h, i.abi)
    ensures var p := Prepare(Fresh(h, nr), nr, i.abi);
      && (p.None? <==> IsAdvise(nr) && i.abi == X32)
      && (p.Some? ==> Orderly(p.value) && Reachable(h, nr, p.value) && GoodSecond(h, nr, p.value, i))
  {
    hide GoodSecond, Prepare, Fresh, Orderly, Reachable;
    PreparedOrderly(h, nr, i.abi);
    match nr
    case Fcntl => GoodFcntlFutex(h, nr, i);
    case Futex => GoodFcntlFutex(h, nr, i);
    case Clone => GoodClone(h, i);
    case Open => GoodOpen(h, nr, i);
    case OpenAt => GoodOpen(h, nr, i);
    case WaitId => GoodWait(h, i);
    case _ =>
      var p := Prepare(Fresh(h, nr), nr, i.abi);
      if p.Some? { GoodSingle(h, nr, i, p.value); }
  }

  lemma RebuiltOrderly(h: Host, nr: Nr, abi: Abi)
    requires Rebuilds(nr)
    ensures var p := Prepare(Fresh(h, nr), nr, abi); p.Some? && Orderly(p.value) && Reachable(h, nr, p.value)
  {
    DropsTo(Fresh(h, nr), Fresh(h, nr).pars);
  }

  lemma AdviseListsOrderly()
    ensures NoRepeats(ADVISE_PARS)
    ensures NoRepeats([AdviseFd, OffsetLow, OffsetCombined, SizeLow, SizeCombined, Advice])
    ensures NoRepeats([AdviseFd, OffsetLow, OffsetCombined, SizePlain, Advice])
  {}

  lemma AdviseOrderly(h: Host, nr: Nr, abi: Abi)
    requires Occurs(h, abi) && IsAdvise(nr)
    ensures var p := Prepare(Fresh(h, nr), nr, abi);
      && (p.None? <==> abi == X32)
      && (p.Some? ==> Orderly(p.value) && Reachable(h, nr, p.value))
  {
    hide NoRepeats;
    AdviseListsOrderly();
  }

  predicate IsSized(nr: Nr) { nr in {Statfs, Statfs64, Fstatfs, Fstatfs64} }

  lemma SizedOrderly(h: Host, nr: Nr, abi: Abi)
    requires IsSized(nr)
    ensures var p := Prepare(Fresh(h, nr), nr, abi); p.Some? && Orderly(p.value) && Reachable(h, nr, p.value)
  {
    hide NoRepeats;
    ListsOrderly();
  }

  lemma SwitchedInReach(h: Host, nr: Nr, abi: Abi)
    requires nr in {Mmap, Mmap2, Select, NewSelect}
    ensures var p := Prepare(Fresh(h, nr), nr, abi); p.Some? && Reachable(h, nr, p.value)
  {}

  lemma SwitchedLists(h: Host, nr: Nr, o: Obj)
    requires nr in {Mmap, Mmap2, Select, NewSelect} && Reachable(h, nr, o)
    ensures Orderly(o)
  {
    hide NoRepeats;
    ListsOrderly();
  }

  lemma SwitchedOrderly(h: Host, nr: Nr, abi: Abi)
    requires nr in {Mmap, Mmap2, Select, NewSelect}
    ensures var p := Prepare(Fresh(h, nr), nr, abi); p.Some? && Orderly(p.value) && Reachable(h, nr, p.value)
  {
    hide NoRepeats, Prepare, Fresh, Reachable;
    SwitchedInReach(h, nr, abi);
    SwitchedLists(h, nr, Prepare(Fresh(h, nr), nr, abi).value);
  }

  lemma ListsOrderly()
    ensures NoRepeats(MMAP_PARS) && NoRepeats(SELECT_PARS)
    ensures NoRepeats([OldMmapArgs]) && NoRepeats([OldSelectArgs])
    ensures forall first | first in {FsPath, FsFd} :: NoRepeats([first, FsSize, FsBuf]) && NoRepeats([first, FsBuf])
  {}

  lemma OtherOrderly(h: Host, nr: Nr, abi: Abi)
    requires nr.Other?
    ensures var p := Prepare(Fresh(h, nr), nr, abi); p.Some? && Orderly(p.value) && Reachable(h, nr, p.value)
  {}

  lemma PreparedOrderly(h: Host, nr: Nr, abi: Abi)
    requires Occurs(h, abi)
    ensures var p := Prepare(Fresh(h, nr), nr, abi);
      && (p.None? <==> IsAdvise(nr) && abi == X32)
      && (p.Some? ==> Orderly(p.value) && Reachable(h, nr, p.value))
  {
    hide Prepare, Orderly, Reachable, Fresh;
    if Rebuilds(nr) {
      RebuiltOrderly(h, nr, abi);
    } else if IsAdvise(nr) {
      AdviseOrderly(h, nr, abi);
    } else if nr.Other? {
      OtherOrderly(h, nr, abi);
    } else if IsSized(nr) {
      SizedOrderly(h, nr, abi);
    } else {
      SwitchedOrderly(h, nr, abi);
    }
  }

  // ----- values

  lemma {:induction false} FilledFrom(o: Obj, args: seq<nat>, n: nat)
    requires |o.pars| <= |args| && n <= |o.pars| && NoRepeats(o.pars)
    ensures var r := FillFrom(o, args, n);
      && (forall k | n <= k < |o.pars| && o.pars[k] != Unused :: o.pars[k] in r.values && r.values[o.pars[k]] == args[k])
      && (forall k | 0 <= k < n && o.pars[k] != Unused && o.pars[k] in o.values ::
            o.pars[k] in r.values && r.values[o.pars[k]] == o.values[o.pars[k]])
    decreases |o.pars| - n
  {
    if n < |o.pars| { FilledFrom(o.(values := o.values[o.pars[n] := args[n]]), args, n + 1); }
  }

  /** Each parameter holds the word from its register. */
  predicate HoldsArgs(o: Obj, args: seq<nat>) {
    |o.pars| <= |args| &&
    forall k | 0 <= k < |o.pars| && o.pars[k] != Unused :: o.pars[k] in o.values && o.values[o.pars[k]] == args[k]
  }

  lemma FillHolds(o: Obj, args: seq<nat>)
    requires |args| == 6 && Orderly(o)
    ensures HoldsArgs(Fill(o, args), args)
  {
    FilledFrom(o, args, 0);
  }

  lemma SameLayoutSame(h: Host, nr: Nr, a: Obj, b: Obj)
    requires Layout(a) == Layout(b)
    ensures Orderly(a) <==> Orderly(b)
    ensures Reachable(h, nr, a) <==> Reachable(h, nr, b)
  {
    assert a == b.(values := a.values);
  }

  /** One entry: the object stays within reach, throws in the same cases as a new
      one, and when it does not, has the new one's parameters, optional members
      and return item, and the call's argument words in them. */
  lemma EntryIsFresh(h: Host, nr: Nr, o: Obj, i: Info)
    requires Reachable(h, nr, o) && Occurs(h, i.abi)
    ensures var (cached, brandNew) := (SetEntryInfo(o, nr, i), SetEntryInfo(Fresh(h, nr), nr, i));
      && Reachable(h, nr, cached.obj)
      && cached.threw == brandNew.threw == Throws(nr, i)
      && (!cached.threw ==> Layout(cached.obj) == Layout(brandNew.obj)
                            && Orderly(cached.obj) && HoldsArgs(cached.obj, i.args))
  {
    hide Second, Fill, Prepare, Fresh, Reachable, Orderly, HoldsArgs, Layout, FitsRegisters;
    FreshPrepared(h, nr, i);
    PrepareForgets(h, nr, o, i.abi);
    EntryForgets(h, nr, o, i);
    var (p, q) := (Prepare(o, nr, i.abi), Prepare(Fresh(h, nr), nr, i.abi));
    if p.Some? {
      PreparedEntry(h, nr, p.value, q.value, i);
    }
  }

  lemma PreparedEntry(h: Host, nr: Nr, p: Obj, q: Obj, i: Info)
    requires Layout(p) == Layout(q) && Orderly(q) && Reachable(h, nr, q) && GoodSecond(h, nr, q, i)
    ensures FitsRegisters(p)
    ensures var filled := Fill(p, i.args);
      var s := Second(filled, nr, i);
      && Orderly(filled) && HoldsArgs(filled, i.args) && Reachable(h, nr, filled)
      && (s.None? <==> nr == WaitId && i.means.wait == UnknownWaitType)
      && (s.Some? ==>
            && FitsRegisters(s.value.0) && (!s.value.1 ==> s.value.0 == filled)
            && var r := Fill(s.value.0, i.args); Orderly(r) && HoldsArgs(r, i.args) && Reachable(h, nr, r))
  {
    hide Second, Fill, Reachable, NoRepeats;
    var filled := Fill(p, i.args);
    SameLayoutSame(h, nr, p, q);
    SameLayoutSame(h, nr, filled, q);
    FillHolds(p, i.args);
    assert filled == With(q, filled.values);
    SecondBlind(q, filled.values, nr, i);
    var s := Second(filled, nr, i);
    if s.Some? {
      SameLayoutSame(h, nr, s.value.0, Second(q, nr, i).value.0);
      FillHolds(s.value.0, i.args);
      SameLayoutSame(h, nr, Fill(s.value.0, i.args), s.value.0);
    }
  }

  // ----- histories

  /** An object after any number of calls. */
  function After(o: Obj, nr: Nr, history: seq<Info>): Obj
    decreases |history|
  {
    if history == [] then o else After(SetEntryInfo(o, nr, history[0]).obj, nr, history[1..])
  }

  lemma {:induction false} HistoryStaysInReach(h: Host, nr: Nr, o: Obj, history: seq<Info>)
    requires Reachable(h, nr, o) && forall i | i in history :: Occurs(h, i.abi)
    ensures Reachable(h, nr, After(o, nr, history))
    decreases |history|
  {
    if history != [] {
      hide Reachable, SetEntryInfo, Orderly, HoldsArgs;
      EntryIsFresh(h, nr, o, history[0]);
      HistoryStaysInReach(h, nr, SetEntryInfo(o, nr, history[0]).obj, history[1..]);
    }
  }

  /** Main result: after any history of calls and ABIs, a cached object has the
      same parameters, optional members and return item for the next call as a
      new object for that number, ABI and arguments, and throws iff that does. */
  lemma CacheIsTransparent(h: Host, nr: Nr, history: seq<Info>, i: Info)
    requires Occurs(h, i.abi) && forall j | j in history :: Occurs(h, j.abi)
    ensures var cached := SetEntryInfo(After(Fresh(h, nr), nr, history), nr, i);
      var brandNew := SetEntryInfo(Fresh(h, nr), nr, i);
      && cached.threw == brandNew.threw
      && (!cached.threw ==>
            && cached.obj.pars == brandNew.obj.pars && cached.obj.present == brandNew.obj.present
            && cached.obj.ret == brandNew.obj.ret
            && HoldsArgs(cached.obj, i.args) && HoldsArgs(brandNew.obj, i.args))
  {
    hide Reachable, SetEntryInfo, Orderly, HoldsArgs, Fresh;
    FreshIsReachable(h, nr);
    HistoryStaysInReach(h, nr, Fresh(h, nr), history);
    EntryIsFresh(h, nr, After(Fresh(h, nr), nr, history), i);
    EntryIsFresh(h, nr, Fresh(h, nr), i);
  }

  // ----- the same, step by step, for an object that is filled in another order

  lemma PreparedInSteps(h: Host, nr: Nr, o: Obj, i: Info)
    requires Reachable(h, nr, o) && Occurs(h, i.abi)
    ensures var (p, q) := (Prepare(o, nr, i.abi), Prepare(Fresh(h, nr), nr, i.abi));
      && (p.None? <==> IsAdvise(nr) && i.abi == X32) && p.Some? == q.Some?
      && (p.Some? ==> Orderly(p.value) && Reachable(h, nr, p.value) && Layout(p.value) == Layout(q.value)
                      && Reachable(h, nr, q.value) && GoodSecond(h, nr, q.value, i))
  {
    hide Prepare, Fresh, Reachable, Orderly, GoodSecond, Layout;
    FreshPrepared(h, nr, i);
    PrepareForgets(h, nr, o, i.abi);
    var (p, q) := (Prepare(o, nr, i.abi), Prepare(Fresh(h, nr), nr, i.abi));
    if p.Some? { SameLayoutSame(h, nr, p.value, q.value); }
  }

  lemma SecondInSteps(h: Host, nr: Nr, q: Obj, filled: Obj, i: Info)
    requires Layout(filled) == Layout(q) && GoodSecond(h, nr, q, i)
    ensures var (s, t) := (Second(filled, nr, i), Second(q, nr, i));
      && (s.None? <==> nr == WaitId && i.means.wait == UnknownWaitType) && s.Some? == t.Some?
      && (s.Some? ==>
            && Layout(s.value.0) == Layout(t.value.0) && s.value.1 == t.value.1
            && Orderly(s.value.0) && Reachable(h, nr, s.value.0)
            && (!s.value.1 ==> s.value.0 == filled))
  {
    hide Second, Reachable, Orderly;
    assert filled == With(q, filled.values);
    SecondBlind(q, filled.values, nr, i);
    var t := Second(q, nr, i);
    if t.Some? { SameLayoutSame(h, nr, With(t.value.0, filled.values), t.value.0); }
  }

  /** The entry of a new object, by its layout alone. */
  lemma FreshInSteps(h: Host, nr: Nr, i: Info)
    requires Occurs(h, i.abi) && !Throws(nr, i)
    ensures var q := Prepare(Fresh(h, nr), nr, i.abi);
      && q.Some? && Second(q.value, nr, i).Some?
      && Layout(SetEntryInfo(Fresh(h, nr), nr, i).obj) == Layout(Second(q.value, nr, i).value.0)
  {
    hide Prepare, Fresh, Reachable, NoRepeats, Second, Fill;
    FreshPrepared(h, nr, i);
    var q := Prepare(Fresh(h, nr), nr, i.abi).value;
    SecondInSteps(h, nr, q, Fill(q, i.args), i);
  }
}
