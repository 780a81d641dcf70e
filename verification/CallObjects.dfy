// System call objects and their cache as they are: one mutable object per
// number, whose members are reset, rebuilt and filled in place.
module CallObjects {
  import opened Common
  import opened CallLayout
  import CallReuse
  import CallSignatures

  class SystemCall {
    const host: Host
    const nr: Nr
    const deferred: set<Item>        // items whose fill has to wait for others
    var pars: seq<Item>
    var present: set<Item>
    var ret: Item
    var native64: bool
    var values: map<Item, nat>

    function View(): Obj
      reads this
    {
      Obj(pars, present, ret, native64, values)
    }

    predicate Valid()
      reads this
    {
      CallReuse.Reachable(host, nr, View())
    }

    constructor (host: Host, nr: Nr, deferred: set<Item>)
      ensures Valid() && this.host == host && this.nr == nr && View() == Fresh(host, nr)
    {
      this.host, this.nr, this.deferred := host, nr, deferred;
      var o := Fresh(host, nr);
      pars, present, ret, native64, values := o.pars, o.present, o.ret, o.native64, o.values;
      new;
      CallReuse.FreshIsReachable(host, nr);
    }

    method DropParameters(start: nat)
      modifies `pars
      ensures View() == Drop(old(View()), start)
    {
      while |pars| > start
        invariant if |old(pars)| <= start then pars == old(pars) else start <= |pars| && pars <= old(pars)
      {
        pars := pars[..|pars| - 1];
      }
    }

    method SetParameters(items: seq<Item>, optional: set<Item>)
      modifies `pars, `present
      ensures View() == old(View()).(pars := items, present := optional)
    {
      present := optional;
      pars := items;
    }

    /** A parameter holds its argument word. */
    predicate Holds(args: Words, k: nat)
      requires k < |pars| <= 6
      reads this
    {
      pars[k] != Unused ==> pars[k] in values && values[pars[k]] == args[k]
    }

    method FillParameter(args: Words, k: nat)
      requires k < |pars| <= 6
      modifies `values
      ensures Holds(args, k)
      ensures CallReuse.NoRepeats(pars) ==> forall j | 0 <= j < |pars| && j != k && old(Holds(args, j)) :: Holds(args, j)
    {
      values := values[pars[k] := args[k]];
    }

    /** The items that can be filled at once; the others are put off. */
    method FillOrDefer(args: Words) returns (later: seq<nat>, ghost first: seq<nat>)
      requires FitsRegisters(View())
      modifies `values
      ensures forall k | 0 <= k < |first| :: first[k] < |pars| && pars[first[k]] !in deferred
      ensures forall k | 0 <= k < |later| :: later[k] < |pars| && pars[later[k]] in deferred
      ensures forall j, k | 0 <= j < k < |first| :: first[j] < first[k]
      ensures forall j, k | 0 <= j < k < |later| :: later[j] < later[k]
      ensures |first| + |later| == |pars|
      ensures forall k | 0 <= k < |pars| && pars[k] in deferred :: k in later
      ensures CallReuse.NoRepeats(pars) ==> forall k | 0 <= k < |pars| && pars[k] !in deferred :: Holds(args, k)
    {
      hide CallReuse.NoRepeats, Holds;
      later, first := [], [];
      for k := 0 to |pars|
        invariant |first| + |later| == k
        invariant forall j | 0 <= j < |first| :: first[j] < k && pars[first[j]] !in deferred
        invariant forall j | 0 <= j < |later| :: later[j] < k && pars[later[j]] in deferred
        invariant forall i, j | 0 <= i < j < |first| :: first[i] < first[j]
        invariant forall i, j | 0 <= i < j < |later| :: later[i] < later[j]
        invariant forall j | 0 <= j < k && pars[j] in deferred :: j in later
        invariant CallReuse.NoRepeats(pars) ==> forall j | 0 <= j < k && pars[j] !in deferred :: Holds(args, j)
      {
        if pars[k] in deferred {
          later := later + [k];
        } else {
          FillParameter(args, k);
          first := first + [k];
        }
      }
    }

    method FillDeferred(args: Words, later: seq<nat>)
      requires FitsRegisters(View()) && forall k | 0 <= k < |later| :: later[k] < |pars|
      modifies `values
      ensures CallReuse.NoRepeats(pars) ==>
        forall j | 0 <= j < |pars| && (j in later || old(Holds(args, j))) :: Holds(args, j)
    {
      hide CallReuse.NoRepeats, Holds;
      for k := 0 to |later|
        invariant CallReuse.NoRepeats(pars) ==>
          forall j | 0 <= j < |pars| && (j in later[..k] || old(Holds(args, j))) :: Holds(args, j)
      {
        assert later[..k + 1] == later[..k] + [later[k]];
        FillParameter(args, later[k]);
      }
      assert later[..|later|] == later;
    }

    /** One pass over the parameters; those that have to wait come last. */
    method FillParameters(args: Words) returns (ghost order: seq<nat>)
      requires FitsRegisters(View())
      modifies `values
      ensures |order| == |pars| && forall k | 0 <= k < |order| :: order[k] < |pars|
      ensures forall j, k | 0 <= j < k < |order| ::
        order[j] != order[k] && (pars[order[j]] in deferred ==> pars[order[k]] in deferred)
      ensures CallReuse.NoRepeats(pars) ==> CallReuse.HoldsArgs(View(), args)
    {
      var later;
      ghost var first;
      later, first := FillOrDefer(args);
      FillDeferred(args, later);
      order := first + later;
      assert CallReuse.NoRepeats(pars) ==> forall k | 0 <= k < |pars| :: Holds(args, k);
    }

    // ----- prepareNewSystemCall() of the classes

    method ResetTo(start: nat, result: bool)
      modifies `pars, `present, `ret
      ensures View() == Drop(old(View()), start).(present := if result then {Success} else {},
                                                  ret := if result then Success else old(ret))
    {
      DropParameters(start);
      present := {};
      if result {
        present := {Success};
        ret := Success;
      }
    }

    method PrepareAdvise(abi: Abi) returns (ok: bool)
      modifies `pars, `present, `native64
      ensures var p := CallLayout.PrepareAdvise(old(View()), nr, abi);
        ok == p.Some? && View() == if ok then p.value else old(View())
    {
      match abi {
        case Aarch64 =>
        case X86_64 =>
          if !native64 {
            native64 := true;
            SetParameters(ADVISE_PARS, {OffsetPlain, SizePlain});
          }
        case I386 =>
          native64 := false;
          if nr == Fadvise64_64 {
            SetParameters([AdviseFd, OffsetLow, OffsetCombined, SizeLow, SizeCombined, Advice],
                          {OffsetCombined, SizeCombined});
          } else {
            SetParameters([AdviseFd, OffsetLow, OffsetCombined, SizePlain, Advice], {OffsetCombined, SizePlain});
          }
        case X32 => return false;
        case UnknownAbi => return false;
      }
      return true;
    }

    method PrepareStatfs(first: Item, sized: bool)
      modifies `pars, `present
      ensures View() == CallLayout.PrepareStatfs(old(View()), first, sized)
    {
      if sized {
        if FsSize !in present { SetParameters([first, FsSize, FsBuf], {FsSize}); }
      } else if FsSize in present {
        SetParameters([first, FsBuf], {});
      }
    }

    method PrepareOld(legacy: bool, args: Item, modern: seq<Item>)
      modifies `pars, `present
      ensures View() == CallLayout.PrepareOld(old(View()), legacy, args, modern)
    {
      if legacy {
        if args !in present { SetParameters([args], {args}); }
      } else if args in present {
        SetParameters(modern, {});
      }
    }

    method PrepareNewSystemCall(abi: Abi) returns (ok: bool)
      modifies `pars, `present, `ret, `native64
      ensures var p := Prepare(old(View()), nr, abi);
        ok == p.Some? && View() == if ok then p.value else old(View())
    {
      hide CallLayout.PrepareAdvise, CallLayout.PrepareStatfs, CallLayout.PrepareOld;
      ok := true;
      match nr {
        case Fcntl => ResetTo(2, true);
        case Futex => ResetTo(2, true);
        case Open => ResetTo(2, false);
        case OpenAt => ResetTo(3, false);
        case Clone => ResetTo(2, false);
        case WaitId => ResetTo(1, false);
        case Fadvise64 => ok := PrepareAdvise(abi);
        case Fadvise64_64 => ok := PrepareAdvise(abi);
        case Statfs => PrepareStatfs(FsPath, false);
        case Statfs64 => PrepareStatfs(FsPath, true);
        case Fstatfs => PrepareStatfs(FsFd, false);
        case Fstatfs64 => PrepareStatfs(FsFd, true);
        case Mmap => PrepareOld(abi == I386, OldMmapArgs, MMAP_PARS);
        case Mmap2 => PrepareOld(false, OldMmapArgs, MMAP_PARS);
        case Select => PrepareOld(abi == I386, OldSelectArgs, SELECT_PARS);
        case NewSelect => PrepareOld(false, OldSelectArgs, SELECT_PARS);
        case Other(_, _) =>
      }
    }

    // ----- check2ndPass() of the classes

    method AddOptional(items: set<Item>, more: seq<Item>)
      modifies `pars, `present
      ensures View() == Add(Emplace(old(View()), items), more)
    {
      present := present + items;
      pars := pars + more;
    }

    method SetNewReturnItem(r: Item)
      modifies `present, `ret
      ensures View() == Ret(old(View()), r)
    {
      present := present - {Success} + {r};
      ret := r;
    }

    method SecondFcntl(op: FcntlOper)
      modifies `pars, `present, `ret
      ensures View() == CallLayout.SecondFcntl(old(View()), op)
    {
      hide Ret, Emplace;
      match op {
        case DupFd => SetNewReturnItem(RetDupfd); AddOptional({DupLowest}, [DupLowest]);
        case DupFdCloexec => SetNewReturnItem(RetDupfd); AddOptional({DupLowest}, [DupLowest]);
        case GetFd => SetNewReturnItem(RetFdFlags);
        case SetFd => AddOptional({FdFlagsArg}, [FdFlagsArg]);
        case GetFl => SetNewReturnItem(RetStatusFlags);
        case SetFl => AddOptional({StatusFlagsArg}, [StatusFlagsArg]);
        case AnyLock => AddOptional({FlockArg}, [FlockArg]);
        case GetOwn => SetNewReturnItem(RetOwner);
        case SetOwn => AddOptional({OwnerArg}, [OwnerArg]);
        case GetOwnEx => AddOptional({ExtOwnerArg}, [ExtOwnerArg]);
        case SetOwnEx => AddOptional({ExtOwnerArg}, [ExtOwnerArg]);
        case GetSig => SetNewReturnItem(RetIoSignal);
        case SetSig => AddOptional({IoSignalArg}, [IoSignalArg]);
        case GetLease => SetNewReturnItem(RetLease);
        case SetLease => AddOptional({LeaseArg}, [LeaseArg]);
        case Notify => AddOptional({DnotifyArg}, [DnotifyArg]);
        case SetPipeSz => AddOptional({PipeSizeArg}, [PipeSizeArg]); SetNewReturnItem(RetPipeSize);
        case GetPipeSz => SetNewReturnItem(RetPipeSize);
        case AddSeals => AddOptional({FileSealsArg}, [FileSealsArg]);
        case GetSeals => SetNewReturnItem(RetSeals);
        case GetRwHint => AddOptional({RwHintArg}, [RwHintArg]);
        case SetRwHint => AddOptional({RwHintArg}, [RwHintArg]);
        case UnknownOper =>
      }
    }

    method SecondFutex(c: FutexCommand)
      modifies `pars, `present, `ret
      ensures View() == CallLayout.SecondFutex(old(View()), c)
    {
      hide Ret, Emplace, Add;
      match c {
        case Wait => AddOptional({FutexValue, Timeout}, [FutexValue, Timeout]);
        case WaitBitset => AddOptional({FutexValue, Timeout, Bitset}, [FutexValue, Timeout, Unused, Bitset]);
        case Wake => AddOptional({WakeCount}, [WakeCount]); SetNewReturnItem(NumWokenUp);
        case WakeBitset =>
          AddOptional({WakeCount, Bitset}, [WakeCount, Unused, Unused, Bitset]);
          SetNewReturnItem(NumWokenUp);
        case CreateFd => AddOptional({FdSig}, [FdSig]); SetNewReturnItem(NewFd);
        case Requeue =>
          AddOptional({WakeCount, RequeueLimit, Addr2}, [WakeCount, RequeueLimit, Addr2]);
          SetNewReturnItem(NumWokenUp);
        case CmpRequeue => CmpRequeuePass();
        case CmpRequeuePi => CmpRequeuePass();
        case WakeOpCommand =>
          AddOptional({WakeCount, WakeCount2, Addr2, WakeOp}, [WakeCount, WakeCount2, Addr2, WakeOp]);
          SetNewReturnItem(NumWokenUp);
        case LockPi => AddOptional({Timeout}, [Unused, Timeout]);
        case LockPi2 => AddOptional({Timeout}, [Unused, Timeout]);
        case TrylockPi =>
        case UnlockPi =>
        case WaitRequeuePi => AddOptional({FutexValue, Timeout, Addr2}, [FutexValue, Timeout, Addr2]);
        case UnknownCommand =>
      }
    }

    method CmpRequeuePass()
      modifies `pars, `present, `ret
      ensures View() == SecondCmpRequeue(old(View()))
    {
      AddOptional({WakeCount, RequeueLimit, Addr2, RequeueValue}, [WakeCount, RequeueLimit, Addr2, RequeueValue]);
      SetNewReturnItem(NumWokenUp);
    }

    /** An optional parameter of clone(), moved up to its register. */
    method MaybeAddAt(given: bool, index: nat, item: Item)
      modifies `pars, `present
      ensures View() == MaybeAt(old(View()), given, index, item)
    {
      if given {
        present := present + {item};
        ghost var o := View();
        while index > |pars|
          invariant View() == o.(pars := pars) && Pad(View(), index) == Pad(o, index)
        {
          pars := pars + [Unused];
        }
        pars := pars + [item];
      }
    }

    method SecondClone(abi: Abi, m: Meaning)
      modifies `pars, `present
      ensures View() == CallLayout.SecondClone(old(View()), abi, m)
    {
      hide MaybeAt;
      if m.parentSettid {
        AddOptional({ParentTid}, [ParentTid]);
      } else if m.pidfd {
        AddOptional({Pidfd}, [Pidfd]);
      }
      if abi == X86_64 || abi == X32 {
        MaybeAddAt(m.childSettid, 3, ChildTid);
        MaybeAddAt(m.settls, 4, Tls);
      } else if abi == Aarch64 || abi == I386 {
        MaybeAddAt(m.settls, 3, Tls);
        MaybeAddAt(m.childSettid, 4, ChildTid);
      }
    }

    method SecondWait(t: WaitType) returns (ok: bool)
      modifies `pars, `present
      ensures var s := CallLayout.SecondWait(old(View()), t);
        ok == s.Some? && View() == if ok then s.value else old(View())
    {
      match t {
        case ByPid => AddOptional({IdPid}, [IdPid, SigInfo, WaitOptions, Rusage]);
        case ByPgid => AddOptional({IdPgid}, [IdPgid, SigInfo, WaitOptions, Rusage]);
        case ByPidfd => AddOptional({IdPidfd}, [IdPidfd, SigInfo, WaitOptions, Rusage]);
        case All => AddOptional({}, [Unused, SigInfo, WaitOptions, Rusage]);
        case UnknownWaitType => return false;
      }
      return true;
    }

    method Check2ndPass(i: Info) returns (ok: bool, again: bool)
      modifies `pars, `present, `ret
      ensures var s := Second(old(View()), nr, i);
        && ok == s.Some?
        && (if ok then (View(), again) == s.value else View() == old(View()))
    {
      hide CallLayout.SecondFcntl, CallLayout.SecondFutex, CallLayout.SecondClone, CallLayout.SecondWait;
      ok, again := true, false;
      match nr {
        case Fcntl => SecondFcntl(i.means.fcntl); again := true;
        case Futex => SecondFutex(i.means.futex); again := true;
        case Clone => SecondClone(i.abi, i.means); again := |pars| > 2;
        case WaitId => ok := SecondWait(i.means.wait); again := true;
        case Open => if i.means.creates { AddOptional({Mode}, [Mode]); again := true; }
        case OpenAt => if i.means.creates { AddOptional({Mode}, [Mode]); again := true; }
        case _ =>
      }
    }

    /** setEntryInfo(): whatever the object went through before, it throws iff a
        new one would, and else it looks like the new one, holds the words and is
        what the call needs. */
    method SetEntryInfo(i: Info) returns (threw: bool)
      requires Valid() && Occurs(host, i.abi)
      modifies this
      ensures Valid()
      ensures threw == CallReuse.Throws(nr, i)
      ensures !threw ==>
        && CallReuse.Layout(View()) == CallReuse.Layout(CallLayout.SetEntryInfo(Fresh(host, nr), nr, i).obj)
        && CallReuse.HoldsArgs(View(), i.args)
        && CallSignatures.Fits(View(), nr, i)
    {
      hide Prepare, Second, Fresh, CallReuse.Reachable, CallReuse.GoodSecond, CallReuse.NoRepeats,
        CallReuse.HoldsArgs, CallLayout.SetEntryInfo, CallSignatures.Fits;
      CallReuse.PreparedInSteps(host, nr, View(), i);
      ghost var q := Prepare(Fresh(host, nr), nr, i.abi);
      var ok := PrepareNewSystemCall(i.abi);
      if !ok {
        return true;
      }
      ghost var prepared := View();
      ghost var order := FillParameters(i.args);
      CallReuse.SameLayoutSame(host, nr, View(), prepared);
      CallReuse.SecondInSteps(host, nr, q.value, View(), i);
      var again;
      ok, again := Check2ndPass(i);
      if !ok {
        return true;
      }
      CallReuse.FreshInSteps(host, nr, i);
      ghost var second := View();
      if again {
        order := FillParameters(i.args);
        CallReuse.SameLayoutSame(host, nr, View(), second);
      }
      CallSignatures.FreshFits(host, nr, i);
      CallSignatures.LayoutFits(View(), CallLayout.SetEntryInfo(Fresh(host, nr), nr, i).obj, nr, i);
      return false;
    }
  }

  /** prctl(), socketcall(), getsockopt() and setsockopt() have many classes per
      number and are not cached. */
  predicate IsMultiTyped(nr: Nr) { nr.Other? && nr.id < 4 }

  class SystemCallDB {
    const host: Host
    var calls: map<Nr, SystemCall>

    ghost predicate Valid()
      reads this, calls.Values
    {
      && (forall nr | nr in calls :: calls[nr].nr == nr && calls[nr].host == host && calls[nr].Valid())
      && (forall nr | nr in calls :: !IsMultiTyped(nr))
    }

    constructor (host: Host)
      ensures Valid() && this.host == host && calls == map[]
    {
      this.host, calls := host, map[];
    }

    /** The object for a number: the one from before, if there is one. */
    method Get(nr: Nr) returns (call: SystemCall)
      requires Valid()
      modifies this
      ensures Valid() && call.nr == nr && call.host == host && call.Valid()
      ensures if nr in old(calls) then call == old(calls)[nr] && calls == old(calls)
              else fresh(call) && calls == if IsMultiTyped(nr) then old(calls) else old(calls)[nr := call]
    {
      hide CallReuse.Reachable, Fresh;
      if nr in calls {
        return calls[nr];
      }
      call := new SystemCall(host, nr, {});
      if !IsMultiTyped(nr) {
        calls := calls[nr := call];
      }
    }

    /** A call's entry: look the object up and set it. The objects of other
        numbers are not touched, and nothing of the history shows. */
    method Enter(nr: Nr, i: Info) returns (call: SystemCall, threw: bool)
      requires Valid() && Occurs(host, i.abi)
      modifies this, calls.Values
      ensures Valid() && call.nr == nr && (nr in calls ==> call == calls[nr])
      ensures forall other | other in old(calls) && other != nr ::
        other in calls && calls[other] == old(calls)[other] && unchanged(calls[other])
      ensures threw == CallReuse.Throws(nr, i)
      ensures !threw ==>
        && CallReuse.Layout(call.View()) == CallReuse.Layout(CallLayout.SetEntryInfo(Fresh(host, nr), nr, i).obj)
        && CallReuse.HoldsArgs(call.View(), i.args)
        && CallSignatures.Fits(call.View(), nr, i)
    {
      hide CallReuse.Reachable, CallReuse.HoldsArgs, CallLayout.SetEntryInfo, Fresh, CallReuse.Throws,
        CallSignatures.Fits;
      call := Get(nr);
      threw := call.SetEntryInfo(i);
    }
  }
}
