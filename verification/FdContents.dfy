// What the entries of a mirrored descriptor table say, compared to what the kernel
// has under the same numbers: over single calls, and over runs of many tracees.
module FdContents {
  import opened Common
  import opened FdTracking
  import opened FdSharing

  // ----- one entry

  /** The types in the tracer's own vocabulary. */
  function KindOf(file: File): Kind {
    match file
    case PathFile(_, _) => FsPath
    case SocketFile(_, _) => Socket
    case PipeEnd(_) => Pipe
    case EventFile => EventFd
    case EpollFile => Epoll
    case SignalFile => SignalFd
    case PidFile => PidFd
  }

  function ModeOf(file: File): Option<Mode> {
    match file
    case PathFile(_, mode) => Some(mode)
    case PipeEnd(mode) => Some(mode)
    case _ => None
  }

  /** The entry says what the descriptor refers to; an epoll descriptor is entered
      as an event descriptor. */
  predicate NamesFile(info: FdInfo, file: File) {
    && info.kind == (if file.EpollFile? then EventFd else KindOf(file))
    && info.mode == ModeOf(file)
    && info.path == (if file.PathFile? then file.path else "")
    && (if file.SocketFile? then Fits(info.family, file) else info.family == Family(None, None))
  }

  /** It has flags exactly if a call told some, and they say whether the file was
      opened non-blocking. */
  predicate NamesFlagsOf(info: FdInfo, d: Descriptor) {
    (info.flags.Some? <==> d.told) && (info.flags.Some? ==> info.flags.value.nonblock == d.nonblock)
  }

  predicate Describes(info: FdInfo, d: Descriptor) { NamesFile(info, d.file) && NamesFlagsOf(info, d) }

  ghost predicate Described(m: FdMap, k: KernelTable) {
    forall fd | fd in m && fd in k :: Describes(m[fd], k[fd])
  }

  // ----- one call

  /** The entry of a descriptor that dup2() replaced stays, and does not fit. */
  predicate KeepsReplaced(m: FdMap, k: KernelTable, c: FdCall) {
    c.Dup? && c.source != c.fd && c.fd in m && c.source in k && !Describes(m[c.fd], k[c.source])
  }

  /** Flags are made up for close-on-exec, and say nothing of O_NONBLOCK, which the
      call that opened the file had been given. */
  predicate MakesUpFlags(k: KernelTable, c: FdCall) {
    var fd := if c.FcntlSetFd? then c.fd else if c.FcntlDup? && c.cloexec then c.source else INVALID;
    fd in k && fd != INVALID && !k[fd].told && k[fd].nonblock
  }

  predicate Misdescribes(m: FdMap, k: KernelTable, c: FdCall) { KeepsReplaced(m, k, c) || MakesUpFlags(k, c) }

  lemma AcceptDescribes(m: FdMap, k: KernelTable, c: FdCall)
    requires Mirrors(m, k) && Described(m, k) && Possible(k, c) && c.Accept?
    ensures Described(Tracked(m, c), Done(k, c))
  {
    var listener := m[c.listener];
    assert Describes(listener, k[c.listener]);
  }

  /** What is known of a socket spreads by accept(): afterwards the accepted one and
      the listening one are entered with the same domain and type. Both are known
      iff they were of the listening one, or the socket could be asked for them; an
      entry that had both is not touched. */
  lemma AcceptedKnows(m: FdMap, k: KernelTable, c: FdCall)
    requires Mirrors(m, k) && Possible(k, c) && c.Accept?
    ensures var (m1, was) := (Tracked(m, c), m[c.listener]);
      && m1.Keys == m.Keys + {c.fd}
      && m1[c.fd].family == m1[c.listener].family
      && (m1[c.fd].family.Full?() <==> was.family.Full?() || c.lookup.Full?())
      && (was.family.Full?() ==> m1 == m[c.fd := m1[c.fd]])
      && m1[c.listener].(family := was.family) == was
      && forall fd | fd in m && fd != c.listener :: m1[fd] == m[fd]
  {}

  /** A new entry never replaces one, and a changed one is never new. */
  lemma EntriesByKey(m: FdMap, info: FdInfo)
    ensures var (t, u) := (TrackFd(m, info), UpdateFd(m, info));
      && (forall fd | fd in m :: fd in t && t[fd] == m[fd])
      && (forall fd :: fd in t <==> fd in m || (fd == info.fd && fd != -1))
      && (forall fd :: fd in u <==> fd in m)
      && (forall fd | fd in m :: u[fd] == if fd == info.fd then info else m[fd])
      && (info.fd !in m && info.fd != -1 ==> t[info.fd] == info)
  {}

  lemma CopyDescribes(m: FdMap, k: KernelTable, c: FdCall)
    requires Mirrors(m, k) && Described(m, k) && Possible(k, c) && (c.Dup? || c.FcntlDup? || c.FcntlSetFd?)
    ensures Described(Tracked(m, c), Done(k, c)) <==> !Misdescribes(m, k, c)
  {
    var (m1, k1) := (Tracked(m, c), Done(k, c));
    assert c.FcntlSetFd? || Describes(m[c.source], k[c.source]);
    assert c.fd in m1 && c.fd in k1;
    assert c.fd in m ==> Describes(m[c.fd], k[c.fd]);
    assert Described(m1, k1) <==> Describes(m1[c.fd], k1[c.fd]);
  }

  /** After any call that may succeed, each entry says what the kernel has: a new
      one of the call's own file and flags, a copied one of its source's; exactly
      unless dup2() replaced something unlike, or flags had to be made up. */
  lemma DescribedExactly(m: FdMap, k: KernelTable, c: FdCall)
    requires Mirrors(m, k) && Described(m, k) && Possible(k, c)
    ensures Described(Tracked(m, c), Done(k, c)) <==> !Misdescribes(m, k, c)
  {
    if c.Accept? {
      AcceptDescribes(m, k, c);
    } else if c.Dup? || c.FcntlDup? || c.FcntlSetFd? {
      CopyDescribes(m, k, c);
    }
  }

  // ----- runs of many tracees

  /** Also close-on-exec is right where it is told. */
  ghost predicate Truthful(m: FdMap, k: KernelTable) { Described(m, k) && FlagsRight(m, k) }

  ghost predicate AllTruthful(m: World<FdMap>, k: World<KernelTable>)
    requires Agrees(m, k)
  {
    forall p | p in m.owner :: Truthful(TableOf(m, p), TableOf(k, p))
  }

  /** A call after which the tables say something wrong. */
  predicate Spoils(m: FdMap, k: KernelTable, c: FdCall) { Misdescribes(m, k, c) || Miscopies(m, c) }

  lemma CallTruthful(m: FdMap, k: KernelTable, c: FdCall)
    requires Mirrors(m, k) && Truthful(m, k) && Possible(k, c) && Readable(c)
    ensures Truthful(Tracked(m, c), Done(k, c)) <==> !Spoils(m, k, c)
  {
    hide Tracked, Done, Described, FlagsRight, Misdescribes, Miscopies;
    DescribedExactly(m, k, c);
    FlagsKeptExactly(m, k, c);
  }

  lemma ExecTruthful(m: FdMap, k: KernelTable, keys: seq<int>)
    requires Mirrors(m, k) && Truthful(m, k) && IsOrderOf(keys, m)
    ensures Truthful(Synced(m, keys, Survivors(k).Keys), Survivors(k))
  {}

  ghost predicate SpoilsAt(m: World<FdMap>, k: World<KernelTable>, s: Step)
    requires Agrees(m, k) && PossibleStep(k, s)
  {
    s.Call? && Spoils(TableOf(m, s.pid), TableOf(k, s.pid), s.call)
  }

  lemma StepTruthful(m: World<FdMap>, k: World<KernelTable>, s: Step)
    requires Agrees(m, k) && AllTruthful(m, k) && PossibleStep(k, s) && Followable(m, k, s) && !SpoilsAt(m, k, s)
    ensures Agrees(MirrorStep(m, k, s), KernelStep(k, s)) && AllTruthful(MirrorStep(m, k, s), KernelStep(k, s))
  {
    hide Tracked, Done, Mirrors, Survivors, Synced, Possible, Readable, Truthful, Spoils;
    StepAgrees(m, k, s);
    match s
    case Call(p, c) => CallTruthful(TableOf(m, p), TableOf(k, p), c);
    case Exec(p, order) => ExecTruthful(TableOf(m, p), TableOf(k, p), order);
    case _ =>
  }

  ghost predicate EverSpoils(m: World<FdMap>, k: World<KernelTable>, steps: seq<Step>)
    requires Agrees(m, k) && PossibleRun(m, k, steps)
    decreases |steps|
  {
    steps != [] &&
    (SpoilsAt(m, k, steps[0])
     || (StepAgrees(m, k, steps[0]);
         EverSpoils(MirrorStep(m, k, steps[0]), KernelStep(k, steps[0]), steps[1..])))
  }

  /** Main result on contents, for every run of calls, new tasks, execve() and ends
      of any number of tracees: as long as no call spoils an entry, each entry of
      each tracee's table says what the kernel has under its number. */
  lemma {:induction false} ContentsInEveryRun(m: World<FdMap>, k: World<KernelTable>, steps: seq<Step>)
    requires Agrees(m, k) && AllTruthful(m, k) && PossibleRun(m, k, steps) && !EverSpoils(m, k, steps)
    ensures var (m1, k1) := RunBoth(m, k, steps);
      && m1.owner == k1.owner
      && forall p, fd | p in m1.owner && m1.owner[p] in m1.tables && k1.owner[p] in k1.tables
                        && fd in TableOf(m1, p) ::
           && fd in TableOf(k1, p) && Describes(TableOf(m1, p)[fd], TableOf(k1, p)[fd])
           && (TableOf(m1, p)[fd].flags.Some? ==>
                 TableOf(m1, p)[fd].flags.value.cloexec == TableOf(k1, p)[fd].cloexec)
    decreases |steps|
  {
    if steps != [] {
      hide Agrees, PossibleStep, Followable, SpoilsAt, AllTruthful;
      StepTruthful(m, k, steps[0]);
      ContentsInEveryRun(MirrorStep(m, k, steps[0]), KernelStep(k, steps[0]), steps[1..]);
    } else {
      AllSaid(m, k);
    }
  }

  lemma AllSaid(m: World<FdMap>, k: World<KernelTable>)
    requires Agrees(m, k) && AllTruthful(m, k)
    ensures m.owner == k.owner
    ensures forall p, fd | p in m.owner && m.owner[p] in m.tables && k.owner[p] in k.tables && fd in TableOf(m, p) ::
      && fd in TableOf(k, p) && Describes(TableOf(m, p)[fd], TableOf(k, p)[fd])
      && (TableOf(m, p)[fd].flags.Some? ==> TableOf(m, p)[fd].flags.value.cloexec == TableOf(k, p)[fd].cloexec)
  {
    hide Describes;
    forall p, fd | p in m.owner && m.owner[p] in m.tables && k.owner[p] in k.tables && fd in TableOf(m, p)
      ensures fd in TableOf(k, p) && Describes(TableOf(m, p)[fd], TableOf(k, p)[fd])
      ensures TableOf(m, p)[fd].flags.Some? ==> TableOf(m, p)[fd].flags.value.cloexec == TableOf(k, p)[fd].cloexec
    {
      assert Truthful(TableOf(m, p), TableOf(k, p));
      assert Mirrors(TableOf(m, p), TableOf(k, p));
    }
  }
}
