// Buffers a system call refers to: fetched up to a limit first, completed later
// (src/items/items.cxx), and lists of them (src/items/io.cxx).
module Buffers {
  import opened Common
  import opened Bytes
  import opened TraceeMemory

  method ReadBytes(mem: Memory, addr: nat, n: nat) returns (ok: bool, b: bytes)
    ensures ok <==> Mapped(mem, addr, WORD * Peeks(n))
    ensures ok ==> Mapped(mem, addr, n) && b == At(mem, addr, n)
  {
    var buffer := new byte[n];
    var peeks;
    ok, peeks := ReadBlob(mem, addr, buffer, 0, n);
    b := buffer[..];
    assert buffer[0..0 + n] == b;
  }

  class BufferPointer {
    const ptr: nat
    var data: bytes

    constructor (ptr: nat)
      ensures this.ptr == ptr && data == []
    {
      this.ptr, data := ptr, [];
    }

    /** The data is what is in memory, as far as it goes. */
    ghost predicate Faithful(mem: Memory)
      reads this
    {
      Mapped(mem, ptr, |data|) && data == At(mem, ptr, |data|)
    }

    method FillBuffer(mem: Memory, prefetch: nat, available: nat)
      modifies this
      ensures Faithful(mem)
      ensures var n := Min(prefetch, available);
        |data| == if Mapped(mem, ptr, WORD * Peeks(n)) then n else 0
    {
      var toFetch := Min(prefetch, available);
      data := [];
      if toFetch == 0 {
        return;
      }
      var ok, b := ReadBytes(mem, ptr, toFetch);
      if ok {
        data := b;
      }
    }

    /** After it the data is the same as one read of everything delivers; when it
        fails nothing of what was there is lost. */
    method FetchRemainingData(mem: Memory, available: nat) returns (ok: bool)
      requires Faithful(mem) && |data| <= available
      modifies this
      ensures Faithful(mem)
      ensures ok ==> Mapped(mem, ptr, available) && data == At(mem, ptr, available)
      ensures !ok ==> data == old(data)
      ensures ok <==> |old(data)| == available
                      || Mapped(mem, ptr + |old(data)|, WORD * Peeks(available - |old(data)|))
    {
      var toFetch := available - |data|;
      if toFetch == 0 {
        return true;
      }
      var b;
      ok, b := ReadBytes(mem, ptr + |data|, toFetch);
      if ok {
        AtSplit(mem, ptr, |data|, toFetch);
        data := data + b;
      }
    }
  }

  datatype Direction = In | Out | InOut

  /** The first bytes of a buffer, up to the limit, if their words can be read. */
  function Prefix(mem: Memory, ptr: nat, prefetch: nat, available: nat): bytes {
    var n := Min(prefetch, available);
    if n > 0 && Mapped(mem, ptr, WORD * Peeks(n)) then PrefixMapped(mem, ptr, n); At(mem, ptr, n) else []
  }

  lemma PrefixMapped(mem: Memory, ptr: nat, n: nat)
    requires n > 0 && Mapped(mem, ptr, WORD * Peeks(n))
    ensures Mapped(mem, ptr, n)
  {
    assert n <= WORD * Peeks(n);
  }

  lemma PrefixExactly(mem: Memory, ptr: nat, prefetch: nat, available: nat, data: bytes)
    requires Mapped(mem, ptr, |data|) && data == At(mem, ptr, |data|)
    requires var n := Min(prefetch, available); |data| == if Mapped(mem, ptr, WORD * Peeks(n)) then n else 0
    ensures data == Prefix(mem, ptr, prefetch, available)
  {}

  /** At the entry of a call: an out buffer has nothing yet, nor has a null one. */
  method ProcessData(mem: Memory, buffer: BufferPointer, dir: Direction, prefetch: nat, available: nat)
    modifies buffer
    ensures buffer.data == if dir == Out || buffer.ptr == 0 then [] else Prefix(mem, buffer.ptr, prefetch, available)
  {
    if dir == Out || buffer.ptr == 0 {
      buffer.data := [];
      return;
    }
    buffer.FillBuffer(mem, prefetch, available);
    PrefixExactly(mem, buffer.ptr, prefetch, available, buffer.data);
  }

  /** At its exit: only what the call may have written, and if it succeeded. */
  method UpdateData(mem: Memory, buffer: BufferPointer, dir: Direction, failed: bool, prefetch: nat, available: nat)
    modifies buffer
    ensures buffer.data == if dir == In || failed then old(buffer.data) else Prefix(mem, buffer.ptr, prefetch, available)
  {
    if dir == In || failed {
      return;
    }
    buffer.FillBuffer(mem, prefetch, available);
    PrefixExactly(mem, buffer.ptr, prefetch, available, buffer.data);
  }

  /** What is shown of a buffer after a call: of an in buffer what it had when the
      call was made; of another one what it has now, unless the call failed. What
      an earlier call left in the item never shows. */
  method ShownOfCall(before: Memory, after: Memory, buffer: BufferPointer, dir: Direction, failed: bool,
                     prefetch: nat, sizeThen: nat, sizeNow: nat)
    modifies buffer
    ensures buffer.data ==
      if dir == Out then if failed then [] else Prefix(after, buffer.ptr, prefetch, sizeNow)
      else if dir == In || failed then if buffer.ptr == 0 then [] else Prefix(before, buffer.ptr, prefetch, sizeThen)
      else Prefix(after, buffer.ptr, prefetch, sizeNow)
  {
    ProcessData(before, buffer, dir, prefetch, sizeThen);
    UpdateData(after, buffer, dir, failed, prefetch, sizeNow);
  }

  /** processData() or updateData(), and later the rest: it succeeds exactly if
      both reads do; a prefetch that failed is made up for by one full read. */
  method ReadInTwoSteps(mem: Memory, buffer: BufferPointer, prefetch: nat, available: nat) returns (ok: bool)
    modifies buffer
    ensures ok <==> Completes(mem, buffer.ptr, prefetch, available)
    ensures ok ==> Mapped(mem, buffer.ptr, available) && buffer.data == At(mem, buffer.ptr, available)
  {
    buffer.FillBuffer(mem, prefetch, available);
    ok := buffer.FetchRemainingData(mem, available);
  }

  /** One read of everything; nothing is read for an empty buffer. */
  predicate Reads(mem: Memory, addr: nat, n: nat) { n == 0 || Mapped(mem, addr, WORD * Peeks(n)) }

  predicate Completes(mem: Memory, ptr: nat, prefetch: nat, available: nat) {
    var n := Min(prefetch, available);
    var got := if Reads(mem, ptr, n) then n else 0;
    Reads(mem, ptr + got, available - got)
  }

  /** There are two reads, and the second does not begin at a word of the first. */
  predicate Straddles(prefetch: nat, available: nat) { 0 < prefetch < available && prefetch % WORD != 0 }

  /** The last word of the second read ends behind the last one of a full read. */
  predicate ReachesFurther(prefetch: nat, available: nat) {
    && Straddles(prefetch, available)
    && (available - prefetch) % WORD != 0
    && prefetch % WORD + (available - prefetch) % WORD <= WORD
  }

  /** Whole words and the bytes over. */
  lemma WordsOf(words: nat, over: nat)
    requires over < WORD && words + over > 0
    ensures WORD * Peeks(WORD * words + over) == WORD * words + (if over == 0 then 0 else WORD)
    ensures (WORD * words + over) % WORD == over
  {}

  lemma WordsOfBoth(prefetch: nat, available: nat)
    requires 0 < prefetch < available
    ensures var (both, one) := (prefetch + WORD * Peeks(available - prefetch), WORD * Peeks(available));
      && (both > one <==> ReachesFurther(prefetch, available))
      && (both == one <==> prefetch % WORD == 0)
      && WORD * Peeks(prefetch) <= one && WORD * Peeks(prefetch) <= both
      && prefetch <= WORD * Peeks(prefetch)
  {
    hide Peeks;
    var rest := available - prefetch;
    var (a, x, c, y) := (prefetch / WORD, prefetch % WORD, rest / WORD, rest % WORD);
    assert prefetch == WORD * a + x && rest == WORD * c + y;
    WordsOf(a, x);
    WordsOf(c, y);
    if x + y < WORD {
      assert available == WORD * (a + c) + (x + y);
      WordsOf(a + c, x + y);
    } else {
      assert available == WORD * (a + c + 1) + (x + y - WORD);
      WordsOf(a + c + 1, x + y - WORD);
    }
  }

  /** Without a straddle both ways of reading succeed on the same memory. */
  lemma SameWords(mem: Memory, ptr: nat, prefetch: nat, available: nat)
    requires !Straddles(prefetch, available)
    ensures Reads(mem, ptr, available) <==> Completes(mem, ptr, prefetch, available)
  {
    if 0 < prefetch < available {
      hide Peeks;
      WordsOfBoth(prefetch, available);
    }
  }

  function Zeroed(ptr: nat, n: nat): (mem: Memory)
    ensures forall i :: i in mem <==> ptr <= i < ptr + n
  {
    if n == 0 then map[] else Zeroed(ptr, n - 1)[ptr + n - 1 := 0]
  }

  lemma ZeroedReads(ptr: nat, n: nat, from: nat, count: nat)
    ensures Reads(Zeroed(ptr, n), ptr + from, count) <==> count == 0 || from + WORD * Peeks(count) <= n
  {
    if count > 0 && from + WORD * Peeks(count) > n {
      var last := ptr + from + WORD * Peeks(count) - 1;
      assert last !in Zeroed(ptr, n) && ptr + from <= last;
    }
  }

  /** Whenever everything can be read at once it can be read in two steps: this
      holds on all memories exactly if the second read does not reach further. */
  lemma TwoStepsSufficeExactly(ptr: nat, prefetch: nat, available: nat)
    ensures (forall mem: Memory :: Reads(mem, ptr, available) ==> Completes(mem, ptr, prefetch, available))
       <==> !ReachesFurther(prefetch, available)
  {
    hide Peeks;
    if ReachesFurther(prefetch, available) {
      FailsInTwoSteps(ptr, prefetch, available);
    } else {
      forall mem: Memory | Reads(mem, ptr, available) ensures Completes(mem, ptr, prefetch, available) {
        if Straddles(prefetch, available) { WordsOfBoth(prefetch, available); } else { SameWords(mem, ptr, prefetch, available); }
      }
    }
  }

  /** The memory that has just the words of one read shows it. */
  lemma FailsInTwoSteps(ptr: nat, prefetch: nat, available: nat)
    requires ReachesFurther(prefetch, available)
    ensures var mem := Zeroed(ptr, WORD * Peeks(available));
      Reads(mem, ptr, available) && !Completes(mem, ptr, prefetch, available)
  {
    hide Peeks, Zeroed;
    var k := WORD * Peeks(available);
    WordsOfBoth(prefetch, available);
    ZeroedReads(ptr, k, 0, available);
    ZeroedReads(ptr, k, 0, prefetch);
    ZeroedReads(ptr, k, prefetch, available - prefetch);
  }

  /** Both ways of reading succeed on the same memories exactly if there is no
      second read, or the limit is a multiple of the word size. */
  lemma TwoStepsLikeOneExactly(ptr: nat, prefetch: nat, available: nat)
    ensures (forall mem: Memory :: Reads(mem, ptr, available) <==> Completes(mem, ptr, prefetch, available))
       <==> !Straddles(prefetch, available)
  {
    hide Peeks;
    if !Straddles(prefetch, available) {
      forall mem: Memory ensures Reads(mem, ptr, available) <==> Completes(mem, ptr, prefetch, available) {
        SameWords(mem, ptr, prefetch, available);
      }
    } else if ReachesFurther(prefetch, available) {
      FailsInTwoSteps(ptr, prefetch, available);
    } else {
      SucceedsInTwoSteps(ptr, prefetch, available);
    }
  }

  /** Two short reads can make do with less memory than one. */
  lemma SucceedsInTwoSteps(ptr: nat, prefetch: nat, available: nat)
    requires Straddles(prefetch, available) && !ReachesFurther(prefetch, available)
    ensures var mem := Zeroed(ptr, prefetch + WORD * Peeks(available - prefetch));
      !Reads(mem, ptr, available) && Completes(mem, ptr, prefetch, available)
  {
    hide Peeks, Zeroed;
    var k := prefetch + WORD * Peeks(available - prefetch);
    WordsOfBoth(prefetch, available);
    ZeroedReads(ptr, k, 0, available);
    ZeroedReads(ptr, k, 0, prefetch);
    ZeroedReads(ptr, k, prefetch, available - prefetch);
  }

  /** For instance: of a single mapped word, a limit of 4 bytes makes the other 4
      unreadable, which one read of 8 bytes gets. */
  lemma UnalignedLimitFails(ptr: nat)
    ensures Reads(Zeroed(ptr, 8), ptr, 8) && !Completes(Zeroed(ptr, 8), ptr, 4, 8)
  {
    FailsInTwoSteps(ptr, 4, 8);
  }

  // ----- vectors of buffers

  datatype Buffer = Buffer(base: nat, len: nat, filled: nat, data: bytes)

  function Before(buffers: seq<Buffer>, i: nat): nat
    requires i <= |buffers|
  {
    if i == 0 then 0 else Before(buffers, i - 1) + buffers[i - 1].len
  }

  function Filled(buffers: seq<Buffer>, i: nat): nat
    requires i <= |buffers|
  {
    if i == 0 then 0 else Filled(buffers, i - 1) + buffers[i - 1].filled
  }

  function Clamp(x: int, lo: int, hi: int): int { Max(lo, Min(x, hi)) }

  lemma ShareAdds(n: nat, before: nat, len: nat)
    ensures Min(n, before) + Share(n, before, len) == Min(n, before + len)
    ensures Max(0, n - before) - Share(n, before, len) == Max(0, n - (before + len))
    ensures len == 0 || n <= before ==> Share(n, before, len) == 0
    ensures Share(n, before, len) == Min(Max(0, n - before), len)
  {}

  /** What a buffer gets of n bytes if the ones before it have room for some. */
  function Share(n: nat, before: nat, len: nat): (r: nat) { Clamp(n - before, 0, len) }

  /** A buffer after the call, compared to the one before it. */
  ghost predicate Scattered(mem: Memory, prefetch: nat, n: nat, was: seq<Buffer>, i: nat, b: Buffer)
    requires i < |was|
  {
    && b.base == was[i].base && b.len == was[i].len
    && b.filled == Share(n, Before(was, i), was[i].len) && Fetched(mem, b, prefetch)
  }

  /** The data of one buffer is the start of what the call put there, up to the
      limit, if the words of that can be read; else there is none. */
  ghost predicate Fetched(mem: Memory, b: Buffer, prefetch: nat) {
    var n := Min(prefetch, b.filled);
    if Reads(mem, b.base, n) then Mapped(mem, b.base, n) && b.data == At(mem, b.base, n) else b.data == []
  }

  lemma {:induction false} BeforeGrows(a: seq<Buffer>, i: nat, j: nat)
    requires i <= j <= |a|
    ensures Before(a, i) <= Before(a, j)
    decreases j
  {
    if i < j { BeforeGrows(a, i, j - 1); }
  }

  class IoVector {
    var buffers: array<Buffer>

    /** processData(): the specifications, nothing filled yet; no buffers at all if
        the specifications could not be read. */
    method ProcessData(read: Option<seq<(nat, nat)>>)
      modifies this
      ensures fresh(buffers) && buffers.Length == if read.Some? then |read.value| else 0
      ensures forall i | 0 <= i < buffers.Length :: buffers[i] == Buffer(read.value[i].0, read.value[i].1, 0, [])
    {
      if read.None? {
        buffers := new Buffer[0];
        return;
      }
      var specs := read.value;
      buffers := new Buffer[|specs|](i requires 0 <= i < |specs| => Buffer(specs[i].0, specs[i].1, 0, []));
    }

    method FetchBuffer(mem: Memory, prefetch: nat, i: nat, left: nat)
      requires i < buffers.Length
      modifies buffers
      ensures buffers[..] == old(buffers[..])[i := buffers[i]]
      ensures var was := old(buffers[i]);
        if was.len == 0 then buffers[i] == was
        else buffers[i].(data := was.data) == was.(filled := Min(left, was.len)) && Fetched(mem, buffers[i], prefetch)
    {
      var buffer := buffers[i];
      if buffer.len == 0 {
        return;
      }
      var filled := Min(left, buffer.len);
      var ok, b := ReadBytes(mem, buffer.base, Min(prefetch, filled));
      buffers[i] := Buffer(buffer.base, buffer.len, filled, if ok then b else []);
    }

    /** WriteVector::processData(): what is to be written is there already, so each
        buffer is full. */
    method ProcessWritten(mem: Memory, prefetch: nat, read: Option<seq<(nat, nat)>>)
      modifies this
      ensures fresh(buffers) && buffers.Length == if read.Some? then |read.value| else 0
      ensures forall i | 0 <= i < buffers.Length ::
        && (buffers[i].base, buffers[i].len) == read.value[i] && buffers[i].filled == buffers[i].len
        && Fetched(mem, buffers[i], prefetch)
    {
      hide Fetched;
      ProcessData(read);
      for i := 0 to buffers.Length
        invariant fresh(buffers) && buffers.Length == if read.Some? then |read.value| else 0
        invariant forall j | i <= j < buffers.Length :: buffers[j] == Buffer(read.value[j].0, read.value[j].1, 0, [])
        invariant forall j | 0 <= j < i ::
          && (buffers[j].base, buffers[j].len) == read.value[j] && buffers[j].filled == buffers[j].len
          && Fetched(mem, buffers[j], prefetch)
      {
        ghost var was := buffers[..];
        FetchBuffer(mem, prefetch, i, buffers[i].len);
        NothingToFetch(mem, prefetch, buffers[i]);
        assert forall j | 0 <= j < buffers.Length && j != i :: buffers[j] == buffers[..][j] == was[j];
      }
    }

    /** ReadVector::updateData(): after a call that obtained n bytes, each buffer
        is filled with what the ones before it left over, as far as it goes. */
    method UpdateData(mem: Memory, prefetch: nat, failed: bool, n: nat)
      requires forall i | 0 <= i < buffers.Length :: buffers[i].filled == 0 && buffers[i].data == []
      modifies buffers
      ensures failed ==> buffers[..] == old(buffers[..])
      ensures !failed ==> forall i | 0 <= i < buffers.Length ::
        Scattered(mem, prefetch, n, old(buffers[..]), i, buffers[i])
      ensures !failed ==> Filled(buffers[..], buffers.Length) == Min(n, Before(old(buffers[..]), buffers.Length))
    {
      hide Share, Fetched, Scattered;
      if failed {
        return;
      }
      ghost var was := buffers[..];
      var left := n;
      for i := 0 to buffers.Length
        invariant buffers[i..] == was[i..]
        invariant left == Max(0, n - Before(was, i))
        invariant forall j | 0 <= j < i :: Scattered(mem, prefetch, n, was, j, buffers[j])
      {
        if left == 0 {
          forall j | i <= j < buffers.Length ensures Scattered(mem, prefetch, n, was, j, buffers[j]) {
            BeforeGrows(was, i, j);
            NothingLeft(mem, prefetch, n, was, j);
          }
          break;
        }
        FetchBuffer(mem, prefetch, i, left);
        OneScattered(mem, prefetch, n, was, i, left, buffers[i]);
        left := left - buffers[i].filled;
      }
      FilledInAll(mem, prefetch, n, was, buffers[..], buffers.Length);
    }
  }

  lemma NothingToFetch(mem: Memory, prefetch: nat, b: Buffer)
    ensures b.len == 0 && b.filled == 0 && b.data == [] ==> Fetched(mem, b, prefetch)
  {
    if b.filled == 0 { assert At(mem, b.base, 0) == []; }
  }

  lemma NothingLeft(mem: Memory, prefetch: nat, n: nat, was: seq<Buffer>, j: nat)
    requires j < |was| && n <= Before(was, j) && was[j].filled == 0 && was[j].data == []
    ensures Scattered(mem, prefetch, n, was, j, was[j])
  {
    assert At(mem, was[j].base, 0) == [];
  }

  lemma OneScattered(mem: Memory, prefetch: nat, n: nat, was: seq<Buffer>, i: nat, left: nat, b: Buffer)
    requires i < |was| && was[i].filled == 0 && was[i].data == []
    requires left == Max(0, n - Before(was, i))
    requires if was[i].len == 0 then b == was[i]
             else b.(data := []) == was[i].(filled := Min(left, was[i].len)) && Fetched(mem, b, prefetch)
    ensures Scattered(mem, prefetch, n, was, i, b)
    ensures left - b.filled == Max(0, n - Before(was, i + 1)) && b.filled <= left
  {
    ShareAdds(n, Before(was, i), was[i].len);
  }

  /** Together the buffers hold what was obtained, or all they can. */
  lemma {:induction false} FilledInAll(mem: Memory, prefetch: nat, n: nat, was: seq<Buffer>, b: seq<Buffer>, k: nat)
    requires |b| == |was| && k <= |b| && forall i | 0 <= i < |b| :: Scattered(mem, prefetch, n, was, i, b[i])
    ensures Filled(b, k) == Min(n, Before(was, k))
  {
    if k > 0 {
      hide Share, Min, Fetched;
      FilledInAll(mem, prefetch, n, was, b, k - 1);
      assert Scattered(mem, prefetch, n, was, k - 1, b[k - 1]);
      ShareAdds(n, Before(was, k - 1), was[k - 1].len);
    }
  }
}
