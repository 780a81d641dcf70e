// Reading a tracee's memory word by word (src/Tracee.cxx), and the buffers that
// are prefetched first and completed later (src/items/items.cxx).
module TraceeMemory {
  import opened Common
  import opened Bytes

  const WORD := 8

  /** What is mapped in the tracee, byte by byte. */
  type Memory = map<nat, byte>

  predicate Mapped(mem: Memory, addr: nat, n: nat) { forall i | addr <= i < addr + n :: i in mem }

  function At(mem: Memory, addr: nat, n: nat): (b: bytes)
    requires Mapped(mem, addr, n)
    ensures |b| == n
  {
    seq(n, i requires 0 <= i < n => mem[addr + i])
  }

  /** PTRACE_PEEKDATA; it fails unless the whole word is mapped. */
  function Peek(mem: Memory, addr: nat): Option<bytes> {
    if Mapped(mem, addr, WORD) then Some(At(mem, addr, WORD)) else None
  }

  /** The number of words a blob of n bytes takes; the loop reads first and asks
      later, so it is never zero. */
  function Peeks(n: nat): nat { if n == 0 then 1 else (n + WORD - 1) / WORD }

  lemma AtSplit(mem: Memory, addr: nat, a: nat, b: nat)
    requires Mapped(mem, addr, a) && Mapped(mem, addr + a, b)
    ensures Mapped(mem, addr, a + b) && At(mem, addr, a + b) == At(mem, addr, a) + At(mem, addr + a, b)
  {}

  // ----- blobs

  /** The filler; the ghost fields are the buffer it found, where it began to
      write, and what it wrote so far. */
  class BlobFiller {
    var left: nat
    const buffer: array<byte>
    var pos: nat
    ghost const was: bytes
    ghost const start: nat
    ghost var data: bytes

    ghost predicate Valid()
      reads this, buffer
    {
      pos == start + |data| && pos + left <= buffer.Length == |was| && Written(was, buffer[..], start, data)
    }

    constructor (count: nat, buffer: array<byte>, pos: nat)
      requires pos + count <= buffer.Length
      ensures this.buffer == buffer && left == count
      ensures Valid() && was == buffer[..] && start == pos && data == []
    {
      this.left, this.buffer, this.pos := count, buffer, pos;
      was, start, data := buffer[..], pos, [];
      new;
      NothingWritten(was, start, []);
    }

    method Fill(word: bytes) returns (more: bool)
      requires Valid() && |word| == WORD
      modifies this, buffer
      ensures Valid() && data == old(data) + word[..Min(WORD, old(left))]
      ensures left == old(left) - Min(WORD, old(left)) && (more <==> left != 0)
    {
      hide Written;
      var toCopy := Min(WORD, left);
      ghost var now := buffer[..];
      forall i | 0 <= i < toCopy {
        buffer[pos + i] := word[i];
      }
      assert buffer[..] == now[..pos] + word[..toCopy] + now[pos + toCopy..];
      WrittenOn(was, now, start, data, word[..toCopy]);
      data := data + word[..toCopy];
      pos := pos + toCopy;
      left := left - toCopy;
      return left != 0;
    }
  }

  /** readBlob(): exactly the bytes asked for, in that many peeks, and nothing
      else in the buffer; it fails exactly if one of the words is not mapped as a
      whole, which the last one may not be though the blob is. */
  method ReadBlob(mem: Memory, addr: nat, buffer: array<byte>, start: nat, count: nat) returns (ok: bool, peeks: nat)
    requires start + count <= buffer.Length
    modifies buffer
    ensures ok <==> Mapped(mem, addr, WORD * Peeks(count))
    ensures ok ==> peeks == Peeks(count)
    ensures ok ==> Mapped(mem, addr, count) && buffer[start..start + count] == At(mem, addr, count)
    ensures buffer[..start] == old(buffer[..start]) && buffer[start + count..] == old(buffer[..])[start + count..]
  {
    hide At, Counted, Peeks, Written, Mapped;
    var filler := new BlobFiller(count, buffer, start);
    var cur, more := addr, true;
    peeks := 0;
    NoneCounted(mem, addr, count);
    while more
      invariant cur == addr + WORD * peeks && Counted(count, filler.left, peeks, more)
      invariant filler.buffer == buffer && filler.Valid() && filler.left <= count
      invariant filler.was == old(buffer[..]) && filler.start == start
      invariant Mapped(mem, addr, WORD * peeks) && Mapped(mem, addr, count - filler.left)
      invariant filler.data == At(mem, addr, count - filler.left)
      decreases more, filler.left
    {
      var word := Peek(mem, cur);
      OneMore(count, filler.left, peeks);
      if word.None? {
        NextIsNeeded(mem, addr, peeks, count);
        WrittenWithin(filler.was, buffer[..], start, filler.data, count);
        return false, peeks;
      }
      TakenFromWord(mem, addr, count - filler.left, cur, Min(WORD, filler.left));
      more := filler.Fill(word.value);
      NextMapped(mem, addr, peeks);
      peeks := peeks + 1;
      cur := cur + WORD;
    }
    AllCounted(count, filler.left, peeks);
    WrittenWithin(filler.was, buffer[..], start, filler.data, count);
    return true, peeks;
  }

  /** The buffer after some data was written to it from a position on. */
  predicate Written(was: bytes, now: bytes, start: nat, data: bytes) {
    && |now| == |was| && start + |data| <= |was|
    && now == was[..start] + data + was[start + |data|..]
  }

  lemma NothingWritten(was: bytes, start: nat, none: bytes)
    requires start <= |was| && none == []
    ensures Written(was, was, start, none)
  {}

  lemma WrittenOn(was: bytes, now: bytes, start: nat, data: bytes, more: bytes)
    requires Written(was, now, start, data) && start + |data| + |more| <= |was|
    ensures var p := start + |data|;
      Written(was, now[..p] + more + now[p + |more|..], start, data + more)
  {
    var p := start + |data|;
    assert now[..p] == was[..start] + data;
    assert now[p + |more|..] == was[p + |more|..];
  }

  lemma WrittenWithin(was: bytes, now: bytes, start: nat, data: bytes, count: nat)
    requires Written(was, now, start, data) && |data| <= count && start + count <= |was|
    ensures now[..start] == was[..start] && now[start + count..] == was[start + count..]
    ensures |data| == count ==> now[start..start + count] == data
  {}

  lemma NextMapped(mem: Memory, addr: nat, peeks: nat)
    requires Mapped(mem, addr, WORD * peeks) && Mapped(mem, addr + WORD * peeks, WORD)
    ensures Mapped(mem, addr, WORD * (peeks + 1))
  {}

  lemma NextIsNeeded(mem: Memory, addr: nat, peeks: nat, count: nat)
    requires !Mapped(mem, addr + WORD * peeks, WORD) && peeks < Peeks(count)
    ensures !Mapped(mem, addr, WORD * Peeks(count))
  {
    var i :| addr + WORD * peeks <= i < addr + WORD * peeks + WORD && i !in mem;
  }

  /** How far the loop has come after some peeks. */
  predicate Counted(count: nat, left: nat, peeks: nat, more: bool) {
    && left <= count && (peeks == 0 ==> left == count && more)
    && (more <==> peeks == 0 || left > 0)
    && (left > 0 || count == 0 ==> count - left == Min(count, WORD * peeks))
    && (left == 0 && peeks > 0 ==> peeks == Peeks(count))
  }

  lemma NoneCounted(mem: Memory, addr: nat, count: nat)
    ensures Counted(count, count, 0, true) && Mapped(mem, addr, 0) && At(mem, addr, 0) == []
  {}

  lemma AllCounted(count: nat, left: nat, peeks: nat)
    requires Counted(count, left, peeks, false)
    ensures left == 0 && peeks == Peeks(count) && count <= WORD * Peeks(count)
  {}

  lemma OneMore(count: nat, left: nat, peeks: nat)
    requires Counted(count, left, peeks, true)
    ensures peeks < Peeks(count)
    ensures var left1 := left - Min(WORD, left);
      Counted(count, left1, peeks + 1, left1 != 0)
    ensures left > 0 ==> count - left == WORD * peeks
  {}

  lemma TakenFromWord(mem: Memory, addr: nat, done: nat, cur: nat, n: nat)
    requires Mapped(mem, addr, done) && Mapped(mem, cur, WORD) && n <= WORD && (n > 0 ==> cur == addr + done)
    ensures Mapped(mem, addr, done + n) && At(mem, addr, done + n) == At(mem, addr, done) + At(mem, cur, WORD)[..n]
  {
    if n > 0 {
      AtSplit(mem, addr, done, n);
      assert At(mem, cur, WORD)[..n] == At(mem, cur, n);
    }
  }

  // ----- vectors and strings

  predicate IsItemSize(size: nat) { size in {1, 2, 4, 8} }

  /** The items a word, or more of them, is made of. */
  function ItemsIn(b: bytes, size: nat): seq<nat>
    requires size > 0
    decreases |b|
  {
    if |b| < size then [] else [FromLE(b[..size])] + ItemsIn(b[size..], size)
  }

  /** The items in the first words behind an address. */
  function Items(mem: Memory, addr: nat, size: nat, words: nat): seq<nat>
    requires size > 0 && Mapped(mem, addr, WORD * words)
  {
    if words == 0 then []
    else
      var before := WORD * (words - 1);
      Items(mem, addr, size, words - 1) + ItemsIn(At(mem, addr + before, WORD), size)
  }

  predicate ZeroFree(items: seq<nat>) { forall k | 0 <= k < |items| :: items[k] != 0 }

  class ContainerFiller {
    var container: seq<nat>
    const max: nat
    const stopAtZero: bool
    const itemSize: nat
    var filled: nat

    constructor (max: nat, stopAtZero: bool, itemSize: nat)
      ensures container == [] && filled == 0
      ensures this.max == max && this.stopAtZero == stopAtZero && this.itemSize == itemSize
    {
      container, filled := [], 0;
      this.max, this.stopAtZero, this.itemSize := max, stopAtZero, itemSize;
    }

    /** Take a word's items one by one, until a terminator or the maximum. */
    method Fill(word: bytes) returns (more: bool, ghost taken: nat)
      requires itemSize > 0 && filled == |container| && (max > 0 ==> filled < max)
      modifies this
      ensures var items := ItemsIn(word, itemSize);
        && taken <= |items| && container == old(container) + items[..taken]
        && (stopAtZero ==> ZeroFree(items[..taken]))
        && (if more then taken == |items| && (max > 0 ==> |container| < max)
            else (max > 0 && |container| == max) || (stopAtZero && taken < |items| && items[taken] == 0))
      ensures filled == |container| && (max > 0 ==> filled <= max)
    {
      taken := 0;
      var items := ItemsIn(word, itemSize);
      for numitem := 0 to |items|
        invariant taken == numitem && filled == |container|
        invariant container == old(container) + items[..taken]
        invariant stopAtZero ==> ZeroFree(items[..taken])
        invariant max > 0 ==> filled < max
      {
        if stopAtZero && items[numitem] == 0 {
          return false, taken;
        }
        container := container + [items[numitem]];
        filled, taken := filled + 1, taken + 1;
        if filled == max {
          return false, taken;
        }
      }
      return true, taken;
    }
  }

  /** readVector(): the longest prefix without a zero item, cut off at a positive
      maximum. It ends even without one, for memory is finite, and it fails
      exactly when the next word it needs is not mapped as a whole. */
  method ReadVector(mem: Memory, addr: nat, size: nat, max: nat, stopAtZero: bool)
    returns (ok: bool, out: seq<nat>, ghost words: nat)
    requires IsItemSize(size)
    ensures Mapped(mem, addr, WORD * words) && out <= Items(mem, addr, size, words)
    ensures (stopAtZero ==> ZeroFree(out)) && (max > 0 ==> |out| <= max)
    ensures ok ==> || (max > 0 && |out| == max)
                   || (stopAtZero && |out| < |Items(mem, addr, size, words)| && Items(mem, addr, size, words)[|out|] == 0)
    ensures !ok ==> out == Items(mem, addr, size, words) && (max > 0 ==> |out| < max)
                    && !Mapped(mem, addr + WORD * words, WORD)
  {
    hide ItemsIn, At;
    var filler := new ContainerFiller(max, stopAtZero, size);
    var cur := addr;
    words := 0;
    while true
      invariant filler.max == max && filler.stopAtZero == stopAtZero && filler.itemSize == size
      invariant filler.filled == |filler.container| && (max > 0 ==> filler.filled < max)
      invariant cur == addr + WORD * words && Mapped(mem, addr, WORD * words)
      invariant filler.container == Items(mem, addr, size, words)
      invariant stopAtZero ==> ZeroFree(filler.container)
      decreases set a | a in mem && a >= cur
    {
      var word := Peek(mem, cur);
      if word.None? {
        return false, filler.container, words;
      }
      ghost var taken;
      var more;
      more, taken := filler.Fill(word.value);
      words := words + 1;
      if !more {
        return true, filler.container, words;
      }
      ghost var above := set a | a in mem && a >= cur;
      assert cur in above;
      cur := cur + WORD;
      assert (set a | a in mem && a >= cur) < above;
    }
  }

  // ----- which items these are

  lemma {:induction false} ItemsInBytes(b: bytes, size: nat, k: nat)
    requires size > 0 && k < |ItemsIn(b, size)|
    ensures 0 <= k * size && k * size + size <= |b| && ItemsIn(b, size)[k] == FromLE(b[k * size..k * size + size])
    decreases |b|
  {
    if k > 0 {
      ItemsInBytes(b[size..], size, k - 1);
      assert k * size == (k - 1) * size + size;
      assert b[size..][(k - 1) * size..(k - 1) * size + size] == b[k * size..k * size + size];
    }
  }

  lemma {:induction false} ItemsInMultiple(b: bytes, size: nat, n: nat)
    requires size > 0 && |b| == n * size
    ensures |ItemsIn(b, size)| == n
    decreases n
  {
    if n > 0 {
      assert n * size == (n - 1) * size + size;
      ItemsInMultiple(b[size..], size, n - 1);
    } else {
      assert n * size == 0;
    }
  }

  lemma ItemsPerWord(b: bytes, size: nat)
    requires IsItemSize(size) && |b| == WORD
    ensures |ItemsIn(b, size)| * size == WORD
  {
    ItemsInMultiple(b, size, WORD / size);
  }

  /** The k-th of some items is the one at its place in memory. */
  predicate ItemFrom(mem: Memory, addr: nat, size: nat, words: nat, items: seq<nat>, k: nat)
    requires Mapped(mem, addr, WORD * words) && k < |items|
  {
    0 <= k * size && k * size + size <= WORD * words && items[k] == FromLE(At(mem, addr + k * size, size))
  }

  lemma {:induction false} ItemsAreMemory(mem: Memory, addr: nat, size: nat, words: nat)
    requires IsItemSize(size) && Mapped(mem, addr, WORD * words)
    ensures var items := Items(mem, addr, size, words);
      && |items| * size == WORD * words
      && forall k | 0 <= k < |items| :: ItemFrom(mem, addr, size, words, items, k)
  {
    if words > 0 {
      hide FromLE, ItemsIn, At;
      ItemsAreMemory(mem, addr, size, words - 1);
      var (before, word) := (Items(mem, addr, size, words - 1), At(mem, addr + WORD * (words - 1), WORD));
      var last := ItemsIn(word, size);
      ItemsPerWord(word, size);
      assert (|before| + |last|) * size == |before| * size + |last| * size;
      forall k | 0 <= k < |before| + |last| ensures ItemFrom(mem, addr, size, words, before + last, k) {
        if k < |before| {
          assert ItemFrom(mem, addr, size, words - 1, before, k);
        } else {
          LastItem(mem, addr, size, words, |before|, k - |before|);
        }
      }
    }
  }

  lemma LastItem(mem: Memory, addr: nat, size: nat, words: nat, base: nat, i: nat)
    requires size > 0 && words > 0 && Mapped(mem, addr, WORD * words) && base * size == WORD * (words - 1)
    requires i < |ItemsIn(At(mem, addr + WORD * (words - 1), WORD), size)|
    ensures 0 <= (base + i) * size && (base + i) * size + size <= WORD * words
    ensures ItemsIn(At(mem, addr + WORD * (words - 1), WORD), size)[i] == FromLE(At(mem, addr + (base + i) * size, size))
  {
    hide FromLE, ItemsIn;
    var word := At(mem, addr + WORD * (words - 1), WORD);
    ItemsInBytes(word, size, i);
    assert (base + i) * size == base * size + i * size;
    assert word[i * size..i * size + size] == At(mem, addr + (base + i) * size, size);
  }
}
