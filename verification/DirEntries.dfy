// The records getdents(2) and getdents64(2) leave in a tracee's buffer, parsed
// back into directory entries (src/items/fs.cxx).
module DirEntries {
  import opened Common
  import opened Bytes

  datatype Entry = Entry(inode: nat, offset: nat, name: bytes, kind: byte)

  /** linux_dirent64 keeps the type before the name; the older linux_dirent, in
      both word sizes, hides it in the last byte of the record. */
  datatype Layout = Layout(word: nat, typeLast: bool)

  const DIRENT64 := Layout(8, false)
  const DIRENT := Layout(8, true)
  const DIRENT32 := Layout(4, true)

  predicate IsLayout(l: Layout) { l in {DIRENT64, DIRENT, DIRENT32} }

  /** offsetof(DIRENT, d_name): d_ino, d_off, d_reclen and perhaps d_type. */
  function NameOffset(l: Layout): nat { 2 * l.word + 2 + (if l.typeLast then 0 else 1) }

  /** What follows the name's bytes at the end of a record. */
  function Tail(l: Layout): nat { if l.typeLast then 2 else 0 }

  function Reclen(l: Layout, b: bytes): nat
    requires |b| >= NameOffset(l)
  {
    FromLE(b[2 * l.word..2 * l.word + 2])
  }

  /** Whole records, as the kernel delivers them. */
  predicate IsRecords(l: Layout, b: bytes)
    decreases |b|
  {
    b == [] ||
    (|b| >= NameOffset(l) + Tail(l) && NameOffset(l) + Tail(l) <= Reclen(l, b) <= |b|
     && IsRecords(l, b[Reclen(l, b)..]))
  }

  /** The loops drop padding from the end, but never the first character. */
  function Stripped(name: bytes): bytes {
    if |name| > 1 && name[|name| - 1] == 0 then Stripped(name[..|name| - 1]) else name
  }

  function First(l: Layout, b: bytes): Entry
    requires b != [] && IsRecords(l, b)
  {
    var n := Reclen(l, b);
    Entry(FromLE(b[..l.word]), FromLE(b[l.word..2 * l.word]),
          Stripped(b[NameOffset(l)..n - Tail(l)]),
          if l.typeLast then b[n - 1] else b[2 * l.word + 2])
  }

  function Parsed(l: Layout, b: bytes): seq<Entry>
    requires IsRecords(l, b)
    decreases |b|
  {
    if b == [] then [] else [First(l, b)] + Parsed(l, b[Reclen(l, b)..])
  }

  lemma ParsedFirst(l: Layout, b: bytes)
    requires IsRecords(l, b) && b != []
    ensures |b| >= NameOffset(l) && Reclen(l, b) <= |b| && IsRecords(l, b[Reclen(l, b)..])
    ensures Parsed(l, b) == [First(l, b)] + Parsed(l, b[Reclen(l, b)..])
  {}

  lemma ParsedNothing(l: Layout)
    ensures IsRecords(l, []) && Parsed(l, []) == []
  {}

  // ----- the parse loops

  class DirEntries {
    var buffer: bytes
    var entries: seq<Entry>

    /** The length of a name without the padding behind it. */
    method NameLength(start: nat, max: nat) returns (namelen: nat)
      requires start + max <= |buffer|
      ensures namelen <= max && buffer[start..start + namelen] == Stripped(buffer[start..start + max])
    {
      namelen := max;
      if max == 0 {
        return;
      }
      var last := start + namelen - 1;
      while last > start && buffer[last] == 0
        invariant start <= last && last == start + namelen - 1 && 1 <= namelen <= max
        invariant Stripped(buffer[start..start + namelen]) == Stripped(buffer[start..start + max])
      {
        ghost var name := buffer[start..start + namelen];
        assert name[..namelen - 1] == buffer[start..start + namelen - 1];
        last, namelen := last - 1, namelen - 1;
      }
    }

    /** parseEntries32() for both word sizes, and parseEntries64(): the same loop
        over records of different layout. */
    method ParseEntries(l: Layout)
      requires IsLayout(l) && IsRecords(l, buffer)
      modifies `entries
      ensures entries == old(entries) + Parsed(l, buffer)
    {
      hide IsRecords, First, Reclen, Parsed;
      var pos := 0;
      assert buffer[0..] == buffer;
      while pos < |buffer|
        invariant 0 <= pos <= |buffer| && IsRecords(l, buffer[pos..])
        invariant entries + Parsed(l, buffer[pos..]) == old(entries) + Parsed(l, buffer)
      {
        ghost var (b, before) := (buffer[pos..], entries);
        ParsedFirst(l, b);
        pos := ParseOne(l, pos);
        assert (before + [First(l, b)]) + Parsed(l, buffer[pos..]) == before + ([First(l, b)] + Parsed(l, buffer[pos..]));
      }
      assert buffer[pos..] == [];
      ParsedNothing(l);
    }

    lemma Within(pos: nat, from: nat, to: nat)
      requires pos <= |buffer| && from <= to <= |buffer| - pos
      ensures buffer[pos + from..pos + to] == buffer[pos..][from..to]
    {}

    /** One turn of either loop. */
    method ParseOne(l: Layout, pos: nat) returns (next: nat)
      requires IsLayout(l) && pos < |buffer| && IsRecords(l, buffer[pos..])
      modifies `entries
      ensures pos < next <= |buffer| && buffer[next..] == buffer[pos..][Reclen(l, buffer[pos..])..]
      ensures entries == old(entries) + [First(l, buffer[pos..])]
    {
      hide FromLE, Stripped;
      ghost var cur := buffer[pos..];
      var reclen := FromLE(buffer[pos + 2 * l.word..pos + 2 * l.word + 2]);
      Within(pos, 2 * l.word, 2 * l.word + 2);
      var start := pos + NameOffset(l);
      var namelen := NameLength(start, reclen - NameOffset(l) - Tail(l));
      var kind := if l.typeLast then buffer[pos + reclen - 1] else buffer[pos + 2 * l.word + 2];
      Within(pos, NameOffset(l), reclen - Tail(l));
      Within(pos, 0, l.word);
      Within(pos, l.word, 2 * l.word);
      entries := entries + [Entry(FromLE(buffer[pos..pos + l.word]), FromLE(buffer[pos + l.word..pos + 2 * l.word]),
                                  buffer[start..start + namelen], kind)];
      next := pos + reclen;
    }
  }

  // ----- the kernel's side

  /** A record as the kernel writes it: the name, its NUL, and zero padding; the
      older record counts that NUL among the two bytes before its end. */
  function Record(l: Layout, e: Entry, pad: nat): bytes {
    var head := ToLE(e.inode, l.word) + ToLE(e.offset, l.word) + ToLE(RecordSize(l, e, pad), 2);
    if l.typeLast then head + (e.name + Zeros(pad)) + [0, e.kind]
    else head + [e.kind] + (e.name + Zeros(pad + 1))
  }

  function RecordSize(l: Layout, e: Entry, pad: nat): nat {
    NameOffset(l) + |e.name| + pad + (if l.typeLast then 2 else 1)
  }

  function Records(l: Layout, es: seq<Entry>, pads: seq<nat>): bytes
    requires |es| == |pads|
  {
    if es == [] then [] else Record(l, es[0], pads[0]) + Records(l, es[1..], pads[1..])
  }

  predicate Fits(l: Layout, e: Entry, pad: nat) {
    e.inode < Limit(l.word) && e.offset < Limit(l.word) && RecordSize(l, e, pad) < Limit(2)
  }

  predicate ZeroFree(name: bytes) { forall i | 0 <= i < |name| :: name[i] != 0 }

  lemma {:induction false} StripPadding(name: bytes, pad: nat)
    requires ZeroFree(name)
    ensures Stripped(name + Zeros(pad)) == (if name == [] && pad > 0 then [0] else name)
    decreases pad
  {
    if pad > 0 {
      StripPadding(name, pad - 1);
      assert (name + Zeros(pad))[..|name| + pad - 1] == name + Zeros(pad - 1);
      if name == [] && pad == 1 { assert Zeros(1) == [0]; }
    } else {
      assert name + Zeros(0) == name;
    }
  }

  /** The name of an entry survives unless it is empty and padded, which it
      always is in the newer record. */
  predicate Survives(l: Layout, e: Entry, pad: nat) { e.name != [] || (l.typeLast && pad == 0) }

  lemma RecordParsed(l: Layout, e: Entry, pad: nat, rest: bytes)
    requires IsLayout(l) && Fits(l, e, pad) && ZeroFree(e.name)
    ensures var b := Record(l, e, pad) + rest;
      && |b| >= NameOffset(l) + Tail(l)
      && NameOffset(l) + Tail(l) <= Reclen(l, b) <= |b| && b[Reclen(l, b)..] == rest
      && FromLE(b[..l.word]) == e.inode && FromLE(b[l.word..2 * l.word]) == e.offset
      && (if l.typeLast then b[Reclen(l, b) - 1] else b[2 * l.word + 2]) == e.kind
      && Stripped(b[NameOffset(l)..Reclen(l, b) - Tail(l)]) == (if Survives(l, e, pad) then e.name else [0])
  {
    hide FromLE, ToLE, Stripped, Zeros;
    var b, n, w := Record(l, e, pad) + rest, RecordSize(l, e, pad), l.word;
    RoundTrip(e.inode, w);
    RoundTrip(e.offset, w);
    RoundTrip(n, 2);
    assert b[..w] == ToLE(e.inode, w) && b[w..2 * w] == ToLE(e.offset, w);
    assert b[2 * w..2 * w + 2] == ToLE(n, 2);
    assert b[n..] == rest;
    var zeros := if l.typeLast then pad else pad + 1;
    assert b[NameOffset(l)..n - Tail(l)] == e.name + Zeros(zeros);
    StripPadding(e.name, zeros);
  }

  predicate AllFit(l: Layout, es: seq<Entry>, pads: seq<nat>)
    requires |es| == |pads|
  {
    forall i | 0 <= i < |es| :: Fits(l, es[i], pads[i]) && ZeroFree(es[i].name)
  }

  /** What becomes of an entry on its way through the buffer. */
  function Received(l: Layout, e: Entry, pad: nat): Entry {
    if Survives(l, e, pad) then e else e.(name := [0])
  }

  lemma RecordFirst(l: Layout, e: Entry, pad: nat, rest: bytes)
    requires IsLayout(l) && Fits(l, e, pad) && ZeroFree(e.name) && IsRecords(l, rest)
    ensures var b := Record(l, e, pad) + rest;
      && b != [] && IsRecords(l, b) && |b| >= NameOffset(l) && Reclen(l, b) <= |b| && b[Reclen(l, b)..] == rest
      && First(l, b) == Received(l, e, pad)
  {
    hide FromLE, Record, Stripped;
    RecordParsed(l, e, pad, rest);
  }

  function AllReceived(l: Layout, es: seq<Entry>, pads: seq<nat>): (r: seq<Entry>)
    requires |es| == |pads|
    ensures |r| == |es|
  {
    if es == [] then [] else [Received(l, es[0], pads[0])] + AllReceived(l, es[1..], pads[1..])
  }

  lemma {:induction false} ReceivedAt(l: Layout, es: seq<Entry>, pads: seq<nat>, i: nat)
    requires |es| == |pads| && i < |es|
    ensures AllReceived(l, es, pads)[i] == Received(l, es[i], pads[i])
  {
    if i > 0 { ReceivedAt(l, es[1..], pads[1..], i - 1); }
  }

  lemma {:induction false} ParsedIsReceived(l: Layout, es: seq<Entry>, pads: seq<nat>)
    requires IsLayout(l) && |es| == |pads| && AllFit(l, es, pads)
    ensures IsRecords(l, Records(l, es, pads))
    ensures Parsed(l, Records(l, es, pads)) == AllReceived(l, es, pads)
    decreases |es|
  {
    if es != [] {
      hide FromLE, Record, Stripped, First, IsRecords, Parsed, Reclen, Survives, Received, Fits, ZeroFree;
      var rest := Records(l, es[1..], pads[1..]);
      ParsedIsReceived(l, es[1..], pads[1..]);
      RecordFirst(l, es[0], pads[0], rest);
      ParsedFirst(l, Record(l, es[0], pads[0]) + rest);
    }
  }

  /** Main result, for all three record layouts: the parser gets back exactly the
      entries the kernel wrote, if and only if no name is empty and padded. */
  lemma ParsedIsWritten(l: Layout, es: seq<Entry>, pads: seq<nat>)
    requires IsLayout(l) && |es| == |pads| && AllFit(l, es, pads)
    ensures IsRecords(l, Records(l, es, pads))
    ensures Parsed(l, Records(l, es, pads)) == es <==> forall i | 0 <= i < |es| :: Survives(l, es[i], pads[i])
  {
    hide IsRecords, Parsed, Records;
    ParsedIsReceived(l, es, pads);
    var got := AllReceived(l, es, pads);
    forall i | 0 <= i < |es| ensures got[i] == es[i] <==> Survives(l, es[i], pads[i]) {
      ReceivedAt(l, es, pads, i);
    }
  }
}
