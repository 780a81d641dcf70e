// Control messages of sendmsg(2) and recvmsg(2) by a 32-bit tracee, rewritten
// for a 64-bit tracer (src/items/msghdr.cxx).
module ControlMessages {
  import opened Common
  import opened Bytes

  const HDR32 := 12   // cmsg_len: 4, cmsg_level: 4, cmsg_type: 4
  const HDR64 := 16   // cmsg_len: 8, cmsg_level: 4, cmsg_type: 4

  datatype Message = Message(level: bytes, kind: bytes, payload: bytes)

  /** CMSG_ALIGN() and CMSG_LEN() of a 64-bit system. */
  function Align(n: nat): (r: nat)
    ensures r % 8 == 0 && n <= r < n + 8
  {
    (n + 7) / 8 * 8
  }

  function CmsgLen(payload: nat): nat { Align(HDR64) + payload }

  // ----- what a buffer says, by walking from one cmsg_len to the next

  predicate IsList32(b: bytes)
    decreases |b|
  {
    |b| < HDR32 || (HDR32 <= FromLE(b[..4]) <= |b| && IsList32(b[FromLE(b[..4])..]))
  }

  function Walk32(b: bytes): seq<Message>
    requires IsList32(b)
    decreases |b|
  {
    if |b| < HDR32 then []
    else
      var n := FromLE(b[..4]);
      [Message(b[4..8], b[8..12], b[12..n])] + Walk32(b[n..])
  }

  predicate IsList64(b: bytes)
    decreases |b|
  {
    |b| < HDR64 || (HDR64 <= FromLE(b[..8]) <= |b| && IsList64(b[FromLE(b[..8])..]))
  }

  function Walk64(b: bytes): seq<Message>
    requires IsList64(b)
    decreases |b|
  {
    if |b| < HDR64 then []
    else
      var n := FromLE(b[..8]);
      [Message(b[8..12], b[12..16], b[16..n])] + Walk64(b[n..])
  }

  /** The part of a 32-bit buffer that is made of whole messages. */
  function Consumed(b: bytes): (n: nat)
    requires IsList32(b)
    ensures n <= |b| < n + HDR32
    decreases |b|
  {
    if |b| < HDR32 then 0 else FromLE(b[..4]) + Consumed(b[FromLE(b[..4])..])
  }

  function Head64(b: bytes): (r: bytes)
    requires |b| >= HDR32 && HDR32 <= FromLE(b[..4]) <= |b|
    ensures |r| == FromLE(b[..4]) + 4
  {
    var n := FromLE(b[..4]);
    ToLE(n + 4, 8) + b[4..8] + b[8..12] + b[12..n]
  }

  function Converted(b: bytes): bytes
    requires IsList32(b)
    decreases |b|
  {
    if |b| < HDR32 then [] else Head64(b) + Converted(b[FromLE(b[..4])..])
  }

  // ----- the conversion loop

  lemma {:induction false} SizeOfConverted(b: bytes)
    requires IsList32(b)
    ensures |Converted(b)| == Consumed(b) + 4 * |Walk32(b)|
    ensures 3 * |Converted(b)| <= 4 * |b|
    decreases |b|
  {
    if |b| >= HDR32 { SizeOfConverted(b[FromLE(b[..4])..]); }
  }

  /** Write through a pointer into the vector. */
  function Put(v: bytes, at: nat, b: bytes): (r: bytes)
    requires at + |b| <= |v|
    ensures |r| == |v|
  {
    v[..at] + b + v[at + |b|..]
  }

  lemma Written(v: bytes, len: bytes, level: bytes, kind: bytes, payload: bytes)
    requires |len| == 8 && |level| == 4 && |kind| == 4
    ensures var m := |v|;
      Put(Put(Put(v + Zeros(HDR64), m + 8, level), m + 12, kind) + payload, m, len)
      == v + (len + level + kind + payload)
  {
    var m := |v|;
    var v1 := Put(v + Zeros(HDR64), m + 8, level);
    assert v1 == v + (Zeros(8) + level + Zeros(4));
    var v2 := Put(v1, m + 12, kind);
    assert v2 == v + (Zeros(8) + level + kind);
    assert v2 + payload == v + (Zeros(8) + level + kind + payload);
  }

  /** cmsg_len of the 32-bit header a buffer begins with is one that fits. */
  predicate FitsBuffer(b: bytes)
    requires |b| >= HDR32
  {
    HDR32 <= FromLE(b[..4]) <= |b|
  }

  /** One message: its header, its payload, and the padding that is due. The
      source does not look at cmsg_len before it copies that much: if the length
      does not fit it copies from beyond the buffer, which is where this fails. */
  method ConvertMessage(control32: bytes, start: nat, vector: bytes) returns (ok: bool, ret: bytes, pos: nat)
    requires start + HDR32 <= |control32|
    ensures ok <==> FitsBuffer(control32[start..])
    ensures ok ==> pos == start + FromLE(control32[start..][..4]) && ret == vector + Head64(control32[start..])
  {
    hide FromLE, ToLE;
    ghost var rest := control32[start..];
    pos, ret := start, vector;
    var msg32 := control32[pos..pos + HDR32];
    pos := pos + HDR32;
    var msg := |ret|;
    ret := ret + Zeros(HDR64);
    ret := Put(ret, msg + 8, msg32[4..8]);
    ret := Put(ret, msg + 12, msg32[8..12]);
    assert msg32 == rest[..HDR32];
    assert msg32[..4] == rest[..4] && msg32[4..8] == rest[4..8] && msg32[8..12] == rest[8..12];
    var len32 := FromLE(msg32[..4]);
    var payloadBytes := len32 - HDR32;
    if payloadBytes < 0 || pos + payloadBytes > |control32| {
      return false, ret, pos;
    }
    var payload := control32[pos..pos + payloadBytes];
    ret := ret + payload;
    pos := pos + payloadBytes;
    var alignedLen := CmsgLen(payloadBytes);
    var extraBytes := alignedLen - len32 - (HDR64 - HDR32);
    ret := Put(ret, msg, ToLE(alignedLen, 8));
    assert extraBytes == 0;   // CMSG_LEN() does not pad the payload
    ret := ret + Zeros(extraBytes);
    Written(vector, ToLE(alignedLen, 8), msg32[4..8], msg32[8..12], payload);
    assert payload == rest[12..len32];
    return true, ret, pos;
  }

  lemma ListStep(b: bytes)
    requires |b| >= HDR32
    ensures IsList32(b) <==> FitsBuffer(b) && IsList32(b[FromLE(b[..4])..])
    ensures IsList32(b) ==> Converted(b) == Head64(b) + Converted(b[FromLE(b[..4])..])
  {}

  /** Whether the buffer is converted at all depends on the call's ABI; nothing
      comes of it if a cmsg_len is met that does not fit. The source reserves
      twice the input before it starts: the headers it writes through pointers
      stay where they are as long as that is enough. */
  method ConvertControlHeader32(control32: bytes, emulated32: bool) returns (ret: Option<bytes>)
    ensures ret == if !emulated32 then Some(control32)
                   else if IsList32(control32) then Some(Converted(control32))
                   else None
    ensures emulated32 && ret.Some? ==> |ret.value| <= 2 * |control32|
  {
    hide FromLE, Head64, IsList32, Converted;
    if !emulated32 {
      return Some(control32);
    }
    var vector: bytes := [];
    var pos := 0;
    assert control32[0..] == control32;
    while pos < |control32|
      invariant 0 <= pos <= |control32| && (IsList32(control32) <==> IsList32(control32[pos..]))
      invariant IsList32(control32) ==> vector + Converted(control32[pos..]) == Converted(control32)
    {
      ghost var (rest, before) := (control32[pos..], vector);
      if |control32| - pos < HDR32 {
        break;
      }
      ListStep(rest);
      ghost var start := pos;
      var ok;
      ok, vector, pos := ConvertMessage(control32, pos, vector);
      if !ok {
        return None;
      }
      assert control32[pos..] == rest[pos - start..];
      if IsList32(rest) {
        assert (before + Head64(rest)) + Converted(control32[pos..])
            == before + (Head64(rest) + Converted(control32[pos..]));
      }
    }
    NothingMore(control32[pos..]);
    assert vector + [] == vector;
    SizeOfConverted(control32);
    return Some(vector);
  }

  lemma NothingMore(b: bytes)
    requires |b| < HDR32
    ensures IsList32(b) && Converted(b) == []
  {}

  // ----- meaning preserved

  lemma Reencoded(b: bytes)
    requires |b| >= HDR32 && HDR32 <= FromLE(b[..4]) <= |b|
    ensures var n := FromLE(b[..4]);
      var h := Head64(b);
      && FromLE(h[..8]) == n + 4
      && h[8..12] == b[4..8] && h[12..16] == b[8..12] && h[16..] == b[12..n]
  {
    var n := FromLE(b[..4]);
    Limits();
    RoundTrip(n + 4, 8);
    assert Head64(b)[..8] == ToLE(n + 4, 8);
  }

  /** Every list of messages is still the same list after the conversion, walked
      by cmsg_len: same levels, types and payloads; and the output has exactly
      the consumed input's size plus 4 bytes per message. */
  lemma {:induction false} ConversionPreservesMessages(b: bytes)
    requires IsList32(b)
    ensures var out := Converted(b);
      && IsList64(out) && Walk64(out) == Walk32(b)
      && |out| == Consumed(b) + 4 * |Walk32(b)|
    decreases |b|
  {
    if |b| >= HDR32 {
      var n := FromLE(b[..4]);
      var (head, rest) := (Head64(b), b[n..]);
      var out := head + Converted(rest);
      ConversionPreservesMessages(rest);
      Reencoded(b);
      assert out[..8] == head[..8] && out[8..12] == head[8..12] && out[12..16] == head[12..16];
      assert out[n + 4..] == Converted(rest) && out[16..n + 4] == head[16..];
    }
  }

  // ----- what a 32-bit sender or the kernel put together

  function One32(m: Message): bytes {
    ToLE(HDR32 + |m.payload|, 4) + m.level + m.kind + m.payload
  }

  /** The bytes up to the next multiple of 4, where the next header goes. */
  function Gap(m: Message): (n: nat)
    ensures n < 4 && (n == 0 <==> |m.payload| % 4 == 0)
  {
    (4 - |m.payload| % 4) % 4
  }

  /** Messages in memory as CMSG_SPACE() and CMSG_NXTHDR() of a 32-bit system
      lay them out. Whether the length of the buffer counts the bytes behind the
      last payload differs between senders. */
  function Encode32(ms: seq<Message>, fillLast: bool): bytes {
    if ms == [] then []
    else One32(ms[0]) + (Zeros(if |ms| > 1 || fillLast then Gap(ms[0]) else 0) + Encode32(ms[1..], fillLast))
  }

  predicate Encodable(ms: seq<Message>) {
    forall m | m in ms :: |m.level| == 4 && |m.kind| == 4 && HDR32 + |m.payload| < Limit(4)
  }

  /** All payloads but the last are multiples of a size: nothing to skip. */
  predicate AllButLastFill(ms: seq<Message>, unit: nat)
    requires unit > 0
  {
    forall i | 0 <= i < |ms| - 1 :: |ms[i].payload| % unit == 0
  }

  lemma FirstThenRest(ms: seq<Message>, unit: nat)
    requires ms != [] && unit > 0
    ensures AllButLastFill(ms, unit)
       <==> (|ms| == 1 || |ms[0].payload| % unit == 0) && AllButLastFill(ms[1..], unit)
  {
    if AllButLastFill(ms, unit) {
      forall i | 0 <= i < |ms[1..]| - 1 ensures |ms[1..][i].payload| % unit == 0 { assert ms[1..][i] == ms[i + 1]; }
    } else {
      var i :| 0 <= i < |ms| - 1 && |ms[i].payload| % unit != 0;
      if i > 0 { assert ms[1..][i - 1] == ms[i]; }
    }
  }

  /** The loop sees exactly these messages in a buffer. */
  predicate Sees(b: bytes, ms: seq<Message>) { IsList32(b) && Walk32(b) == ms }

  lemma SeesFirst(m: Message, rest: bytes, ms: seq<Message>)
    requires Encodable([m])
    ensures Sees(One32(m) + rest, [m] + ms) <==> Sees(rest, ms)
  {
    hide ToLE, FromLE;
    var n := HDR32 + |m.payload|;
    var b := One32(m) + rest;
    assert m in [m];
    RoundTrip(n, 4);
    assert b[..4] == ToLE(n, 4) && b[4..8] == m.level && b[8..12] == m.kind;
    assert b[12..n] == m.payload && b[n..] == rest;
    if IsList32(b) { assert Walk32(b) == [m] + Walk32(rest) && Walk32(b)[1..] == Walk32(rest); }
    assert ([m] + ms)[1..] == ms;
  }

  /** A number's bytes moved up by some places do not make the same number. */
  lemma MovedUp(n: nat, places: nat)
    requires 0 < n < Limit(4) && 0 < places < 4
    ensures FromLE(Zeros(places) + ToLE(n, 4)[..4 - places]) != n
  {
    var digits := ToLE(n, 4);
    var moved := Zeros(places) + digits[..4 - places];
    if FromLE(moved) == n {
      hide FromLE, ToLE;
      Back(moved);
      assert moved == digits;
      assert digits[0] == moved[0] == 0;
      assert digits[1] == moved[1] == 0;
      assert digits[2] == moved[2] == 0;
      assert digits[3] == moved[3] == 0;
      assert digits == Zeros(4);
      RoundTrip(n, 4);
      NoDigits();
    }
  }

  lemma NoDigits()
    ensures FromLE(Zeros(4)) == 0
  {
    assert Zeros(4)[1..] == Zeros(3) && Zeros(3)[1..] == Zeros(2) && Zeros(2)[1..] == Zeros(1) && Zeros(1)[1..] == [];
  }

  /** Where there is something to skip, the loop takes it for the next header. */
  lemma GapIsMisread(gap: nat, m: Message, rest: bytes, ms: seq<Message>)
    requires 0 < gap < 4 && Encodable([m])
    ensures !Sees(Zeros(gap) + (One32(m) + rest), [m] + ms)
  {
    hide FromLE, ToLE;
    var b := Zeros(gap) + (One32(m) + rest);
    assert m in [m];
    MovedUp(HDR32 + |m.payload|, gap);
    assert b[..4] == Zeros(gap) + ToLE(HDR32 + |m.payload|, 4)[..4 - gap];
    if IsList32(b) { assert |Walk32(b)[0].payload| == FromLE(b[..4]) - HDR32; }
  }

  lemma {:induction false} SeesExactly(ms: seq<Message>, fillLast: bool)
    requires Encodable(ms)
    ensures Sees(Encode32(ms, fillLast), ms) <==> AllButLastFill(ms, 4)
  {
    if ms != [] {
      hide Sees, One32, AllButLastFill, Gap;
      var (m, rest) := (ms[0], Encode32(ms[1..], fillLast));
      var gap := if |ms| > 1 || fillLast then Gap(m) else 0;
      assert ms == [m] + ms[1..];
      SeesFirst(m, Zeros(gap) + rest, ms[1..]);
      FirstThenRest(ms, 4);
      SeesExactly(ms[1..], fillLast);
      if |ms| == 1 {
        SeesNothing(Zeros(gap) + rest);
      } else if gap == 0 {
        assert Zeros(0) + rest == rest;
      } else {
        var (next, tail) := (ms[1], rest[|One32(ms[1])|..]);
        assert rest == One32(next) + tail;
        assert ms[1..] == [next] + ms[2..];
        GapIsMisread(gap, next, tail, ms[2..]);
      }
    }
  }

  lemma SeesNothing(b: bytes)
    requires |b| < HDR32
    ensures Sees(b, [])
  {}

  /** Main result, for every list of messages as a 32-bit system lays them out:
      the conversion delivers these messages if and only if all payloads but the
      last are multiples of 4. Otherwise it loses its way at the first that is
      not: it takes the bytes in between for the beginning of a header. */
  lemma SentIsReceivedExactly(ms: seq<Message>, fillLast: bool)
    requires Encodable(ms)
    ensures var b := Encode32(ms, fillLast);
      (IsList32(b) && IsList64(Converted(b)) && Walk64(Converted(b)) == ms) <==> AllButLastFill(ms, 4)
  {
    var b := Encode32(ms, fillLast);
    SeesExactly(ms, fillLast);
    if IsList32(b) { ConversionPreservesMessages(b); }
  }

  /** Messages without anything in between, which is what the loop expects. */
  function Packed32(ms: seq<Message>): bytes {
    if ms == [] then [] else One32(ms[0]) + Packed32(ms[1..])
  }

  /** Such a buffer is always understood, with the size it should have. */
  lemma {:induction false} PackedIsReceived(ms: seq<Message>)
    requires Encodable(ms)
    ensures Sees(Packed32(ms), ms) && Consumed(Packed32(ms)) == |Packed32(ms)|
    ensures IsList64(Converted(Packed32(ms))) && Walk64(Converted(Packed32(ms))) == ms
    ensures |Converted(Packed32(ms))| == |Packed32(ms)| + 4 * |ms|
  {
    hide FromLE, ToLE, IsList64, Walk64;
    if ms != [] {
      PackedIsReceived(ms[1..]);
      assert ms == [ms[0]] + ms[1..];
      SeesFirst(ms[0], Packed32(ms[1..]), ms[1..]);
      RoundTrip(HDR32 + |ms[0].payload|, 4);
      var b := Packed32(ms);
      assert b[..4] == ToLE(HDR32 + |ms[0].payload|, 4) && b[HDR32 + |ms[0].payload|..] == Packed32(ms[1..]);
    }
    ConversionPreservesMessages(Packed32(ms));
  }

  /** For instance: a message of one byte before one of four. The header that is
      read has a cmsg_len of 0x10000000, and that much is copied. */
  lemma OneByteOverruns(m: Message, next: Message, fillLast: bool)
    requires Encodable([m, next]) && |m.payload| == 1 && |next.payload| == 4
    ensures var b := Encode32([m, next], fillLast);
      && IsList32(b[..13]) && |b| == 32 && FromLE(b[13..][..4]) == 0x1000_0000 && !IsList32(b)
  {
    assert [m, next][1..] == [next] && [next][1..] == [] && m in [m, next] && next in [m, next];
    var b, rest := Encode32([m, next], fillLast), Encode32([next], fillLast);
    assert b == One32(m) + (Zeros(3) + rest);
    assert rest == One32(next) + (Zeros(0) + Encode32([], fillLast)) == One32(next);
    assert ToLE(16, 4) == [16, 0, 0, 0] by { Sixteen(16); }
    assert ToLE(13, 4) == [13, 0, 0, 0] by { Sixteen(13); }
    assert b[..4] == [13, 0, 0, 0] && b[..13][..4] == [13, 0, 0, 0] && b[13..] == Zeros(3) + rest;
    assert b[13..][..4] == [0, 0, 0, 16];
    SmallNumbers(13);
    HighByte(16);
  }

  lemma Sixteen(n: byte)
    ensures ToLE(n, 4) == [n, 0, 0, 0]
  {
    assert ToLE(0, 3) == [0] + ToLE(0, 2) && ToLE(0, 2) == [0] + ToLE(0, 1) && ToLE(0, 1) == [0];
  }

  lemma SmallNumbers(n: byte)
    ensures FromLE([n, 0, 0, 0]) == n
  {
    Sixteen(n);
    RoundTrip(n, 4);
  }

  lemma HighByte(n: byte)
    ensures FromLE([0, 0, 0, n]) == n * 0x100_0000
  {
    var b := [0, 0, 0, n];
    assert FromLE([n]) == n by { assert [n][1..] == []; }
    assert FromLE([0, n]) == 256 * n by { assert [0, n][1..] == [n]; }
    assert FromLE([0, 0, n]) == 0x1_0000 * n by { assert [0, 0, n][1..] == [0, n]; }
    assert b[1..] == [0, 0, n];
  }

  // ----- the walk of section 5 of RFC 3542

  /** The rest of the buffer at each header that really is one. */
  function Headers(b: bytes): seq<bytes>
    requires IsList64(b)
    decreases |b|
  {
    if |b| < HDR64 then [] else [b] + Headers(b[FromLE(b[..8])..])
  }

  /** The rest of the buffer at each header that CMSG_FIRSTHDR() and
      CMSG_NXTHDR() find: the next one is at the next aligned position, if a
      header fits in there. */
  function Found(b: bytes): seq<bytes>
    decreases |b|
  {
    if |b| < HDR64 then []
    else
      var next := Align(FromLE(b[..8]));
      if FromLE(b[..8]) < HDR64 || |b| < next + HDR64 then [b] else [b] + Found(b[next..])
  }

  lemma MisalignedIsMissed(b: bytes)
    requires IsList64(b) && Tight(b) && |b| >= HDR64
    requires var n := FromLE(b[..8]); n % 8 != 0 && b[n..] != []
    ensures Found(b) != Headers(b)
  {
    hide FromLE;
    var rest := b[FromLE(b[..8])..];
    FirstHeader(rest);
    assert Headers(b)[1] == rest;
    if |Found(b)| > 1 { FoundNext(b); }
  }

  lemma FoundNext(b: bytes)
    requires |Found(b)| > 1
    ensures Found(b)[1] == b[Align(FromLE(b[..8]))..]
  {
    hide FromLE;
  }

  /** What a buffer of messages is made of, and what its walks begin with. */
  lemma FirstOfTight(b: bytes)
    requires IsList64(b) && Tight(b) && b != []
    ensures |b| >= HDR64
    ensures var n := FromLE(b[..8]);
      && HDR64 <= n <= |b| && IsList64(b[n..]) && Tight(b[n..])
      && Headers(b) == [b] + Headers(b[n..])
      && Walk64(b) == [Message(b[8..12], b[12..16], b[16..n])] + Walk64(b[n..])
  {
    hide FromLE;
  }

  lemma NoHeaders(b: bytes)
    requires IsList64(b) && |b| < HDR64
    ensures Found(b) == [] && Headers(b) == [] && Walk64(b) == []
  {}

  lemma AlignedIsFound(b: bytes)
    requires IsList64(b) && Tight(b) && |b| >= HDR64
    requires var n := FromLE(b[..8]); n % 8 == 0 || b[n..] == []
    ensures var n := FromLE(b[..8]); Found(b) == [b] + Found(b[n..])
  {
    hide FromLE, IsList64, Tight, Headers, Walk64, Found;
    FirstOfTight(b);
    var n := FromLE(b[..8]);
    FoundFirst(b, n);
    if b[n..] == [] {
      NoHeaders(b[n..]);
      assert [b] + [] == [b];
    } else {
      FirstHeader(b[n..]);
      assert Align(n) == n;
    }
  }

  lemma FoundFirst(b: bytes, n: nat)
    requires |b| >= HDR64 && n == FromLE(b[..8]) && n >= HDR64
    ensures Found(b) == if |b| < Align(n) + HDR64 then [b] else [b] + Found(b[Align(n)..])
  {
    hide FromLE;
  }

  /** A reader that aligns finds each message exactly under that condition:
      the conversion packs the messages without padding between them. */
  lemma {:induction false} AlignedWalkExactly(b: bytes)
    requires IsList64(b) && Tight(b)
    ensures Found(b) == Headers(b) <==> AllButLastFill(Walk64(b), 8)
    decreases |b|
  {
    hide FromLE, Found, Headers, Walk64, IsList64, Tight;
    if b == [] {
      NoHeaders(b);
    } else {
      hide AllButLastFill;
      FirstOfTight(b);
      var n := FromLE(b[..8]);
      var (rest, ms) := (b[n..], Walk64(b));
      AlignedWalkExactly(rest);
      assert ms[1..] == Walk64(rest) && |ms[0].payload| == n - HDR64;
      FirstThenRest(ms, 8);
      if rest == [] { NoHeaders(rest); } else { FirstHeader(rest); }
      if rest == [] || n % 8 == 0 {
        AlignedIsFound(b);
        assert ([b] + Found(rest))[1..] == Found(rest) && Headers(b)[1..] == Headers(rest);
      } else {
        MisalignedIsMissed(b);
      }
    }
  }

  lemma FirstHeader(b: bytes)
    requires IsList64(b) && Tight(b) && b != []
    ensures |b| >= HDR64 && Headers(b) != [] && Headers(b)[0] == b && Walk64(b) != []
  {}

  /** Nothing but messages, as the conversion produces it. */
  predicate Tight(b: bytes)
    requires IsList64(b)
    decreases |b|
  {
    b == [] || (|b| >= HDR64 && Tight(b[FromLE(b[..8])..]))
  }

  lemma {:induction false} ConvertedIsTight(b: bytes)
    requires IsList32(b)
    ensures IsList64(Converted(b)) && Tight(Converted(b))
    decreases |b|
  {
    ConversionPreservesMessages(b);
    if |b| >= HDR32 {
      var rest := b[FromLE(b[..4])..];
      ConvertedIsTight(rest);
      Reencoded(b);
      var out := Converted(b);
      assert out[..8] == Head64(b)[..8] && out[FromLE(b[..4]) + 4..] == Converted(rest);
    }
  }

  lemma AlignedReaderAgrees(b: bytes)
    requires IsList32(b)
    ensures IsList64(Converted(b))
    ensures Found(Converted(b)) == Headers(Converted(b)) <==> AllButLastFill(Walk32(b), 8)
  {
    ConvertedIsTight(b);
    ConversionPreservesMessages(b);
    AlignedWalkExactly(Converted(b));
  }

  /** What is shown to the user, who gets what CMSG_NXTHDR() finds: exactly the
      messages sent, if and only if all payloads but the last are multiples of 8,
      the one condition for both the conversion and the reader. */
  lemma ShownExactly(ms: seq<Message>, fillLast: bool)
    requires Encodable(ms)
    ensures var b := Encode32(ms, fillLast);
      (IsList32(b) && IsList64(Converted(b)) && Walk64(Converted(b)) == ms
       && Found(Converted(b)) == Headers(Converted(b))) <==> AllButLastFill(ms, 8)
  {
    hide FromLE, Encode32, IsList32, IsList64, Walk32, Walk64, Converted, Found, Headers, AllButLastFill, Encodable;
    var b := Encode32(ms, fillLast);
    SentIsReceivedExactly(ms, fillLast);
    EightsAreFours(ms);
    if IsList32(b) {
      AlignedReaderAgrees(b);
      ConversionPreservesMessages(b);
    }
  }

  lemma EightsAreFours(ms: seq<Message>)
    ensures AllButLastFill(ms, 8) ==> AllButLastFill(ms, 4)
  {
    if AllButLastFill(ms, 8) {
      forall i | 0 <= i < |ms| - 1 ensures |ms[i].payload| % 4 == 0 { assert |ms[i].payload| % 8 == 0; }
    }
  }
}
