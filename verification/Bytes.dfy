// Little-endian numbers in byte sequences.
module Bytes {
  import opened Common

  type bytes = seq<byte>

  function Limit(k: nat): (n: nat)
    ensures n > 0
  {
    if k == 0 then 1 else 256 * Limit(k - 1)
  }

  function FromLE(b: bytes): (n: nat)
    ensures n < Limit(|b|)
  {
    if b == [] then 0 else b[0] + 256 * FromLE(b[1..])
  }

  function ToLE(n: nat, k: nat): (b: bytes)
    ensures |b| == k
  {
    if k == 0 then [] else [n % 256] + ToLE(n / 256, k - 1)
  }

  lemma {:induction false} RoundTrip(n: nat, k: nat)
    requires n < Limit(k)
    ensures FromLE(ToLE(n, k)) == n
  {
    if k > 0 {
      RoundTrip(n / 256, k - 1);
      assert ToLE(n, k)[1..] == ToLE(n / 256, k - 1);
    }
  }

  lemma DigitAndRest(d: byte, r: nat)
    ensures (d + 256 * r) % 256 == d && (d + 256 * r) / 256 == r
  {}

  lemma {:induction false} Back(b: bytes)
    ensures ToLE(FromLE(b), |b|) == b
  {
    if b != [] {
      Back(b[1..]);
      DigitAndRest(b[0], FromLE(b[1..]));
      assert b == [b[0]] + b[1..];
    }
  }

  lemma Limits()
    ensures Limit(2) == 0x1_0000 && Limit(4) == 0x1_0000_0000 && Limit(8) == 0x1_0000_0000_0000_0000
  {
    assert Limit(3) == 0x100_0000;
    assert Limit(5) == 0x100_0000_0000;
    assert Limit(6) == 0x1_0000_0000_0000;
    assert Limit(7) == 0x100_0000_0000_0000;
  }

  function Zeros(n: nat): (b: bytes)
    ensures |b| == n
  {
    seq(n, i => 0)
  }
}
