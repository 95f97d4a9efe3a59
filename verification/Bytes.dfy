/** Byte strings, fixed-width big-endian numbers and 32-byte slots. */
module Bytes {
  type byte = x: int | 0 <= x < 256
  type bytes = seq<byte>

  const SLOT_SIZE := 32

  function Pow256(k: nat): (r: int)
    ensures r >= 1
  {
    if k == 0 then 1 else 256 * Pow256(k - 1)
  }

  /** The `width` low-order bytes of `n`, most significant first. The division
      rounds down, so a negative `n` yields its two's complement. */
  function ToBe(n: int, width: nat): (r: bytes)
    ensures |r| == width
    decreases width, n
  {
    if width == 0 then [] else ToBe(n / 256, width - 1) + [n % 256]
  }

  function FromBe(b: bytes): nat {
    if b == [] then 0 else 256 * FromBe(b[..|b| - 1]) + b[|b| - 1]
  }

  function Fill(x: byte, n: nat): (r: bytes)
    ensures |r| == n && forall i :: 0 <= i < n ==> r[i] == x
  {
    seq(n, _ => x)
  }

  /** One slot holding a number. */
  function Be32(n: int): (r: bytes)
    ensures |r| == SLOT_SIZE
  {
    ToBe(n, SLOT_SIZE)
  }

  /** Length after padding to a whole number of slots. */
  function PaddedLen(n: nat): (r: nat)
    ensures r % SLOT_SIZE == 0 && n <= r < n + SLOT_SIZE
  {
    var rem := n % SLOT_SIZE;
    n - rem + (if rem == 0 then 0 else SLOT_SIZE)
  }

  function PadRight(b: bytes): (r: bytes)
    ensures |r| == PaddedLen(|b|) && r[..|b|] == b
  {
    b + Fill(0, PaddedLen(|b|) - |b|)
  }

  /** Each byte is the digit of its weight, the heaviest in front. */
  lemma {:induction false} ToBeDigit(n: int, width: nat, k: nat)
    requires k < width
    ensures ToBe(n, width)[k] == (n / Pow256(width - 1 - k)) % 256
    decreases width
  {
    if k < width - 1 {
      ToBeDigit(n / 256, width - 1, k);
      DivideTwice(n, Pow256(width - 2 - k));
    }
  }

  lemma DivideTwice(n: int, d: int)
    requires d >= 1
    ensures n / 256 / d == n / (256 * d)
  {
    var q, r, q', r' := n / 256, n % 256, n / 256 / d, n / 256 % d;
    assert n == 256 * (d * q' + r') + r;
    assert 256 * (d * q') == (256 * d) * q';
    QuotientIs(n, 256 * d, q', 256 * r' + r);
  }

  lemma QuotientIs(n: int, d: int, q: int, r: int)
    requires 0 <= r < d && n == d * q + r
    ensures n / d == q
  {
    var q', r' := n / d, n % d;
    assert n == d * q' + r' && 0 <= r' < d;
    Multiples(d, q - q', d * q - d * q');
  }

  /** Any other multiple of `d` is at least `d` away from 0. */
  lemma Multiples(d: int, k: int, x: int)
    requires d >= 1 && x == d * k
    ensures k >= 1 ==> x >= d
    ensures k <= -1 ==> x <= -d
  {
  }

  /** Above its significant bytes a number is all zeros or all ones. */
  lemma {:induction false} ToBeSplit(n: int, hi: nat, lo: nat)
    requires -Pow256(lo) <= n < Pow256(lo)
    ensures ToBe(n, hi + lo) == Fill(if n < 0 then 0xff else 0, hi) + ToBe(n, lo)
    decreases hi + lo
  {
    if lo > 0 {
      ToBeSplit(n / 256, hi, lo - 1);
    } else if hi > 0 {
      ToBeSplit(n / 256, hi - 1, 0);
    }
  }

  /** Sign extension: filling the slot above the `width` bytes of `n` gives the
      32-byte two's complement. */
  lemma {:induction false} SignExtend(n: int, width: nat)
    requires width <= SLOT_SIZE && -Pow256(width) <= n < Pow256(width)
    ensures Be32(n) == Fill(if n < 0 then 0xff else 0, SLOT_SIZE - width) + ToBe(n, width)
  {
    ToBeSplit(n, SLOT_SIZE - width, width);
  }

  lemma {:induction false} FromToBe(n: nat, width: nat)
    requires n < Pow256(width)
    ensures FromBe(ToBe(n, width)) == n
  {
    if width > 0 {
      FromToBe(n / 256, width - 1);
      assert ToBe(n, width)[..width - 1] == ToBe(n / 256, width - 1);
    }
  }

  lemma {:induction false} ToFromBe(b: bytes)
    ensures ToBe(FromBe(b), |b|) == b && FromBe(b) < Pow256(|b|)
  {
    if b != [] {
      ToFromBe(b[..|b| - 1]);
      assert b == b[..|b| - 1] + [b[|b| - 1]];
    }
  }

  /** Up to 32 bytes as a number, in a slot. */
  lemma {:induction false} BytesInSlot(b: bytes)
    requires |b| <= SLOT_SIZE
    ensures Be32(FromBe(b)) == Fill(0, SLOT_SIZE - |b|) + b
  {
    ToFromBe(b);
    SignExtend(FromBe(b), |b|);
  }

  lemma {:induction false} Pow256Grows(a: nat, b: nat)
    requires a <= b
    ensures Pow256(a) <= Pow256(b)
  {
    if a < b {
      Pow256Grows(a, b - 1);
    }
  }

  /** The limits of 64-bit numbers and of numbers that fit one slot. */
  const U64_LIMIT: nat := 0x1_0000_0000_0000_0000
  const U256_LIMIT: nat := 0x1_0000_0000_0000_0000_0000_0000_0000_0000_0000_0000_0000_0000_0000_0000_0000_0000

  lemma {:induction false} Limits()
    ensures Pow256(8) == U64_LIMIT && Pow256(SLOT_SIZE) == U256_LIMIT
  {
    assert Pow256(16) == U64_LIMIT * Pow256(8);
    assert Pow256(24) == U64_LIMIT * Pow256(16);
    assert Pow256(32) == U64_LIMIT * Pow256(24);
  }
}
