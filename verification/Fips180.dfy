/**
 SHA-256 as FIPS 180-4 defines it: words of section 3.2, functions of section 4.1.2, constants of sections 4.2.2
 and 5.3.3, padding of section 5.1.1 (for whole bytes) and the hash computation of section 6.2.2.
 */
module Fips180 {
  const TWO32: int := 0x1_0000_0000

  type Byte = b: int | 0 <= b < 0x100
  type Word = w: int | 0 <= w < TWO32

  function Pow2(n: nat): (p: nat)
    ensures p > 0
  {
    if n == 0 then 1 else 2 * Pow2(n - 1)
  }

  /** The number whose lowest `n` bits are combined bit by bit from those of `x` and `y`. */
  function Bitwise(op: (bool, bool) -> bool, x: nat, y: nat, n: nat): (r: nat)
    ensures r < Pow2(n)
  {
    if n == 0 then 0
    else 2 * Bitwise(op, x / 2, y / 2, n - 1) + (if op(x % 2 == 1, y % 2 == 1) then 1 else 0)
  }

  lemma Pow2Of32()
    ensures Pow2(32) == TWO32
  {
    assert Pow2(4) == 16 && Pow2(8) == 0x100;
    assert Pow2(16) == 0x1_0000 by { assert Pow2(12) == 0x1000; }
    assert Pow2(20) == 0x10_0000 && Pow2(24) == 0x100_0000 && Pow2(28) == 0x1000_0000;
  }

  predicate OrBit(p: bool, q: bool) { p || q }
  predicate AndBit(p: bool, q: bool) { p && q }
  predicate XorBit(p: bool, q: bool) { p != q }

  function Combined(op: (bool, bool) -> bool, x: Word, y: Word, width: nat): Word
    requires width == 32
  {
    Pow2Of32();
    Bitwise(op, x, y, width)
  }

  function Or(x: Word, y: Word): Word { Combined(OrBit, x, y, 32) }
  function And(x: Word, y: Word): Word { Combined(AndBit, x, y, 32) }
  function Xor(x: Word, y: Word): Word { Combined(XorBit, x, y, 32) }
  function Not(x: Word): Word { TWO32 - 1 - x }

  function Plus(x: Word, y: Word): Word { (x + y) % TWO32 }

  /** SHR and ROTR of section 3.2: the low `n` bits are dropped, or moved to the top. */
  function Shr(x: Word, n: nat): Word
    requires n <= 32
  {
    ShrBound(x, n);
    x / Pow2(n)
  }

  lemma {:induction false} ShrBound(x: nat, n: nat)
    ensures 0 <= x / Pow2(n) <= x
  {
    DivBound(x, Pow2(n));
  }

  lemma DivBound(x: nat, p: nat)
    requires p > 0
    ensures 0 <= x / p <= x
  {
    var q := x / p;
    if q > x { MulMono(1, p, q); }
  }

  lemma MulMono(a: int, b: int, c: int)
    requires a <= b && 0 <= c
    ensures a * c <= b * c
  {}

  function Rotr(x: Word, n: nat): Word
    requires n <= 32
  {
    RotrBound(x, n);
    x % Pow2(n) * Pow2(32 - n) + x / Pow2(n)
  }

  lemma {:induction false} Pow2Split(a: nat, b: nat)
    ensures Pow2(a) * Pow2(b) == Pow2(a + b)
  {
    if a > 0 { Pow2Split(a - 1, b); }
  }

  lemma RotrBound(x: Word, n: nat)
    requires n <= 32
    ensures 0 <= x % Pow2(n) * Pow2(32 - n) + x / Pow2(n) < TWO32
    ensures 0 <= x / Pow2(n) < Pow2(32 - n)
  {
    Pow2Of32();
    Pow2Split(n, 32 - n);
    SwapBound(x, Pow2(n), Pow2(32 - n));
  }

  /** Exchanging quotient and remainder stays below the product. */
  lemma SwapBound(x: nat, p: nat, s: nat)
    requires 0 < p && 0 < s && x < p * s
    ensures 0 <= x / p < s && 0 <= x % p * s + x / p < p * s
  {
    var q, r := x / p, x % p;
    assert x == q * p + r;
    if q >= s { MulMono(s, q, p); }
    MulMono(r + 1, p, s);
    assert (r + 1) * s == r * s + s;
  }

  function Ch(x: Word, y: Word, z: Word): Word { Xor(And(x, y), And(Not(x), z)) }
  function Maj(x: Word, y: Word, z: Word): Word { Xor(Xor(And(x, y), And(x, z)), And(y, z)) }
  function BigSigma0(x: Word): Word { Xor(Xor(Rotr(x, 2), Rotr(x, 13)), Rotr(x, 22)) }
  function BigSigma1(x: Word): Word { Xor(Xor(Rotr(x, 6), Rotr(x, 11)), Rotr(x, 25)) }
  function SmallSigma0(x: Word): Word { Xor(Xor(Rotr(x, 7), Rotr(x, 18)), Shr(x, 3)) }
  function SmallSigma1(x: Word): Word { Xor(Xor(Rotr(x, 17), Rotr(x, 19)), Shr(x, 10)) }

  /** The constants of section 4.2.2, eight a row. */
  function Constants(row: nat): (r: seq<Word>)
    requires row < 8
    ensures |r| == 8
  {
    match row
    case 0 => [0x428a2f98, 0x71374491, 0xb5c0fbcf, 0xe9b5dba5, 0x3956c25b, 0x59f111f1, 0x923f82a4, 0xab1c5ed5]
    case 1 => [0xd807aa98, 0x12835b01, 0x243185be, 0x550c7dc3, 0x72be5d74, 0x80deb1fe, 0x9bdc06a7, 0xc19bf174]
    case 2 => [0xe49b69c1, 0xefbe4786, 0x0fc19dc6, 0x240ca1cc, 0x2de92c6f, 0x4a7484aa, 0x5cb0a9dc, 0x76f988da]
    case 3 => [0x983e5152, 0xa831c66d, 0xb00327c8, 0xbf597fc7, 0xc6e00bf3, 0xd5a79147, 0x06ca6351, 0x14292967]
    case 4 => [0x27b70a85, 0x2e1b2138, 0x4d2c6dfc, 0x53380d13, 0x650a7354, 0x766a0abb, 0x81c2c92e, 0x92722c85]
    case 5 => [0xa2bfe8a1, 0xa81a664b, 0xc24b8b70, 0xc76c51a3, 0xd192e819, 0xd6990624, 0xf40e3585, 0x106aa070]
    case 6 => [0x19a4c116, 0x1e376c08, 0x2748774c, 0x34b0bcb5, 0x391c0cb3, 0x4ed8aa4a, 0x5b9cca4f, 0x682e6ff3]
    case _ => [0x748f82ee, 0x78a5636f, 0x84c87814, 0x8cc70208, 0x90befffa, 0xa4506ceb, 0xbef9a3f7, 0xc67178f2]
  }

  function K(t: nat): Word
    requires t < 64
  {
    Constants(t / 8)[t % 8]
  }

  const INITIAL: seq<Word> := [
    0x6a09e667, 0xbb67ae85, 0x3c6ef372, 0xa54ff53a, 0x510e527f, 0x9b05688c, 0x1f83d9ab, 0x5be0cd19]

  /** The message schedule of one 512-bit block. */
  function Schedule(block: seq<Byte>, t: nat): Word
    requires |block| == 64 && t < 64
  {
    if t < 16 then
      block[4 * t] * 0x100_0000 + block[4 * t + 1] * 0x1_0000 + block[4 * t + 2] * 0x100 + block[4 * t + 3]
    else
      Plus(Plus(Plus(SmallSigma1(Schedule(block, t - 2)), Schedule(block, t - 7)),
                SmallSigma0(Schedule(block, t - 15))),
           Schedule(block, t - 16))
  }

  /** The eight working variables. */
  datatype Vars = Vars(a: Word, b: Word, c: Word, d: Word, e: Word, f: Word, g: Word, h: Word)

  function Round(v: Vars, k: Word, w: Word): Vars {
    var t1 := Plus(Plus(Plus(Plus(v.h, BigSigma1(v.e)), Ch(v.e, v.f, v.g)), k), w);
    var t2 := Plus(BigSigma0(v.a), Maj(v.a, v.b, v.c));
    Vars(Plus(t1, t2), v.a, v.b, v.c, Plus(v.d, t1), v.e, v.f, v.g)
  }

  function Rounds(v: Vars, block: seq<Byte>, t: nat): Vars
    requires |block| == 64 && t <= 64
  {
    if t == 0 then v else Round(Rounds(v, block, t - 1), K(t - 1), Schedule(block, t - 1))
  }

  function VarsOf(hash: seq<Word>): Vars
    requires |hash| == 8
  {
    Vars(hash[0], hash[1], hash[2], hash[3], hash[4], hash[5], hash[6], hash[7])
  }

  function Compress(hash: seq<Word>, block: seq<Byte>): (r: seq<Word>)
    requires |hash| == 8 && |block| == 64
    ensures |r| == 8
  {
    var v := Rounds(VarsOf(hash), block, 64);
    [Plus(hash[0], v.a), Plus(hash[1], v.b), Plus(hash[2], v.c), Plus(hash[3], v.d),
     Plus(hash[4], v.e), Plus(hash[5], v.f), Plus(hash[6], v.g), Plus(hash[7], v.h)]
  }

  /** The hash value after all blocks of a padded message. */
  function HashBlocks(data: seq<Byte>): (r: seq<Word>)
    requires |data| % 64 == 0
    ensures |r| == 8
  {
    if data == [] then INITIAL else Compress(HashBlocks(data[..|data| - 64]), data[|data| - 64..])
  }

  /** The smallest number of zero bytes that leaves room for the length at the end of a block. */
  function ZeroBytes(length: nat): nat {
    (119 - length % 64) % 64
  }

  lemma ZeroBytesIsLeast(length: nat)
    ensures (length + 1 + ZeroBytes(length)) % 64 == 56 && 0 <= ZeroBytes(length) < 64
  {}

  function BigEndian(value: nat, bytes: nat): (r: seq<Byte>)
    ensures |r| == bytes
  {
    if bytes == 0 then [] else BigEndian(value / 0x100, bytes - 1) + [value % 0x100]
  }

  function Zeros(n: nat): (r: seq<Byte>)
    ensures |r| == n && forall i :: 0 <= i < n ==> r[i] == 0
  {
    seq(n, i => 0)
  }

  function Padded(message: seq<Byte>): seq<Byte> {
    message + [0x80] + Zeros(ZeroBytes(|message|)) + BigEndian(8 * |message|, 8)
  }

  lemma PaddedIsWhole(message: seq<Byte>)
    ensures |Padded(message)| % 64 == 0
  {
    ZeroBytesIsLeast(|message|);
    EightMore(|message| + 1 + ZeroBytes(|message|));
    hide ZeroBytes, Zeros, BigEndian;
  }

  lemma EightMore(n: nat)
    requires n % 64 == 56
    ensures (n + 8) % 64 == 0
  {}

  function Sha256(message: seq<Byte>): (r: seq<Word>)
    ensures |r| == 8
  {
    PaddedIsWhole(message);
    HashBlocks(Padded(message))
  }

  /** The digest as text: eight hexadecimal digits a word. */
  function Digit(d: nat): char
    requires d < 16
  {
    "0123456789abcdef"[d]
  }

  function Digits(value: nat, n: nat): (r: string)
    ensures |r| == n
  {
    if n == 0 then "" else Digits(value / 16, n - 1) + [Digit(value % 16)]
  }

  function Text(words: seq<Word>): string {
    if words == [] then "" else Digits(words[0], 8) + Text(words[1..])
  }
}
