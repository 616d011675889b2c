/**
 The streaming SHA-256 of the browser client: typed arrays changed in place, on JavaScript numbers.
 Its result is that of FIPS 180-4 for every file below 2^50 bytes.
 */
module FileSha256 {
  import opened Fips180

  // ----- JavaScript numbers -----

  const TWO31: int := 0x8000_0000
  const SAFE: int := 0x20_0000_0000_0000

  /** The conversions at the bitwise operators and on a store into a Uint32Array. */
  function ToUint32(x: int): Word { x % TWO32 }

  function ToInt32(x: int): (r: int)
    ensures -TWO31 <= r < TWO31 && ToUint32(r) == ToUint32(x)
  {
    var u := x % TWO32;
    if u >= TWO31 then u - TWO32 else u
  }

  /** Addition of doubles, exact as long as the sum is a safe integer. */
  function Sum(x: int, y: int): int
    requires -SAFE <= x + y <= SAFE
  {
    x + y
  }

  function BitOr(x: int, y: int): (r: int)
    ensures -TWO31 <= r < TWO31 && ToUint32(r) == Or(ToUint32(x), ToUint32(y))
  {
    ToInt32(Or(ToUint32(x), ToUint32(y)))
  }

  function BitAnd(x: int, y: int): (r: int)
    ensures -TWO31 <= r < TWO31 && ToUint32(r) == And(ToUint32(x), ToUint32(y))
  {
    ToInt32(And(ToUint32(x), ToUint32(y)))
  }

  function BitXor(x: int, y: int): (r: int)
    ensures -TWO31 <= r < TWO31 && ToUint32(r) == Xor(ToUint32(x), ToUint32(y))
  {
    ToInt32(Xor(ToUint32(x), ToUint32(y)))
  }

  function BitNot(x: int): int { -ToInt32(x) - 1 }

  function ShiftLeft(x: int, n: nat): int { ToInt32(ToInt32(x) * Pow2(n)) }

  function ShiftRight(x: int, n: nat): int { ToUint32(x) / Pow2(n) }

  function Rotate(word: int, bits: nat): int
    requires bits <= 32
  {
    BitOr(ShiftRight(word, bits), ShiftLeft(word, 32 - bits))
  }

  // ----- signed and exact arithmetic agrees with arithmetic on words -----

  lemma SumIsPlus(x: int, y: int)
    ensures ToUint32(x + y) == Plus(ToUint32(x), ToUint32(y))
  {}

  lemma NotIsNot(x: int)
    ensures ToUint32(BitNot(x)) == Not(ToUint32(x))
  {}

  lemma {:induction false} OrSwaps(x: nat, y: nat, n: nat)
    ensures Bitwise(OrBit, x, y, n) == Bitwise(OrBit, y, x, n)
  {
    if n > 0 { OrSwaps(x / 2, y / 2, n - 1); }
  }

  lemma {:induction false} OrOfZero(x: nat, n: nat)
    requires x < Pow2(n)
    ensures Bitwise(OrBit, x, 0, n) == x
  {
    if n > 0 { OrOfZero(x / 2, n - 1); }
  }

  /** Where the bits of two numbers do not overlap, OR adds. */
  lemma {:induction false} OrIsSum(m: nat, k: nat, y: nat, n: nat)
    requires k <= n && y < Pow2(k) && m * Pow2(k) < Pow2(n)
    ensures Bitwise(OrBit, m * Pow2(k), y, n) == m * Pow2(k) + y
  {
    if k == 0 {
      OrOfZero(m, n);
    } else {
      var x := m * Pow2(k - 1);
      assert m * Pow2(k) == 2 * x by { MulTwice(m, Pow2(k - 1)); }
      OrIsSum(m, k - 1, y / 2, n - 1);
    }
  }

  lemma MulTwice(m: nat, p: nat)
    ensures m * (2 * p) == 2 * (m * p)
  {}

  /** A shift to the left keeps what fits: the high part leaves, the low part moves up. */
  lemma ShiftedWord(x: Word, p: nat, s: nat)
    requires p > 0 && s > 0 && p * s == TWO32
    ensures x * s % TWO32 == x % p * s
  {
    var q, r := x / p, x % p;
    calc {
      x * s;
      { assert x == q * p + r; }
      (q * p + r) * s;
      { Distribute(q, p, r, s); }
      q * TWO32 + r * s;
    }
    SwapBound(x, p, s);
    assert 0 <= r * s < TWO32 by { MulMono(0, r, s); MulMono(r + 1, p, s); assert (r + 1) * s == r * s + s; }
    ModOfSum(q, r * s);
  }

  lemma Distribute(q: int, p: int, r: int, s: int)
    ensures (q * p + r) * s == q * (p * s) + r * s
  {}

  lemma ModOfSum(q: int, r: int)
    requires 0 <= r < TWO32
    ensures (q * TWO32 + r) % TWO32 == r
  {}

  lemma ModOfProduct(x: int, s: int)
    ensures ToUint32(ToInt32(x) * s) == ToUint32(ToUint32(x) * s)
  {
    var u, i := ToUint32(x), ToInt32(x);
    if i != u {
      assert i == u - TWO32;
      assert i * s == u * s - s * TWO32 by { Distribute(-1, TWO32, u, s); }
      var q, r := u * s / TWO32, u * s % TWO32;
      assert i * s == (q - s) * TWO32 + r by { Distribute(1, q - s, 0, TWO32); }
      ModOfSum(q - s, r);
    }
  }

  lemma HighPart(x: Word, n: nat)
    requires 0 < n < 32
    ensures ToUint32(ShiftLeft(x, 32 - n)) == x % Pow2(n) * Pow2(32 - n)
  {
    Pow2Of32();
    Pow2Split(n, 32 - n);
    hide Pow2;
    ShiftedWord(x, Pow2(n), Pow2(32 - n));
    ModOfProduct(x, Pow2(32 - n));
  }

  lemma {:induction false} LowPart(x: Word, n: nat)
    ensures ToUint32(ShiftRight(x, n)) == x / Pow2(n)
  {
    ShrBound(x, n);
  }

  lemma {:induction false} OrOfParts(high: Word, low: Word, m: nat, k: nat)
    requires k <= 32 && high == m * Pow2(k) && low < Pow2(k)
    ensures Or(high, low) == high + low && Or(low, high) == high + low
  {
    Pow2Of32();
    OrSwaps(low, high, 32);
    OrIsSum(m, k, low, 32);
  }

  lemma RotateIsRotr(x: Word, n: nat)
    requires 0 < n < 32
    ensures ToUint32(Rotate(x, n)) == Rotr(x, n)
  {
    hide Pow2, Or, ShiftLeft, ShiftRight;
    HighPart(x, n);
    LowPart(x, n);
    RotrBound(x, n);
    var high, low := ToUint32(ShiftLeft(x, 32 - n)), ToUint32(ShiftRight(x, n));
    RemainderIsNat(x, Pow2(n));
    OrOfParts(high, low, x % Pow2(n), 32 - n);
    assert Rotate(x, n) == ToInt32(Or(low, high));
    assert high + low == Rotr(x, n);
  }

  lemma RemainderIsNat(x: int, p: nat)
    requires p > 0
    ensures x % p >= 0
  {}

  lemma BytePowers()
    ensures Pow2(8) == 0x100 && Pow2(16) == 0x1_0000 && Pow2(24) == 0x100_0000
  {
    assert Pow2(4) == 16 && Pow2(12) == 0x1000 && Pow2(20) == 0x10_0000;
  }

  lemma {:induction false} ByteShifts(b: Byte, n: nat)
    requires n == 8 || n == 16 || n == 24
    ensures ToUint32(ShiftLeft(b, n)) == b * Pow2(n)
  {
    BytePowers();
    hide Pow2;
  }

  function Packed(b0: Byte, b1: Byte, b2: Byte, b3: Byte): int {
    BitOr(BitOr(BitOr(ShiftLeft(b0, 24), ShiftLeft(b1, 16)), ShiftLeft(b2, 8)), b3)
  }

  lemma {:induction false} OrStep(x: int, y: int, m: nat, k: nat)
    requires k <= 32 && ToUint32(x) == m * Pow2(k) && ToUint32(y) < Pow2(k)
    ensures ToUint32(BitOr(x, y)) == ToUint32(x) + ToUint32(y)
  {
    hide Or, Pow2;
    OrOfParts(ToUint32(x), ToUint32(y), m, k);
  }

  /** Four bytes read from the file are one big-endian word. */
  lemma PackedIsBigEndian(b0: Byte, b1: Byte, b2: Byte, b3: Byte)
    ensures ToUint32(Packed(b0, b1, b2, b3)) == b0 * 0x100_0000 + b1 * 0x1_0000 + b2 * 0x100 + b3
  {
    BytePowers();
    ByteShifts(b0, 24);
    ByteShifts(b1, 16);
    ByteShifts(b2, 8);
    IsWord(b3);
    hide Pow2, BitOr, ShiftLeft, ToUint32;
    var x := BitOr(ShiftLeft(b0, 24), ShiftLeft(b1, 16));
    OrStep(ShiftLeft(b0, 24), ShiftLeft(b1, 16), b0, 24);
    OrStep(x, ShiftLeft(b2, 8), b0 * 0x100 + b1, 16);
    OrStep(BitOr(x, ShiftLeft(b2, 8)), b3, b0 * 0x1_0000 + b1 * 0x100 + b2, 8);
  }

  lemma IsWord(x: Word)
    ensures ToUint32(x) == x
  {}

  // ----- one block -----

  function Mixed(x: int, y: int, z: int): (r: int)
    ensures -TWO31 <= r < TWO31
    ensures ToUint32(r) == Xor(Xor(ToUint32(x), ToUint32(y)), ToUint32(z))
  {
    hide Xor;
    BitXor(BitXor(x, y), z)
  }

  /** The sum that extends the message schedule. */
  function Extended(x: Word, y: Word, w16: Word, w7: Word): int {
    Sum(Sum(Sum(w16, Mixed(Rotate(x, 7), Rotate(x, 18), ShiftRight(x, 3))), w7),
        Mixed(Rotate(y, 17), Rotate(y, 19), ShiftRight(y, 10)))
  }

  lemma SmallSigmas(x: Word)
    ensures ToUint32(Mixed(Rotate(x, 7), Rotate(x, 18), ShiftRight(x, 3))) == SmallSigma0(x)
    ensures ToUint32(Mixed(Rotate(x, 17), Rotate(x, 19), ShiftRight(x, 10))) == SmallSigma1(x)
  {
    hide Mixed, Rotate, ShiftRight, Rotr, Pow2, Xor;
    RotateIsRotr(x, 7);
    RotateIsRotr(x, 18);
    RotateIsRotr(x, 17);
    RotateIsRotr(x, 19);
    LowPart(x, 3);
    LowPart(x, 10);
  }

  lemma BigSigmas(x: Word)
    ensures ToUint32(Mixed(Rotate(x, 2), Rotate(x, 13), Rotate(x, 22))) == BigSigma0(x)
    ensures ToUint32(Mixed(Rotate(x, 6), Rotate(x, 11), Rotate(x, 25))) == BigSigma1(x)
  {
    hide Mixed, Rotate, Rotr, Xor;
    RotateIsRotr(x, 2);
    RotateIsRotr(x, 13);
    RotateIsRotr(x, 22);
    RotateIsRotr(x, 6);
    RotateIsRotr(x, 11);
    RotateIsRotr(x, 25);
  }

  lemma ExtendedIsSchedule(x: Word, y: Word, w16: Word, w7: Word)
    ensures ToUint32(Extended(x, y, w16, w7)) == Plus(Plus(Plus(SmallSigma1(y), w7), SmallSigma0(x)), w16)
  {
    hide Mixed, Rotate, ShiftRight, SmallSigma0, SmallSigma1, ToUint32, Plus, Xor;
    SmallSigmas(x);
    SmallSigmas(y);
    IsWord(w16);
    IsWord(w7);
    var p, q := Mixed(Rotate(x, 7), Rotate(x, 18), ShiftRight(x, 3)),
                Mixed(Rotate(y, 17), Rotate(y, 19), ShiftRight(y, 10));
    SumIsPlus(w16 + p + w7, q);
    SumIsPlus(w16 + p, w7);
    SumIsPlus(w16, p);
    PlusReversed(w16, SmallSigma0(x), w7, SmallSigma1(y));
  }

  lemma PlusReversed(a: Word, b: Word, c: Word, d: Word)
    ensures Plus(Plus(Plus(a, b), c), d) == Plus(Plus(Plus(d, c), b), a)
  {
    hide Plus;
    PlusAssociates(Plus(a, b), c, d);
    PlusAssociates(a, b, Plus(c, d));
    PlusAssociates(Plus(c, d), b, a);
    PlusSwaps(c, d);
    PlusSwaps(a, b);
    PlusSwaps(Plus(a, b), Plus(c, d));
  }

  lemma PlusSwaps(a: Word, b: Word)
    ensures Plus(a, b) == Plus(b, a)
  {}

  lemma PlusWraps(a: Word, b: Word)
    ensures Plus(a, b) == if a + b < TWO32 then a + b else a + b - TWO32
  {}

  lemma PlusAssociates(a: Word, b: Word, c: Word)
    ensures Plus(Plus(a, b), c) == Plus(a, Plus(b, c))
  {
    hide Plus;
    PlusWraps(a, b);
    PlusWraps(b, c);
    PlusWraps(Plus(a, b), c);
    PlusWraps(a, Plus(b, c));
  }

  function Chosen(e: Word, f: Word, g: Word): (r: int)
    ensures -TWO31 <= r < TWO31 && ToUint32(r) == Ch(e, f, g)
  {
    NotIsNot(e);
    hide Xor, And, Not, BitNot;
    BitXor(BitAnd(e, f), BitAnd(BitNot(e), g))
  }

  function Majority(a: Word, b: Word, c: Word): (r: int)
    ensures -TWO31 <= r < TWO31 && ToUint32(r) == Maj(a, b, c)
  {
    hide Xor, And;
    Mixed(BitAnd(a, b), BitAnd(a, c), BitAnd(b, c))
  }

  function T1(h: Word, e: Word, f: Word, g: Word, k: Word, w: Word): (r: int)
    ensures -2 * TWO31 <= r < 8 * TWO31
  {
    Sum(Sum(Sum(Sum(h, Mixed(Rotate(e, 6), Rotate(e, 11), Rotate(e, 25))), Chosen(e, f, g)), k), w)
  }

  function T2(a: Word, b: Word, c: Word): (r: int)
    ensures -2 * TWO31 <= r < 2 * TWO31
  {
    Sum(Mixed(Rotate(a, 2), Rotate(a, 13), Rotate(a, 22)), Majority(a, b, c))
  }

  lemma T1IsPlus(h: Word, e: Word, f: Word, g: Word, k: Word, w: Word)
    ensures ToUint32(T1(h, e, f, g, k, w)) == Plus(Plus(Plus(Plus(h, BigSigma1(e)), Ch(e, f, g)), k), w)
  {
    hide Mixed, Rotate, BigSigma1, Ch, Chosen, ToUint32, Plus, Xor;
    BigSigmas(e);
    var p, q := Mixed(Rotate(e, 6), Rotate(e, 11), Rotate(e, 25)), Chosen(e, f, g);
    IsWord(h);
    IsWord(k);
    IsWord(w);
    SumIsPlus(h + p + q + k, w);
    SumIsPlus(h + p + q, k);
    SumIsPlus(h + p, q);
    SumIsPlus(h, p);
  }

  lemma T2IsPlus(a: Word, b: Word, c: Word)
    ensures ToUint32(T2(a, b, c)) == Plus(BigSigma0(a), Maj(a, b, c))
  {
    hide Mixed, Rotate, BigSigma0, Maj, Majority, ToUint32, Plus, Xor;
    BigSigmas(a);
    var p, q := Mixed(Rotate(a, 2), Rotate(a, 13), Rotate(a, 22)), Majority(a, b, c);
    SumIsPlus(p, q);
  }

  method FillWords(words: array<Word>, bytes: seq<Byte>, offset: nat)
    requires words.Length == 64 && offset + 64 <= |bytes|
    modifies words
    ensures forall i :: 0 <= i < 64 ==> words[i] == Schedule(bytes[offset..offset + 64], i)
  {
    hide Extended, Packed, SmallSigma0, SmallSigma1, Plus, ToUint32;
    ghost var data := bytes[offset..offset + 64];
    var index := 0;
    while index < 16
      invariant index <= 16
      invariant forall i :: 0 <= i < index ==> words[i] == Schedule(data, i)
    {
      var pos := offset + index * 4;
      words[index] := ToUint32(Packed(bytes[pos], bytes[pos + 1], bytes[pos + 2], bytes[pos + 3]));
      PackedIsBigEndian(bytes[pos], bytes[pos + 1], bytes[pos + 2], bytes[pos + 3]);
      index := index + 1;
    }
    while index < 64
      invariant 16 <= index <= 64
      invariant forall i :: 0 <= i < index ==> words[i] == Schedule(data, i)
    {
      var x, y := words[index - 15], words[index - 2];
      words[index] := ToUint32(Extended(x, y, words[index - 16], words[index - 7]));
      ExtendedIsSchedule(x, y, Schedule(data, index - 16), Schedule(data, index - 7));
      index := index + 1;
    }
  }

  method RunRounds(hash: seq<Word>, words: array<Word>, ghost data: seq<Byte>) returns (v: Vars)
    requires |hash| == 8 && words.Length == 64 && |data| == 64
    requires forall i :: 0 <= i < 64 ==> words[i] == Schedule(data, i)
    ensures v == Rounds(VarsOf(hash), data, 64)
  {
    hide BigSigma0, BigSigma1, Ch, Maj, Plus, T1, T2, Schedule, ToUint32, K;
    var a, b, c, d, e, f, g, h := hash[0], hash[1], hash[2], hash[3], hash[4], hash[5], hash[6], hash[7];
    var index := 0;
    while index < 64
      invariant index <= 64
      invariant Vars(a, b, c, d, e, f, g, h) == Rounds(VarsOf(hash), data, index)
    {
      var t1 := T1(h, e, f, g, K(index), words[index]);
      var t2 := T2(a, b, c);
      T1IsPlus(h, e, f, g, K(index), words[index]);
      T2IsPlus(a, b, c);
      SumIsPlus(d, t1);
      SumIsPlus(t1, t2);
      IsWord(d);
      h := g; g := f; f := e; e := ToUint32(Sum(d, t1)); d := c; c := b; b := a; a := ToUint32(Sum(t1, t2));
      index := index + 1;
    }
    v := Vars(a, b, c, d, e, f, g, h);
  }

  /** The value stored by `+=` into a Uint32Array. */
  function Bumped(x: Word, y: Word): (r: Word)
    ensures r == Plus(x, y)
  {
    ToUint32(Sum(x, y))
  }

  /** One 64-byte block, on the shared `state` and `words`. */
  method Block(state: array<Word>, words: array<Word>, bytes: seq<Byte>, offset: nat)
    requires state.Length == 8 && words.Length == 64 && state != words && offset + 64 <= |bytes|
    modifies state, words
    ensures state[..] == Compress(old(state[..]), bytes[offset..offset + 64])
  {
    hide Schedule, Rounds, Plus, Bumped;
    FillWords(words, bytes, offset);
    var v := RunRounds(state[..], words, bytes[offset..offset + 64]);
    state[0] := Bumped(state[0], v.a);
    state[1] := Bumped(state[1], v.b);
    state[2] := Bumped(state[2], v.c);
    state[3] := Bumped(state[3], v.d);
    state[4] := Bumped(state[4], v.e);
    state[5] := Bumped(state[5], v.f);
    state[6] := Bumped(state[6], v.g);
    state[7] := Bumped(state[7], v.h);
  }

  // ----- the stream -----

  const CHUNK: nat := 0x10_0000

  lemma NextBlock(data: seq<Byte>, n: nat)
    requires n % 64 == 0 && n + 64 <= |data|
    ensures |Hashed(data, n)| == 8 && Hashed(data, n + 64) == Compress(Hashed(data, n), data[n..n + 64])
  {
    hide Compress;
    var d := data[..n + 64];
    assert d != [] && |d| % 64 == 0;
    assert d[..|d| - 64] == data[..n] && d[|d| - 64..] == data[n..n + 64];
  }

  /** The hash value after the first `n` bytes, where these are whole blocks. */
  ghost function Hashed(data: seq<Byte>, n: nat): seq<Word> {
    if n <= |data| && n % 64 == 0 then HashBlocks(data[..n]) else []
  }

  lemma Slices(bytes: seq<Byte>, data: seq<Byte>, base: nat, at: nat)
    requires base + |bytes| <= |data| && bytes == data[base..base + |bytes|] && at + 64 <= |bytes|
    ensures bytes[at..at + 64] == data[base + at..base + at + 64]
  {
    var a, b := bytes[at..at + 64], data[base + at..base + at + 64];
    forall i | 0 <= i < 64 ensures a[i] == b[i] {
      assert bytes[at + i] == data[base + (at + i)];
    }
  }

  /** Compresses the blocks of `bytes` from `start` up to `stop`, the next ones of `data`. */
  method HashRange(state: array<Word>, words: array<Word>, bytes: seq<Byte>, start: nat, stop: nat,
                   ghost data: seq<Byte>, ghost base: nat)
    requires state.Length == 8 && words.Length == 64 && state != words
    requires start <= stop <= |bytes| && start % 64 == 0 && stop % 64 == 0 && base % 64 == 0
    requires base + |bytes| <= |data| && bytes == data[base..base + |bytes|]
    requires state[..] == Hashed(data, base + start)
    modifies state, words
    ensures state[..] == Hashed(data, base + stop)
  {
    hide Compress, Hashed;
    var at := start;
    while at < stop
      invariant start <= at <= stop && at % 64 == 0
      invariant state[..] == Hashed(data, base + at)
    {
      NextBlock(data, base + at);
      Slices(bytes, data, base, at);
      Block(state, words, bytes, at);
      at := at + 64;
    }
  }

  /** One chunk of the file, in parts of `cpuChunk` bytes between which the page may do other work. */
  method HashChunk(state: array<Word>, words: array<Word>, bytes: seq<Byte>, cpuChunk: nat,
                   ghost data: seq<Byte>, ghost base: nat) returns (full: nat)
    requires state.Length == 8 && words.Length == 64 && state != words
    requires cpuChunk > 0 && cpuChunk % 64 == 0 && base % 64 == 0
    requires base + |bytes| <= |data| && bytes == data[base..base + |bytes|]
    requires state[..] == Hashed(data, base)
    modifies state, words
    ensures full == Whole(|bytes|) && state[..] == Hashed(data, base + full)
  {
    hide Compress, Hashed;
    full := Whole(|bytes|);
    var part := 0;
    while part < full
      invariant part % 64 == 0
      invariant state[..] == Hashed(data, base + Least(part, full))
      decreases full - part
    {
      HashRange(state, words, bytes, part, Least(full, part + cpuChunk), data, base);
      part := part + cpuChunk;
    }
  }

  /** The bytes that fill whole blocks. */
  function Whole(n: nat): (r: nat)
    ensures r <= n
  {
    n - n % 64
  }

  function Least(a: nat, b: nat): nat { if a < b then a else b }

  /** The last one or two blocks: the tail, a one bit, zeros and the length in bits. */
  method Ending(tail: seq<Byte>, size: nat) returns (ending: array<Byte>)
    requires |tail| < 64 && 8 * size <= SAFE
    ensures fresh(ending) && ending.Length == (if |tail| < 56 then 64 else 128)
    ensures ending[..] == tail + [0x80] + Zeros(ending.Length - 9 - |tail|) + BigEndian(8 * size, 8)
  {
    hide BigEndian, ToUint32;
    var length := if |tail| < 56 then 64 else 128;
    ending := new Byte[length](_ => 0);
    var i := 0;
    while i < |tail|
      invariant i <= |tail| && ending[..i] == tail[..i]
      invariant forall j :: i <= j < length ==> ending[j] == 0
    {
      ending[i] := tail[i];
      i := i + 1;
    }
    assert ending[..|tail|] == tail;
    ending[|tail|] := 0x80;
    assert ending[..length - 8] == tail + [0x80] + Zeros(length - 9 - |tail|);
    var bits := 8 * size;
    StoreWord(ending, length - 8, bits / TWO32);
    assert ending[..length - 8] == tail + [0x80] + Zeros(length - 9 - |tail|);
    assert ending[..length - 4] == ending[..length - 8] + BigEndian(bits / TWO32, 4);
    StoreWord(ending, length - 4, ToUint32(bits));
    LengthBytes(bits);
    assert ending[..] == ending[..length - 4] + ending[length - 4..length];
  }

  /** A big-endian store of one word into a buffer. */
  method StoreWord(buffer: array<Byte>, at: nat, value: nat)
    requires at + 4 <= buffer.Length && value < TWO32
    modifies buffer
    ensures buffer[at..at + 4] == BigEndian(value, 4)
    ensures buffer[..at] == old(buffer[..at]) && buffer[at + 4..] == old(buffer[at + 4..])
  {
    buffer[at] := value / 0x100_0000;
    buffer[at + 1] := value / 0x1_0000 % 0x100;
    buffer[at + 2] := value / 0x100 % 0x100;
    buffer[at + 3] := value % 0x100;
    FourBytes(value);
  }

  lemma {:induction false} FourBytes(value: nat)
    requires value < TWO32
    ensures BigEndian(value, 4) == [value / 0x100_0000, value / 0x1_0000 % 0x100, value / 0x100 % 0x100, value % 0x100]
  {
    assert BigEndian(value / 0x100 / 0x100 / 0x100, 1) == [value / 0x100_0000];
    assert BigEndian(value / 0x100 / 0x100, 2) == [value / 0x100_0000, value / 0x1_0000 % 0x100];
    assert BigEndian(value / 0x100, 3) == [value / 0x100_0000, value / 0x1_0000 % 0x100, value / 0x100 % 0x100];
  }

  lemma {:induction false} LengthBytes(bits: nat)
    ensures BigEndian(bits, 8) == BigEndian(bits / TWO32, 4) + BigEndian(ToUint32(bits), 4)
  {
    var b1, b2, b3, b4 := bits / 0x100, bits / 0x100 / 0x100, bits / 0x100 / 0x100 / 0x100,
                          bits / 0x100 / 0x100 / 0x100 / 0x100;
    assert BigEndian(b3, 5) == BigEndian(b4, 4) + [b3 % 0x100];
    assert BigEndian(b2, 6) == BigEndian(b4, 4) + [b3 % 0x100, b2 % 0x100];
    assert BigEndian(b1, 7) == BigEndian(b4, 4) + [b3 % 0x100, b2 % 0x100, b1 % 0x100];
    assert BigEndian(bits, 8) == BigEndian(b4, 4) + [b3 % 0x100, b2 % 0x100, b1 % 0x100, bits % 0x100];
    FourBytes(ToUint32(bits));
    LowBytes(bits);
  }

  lemma LowBytes(v: nat)
    ensures var u := ToUint32(v);
            && u % 0x100 == v % 0x100 && u / 0x100 % 0x100 == v / 0x100 % 0x100
            && u / 0x1_0000 % 0x100 == v / 0x100 / 0x100 % 0x100
            && u / 0x100_0000 == v / 0x100 / 0x100 / 0x100 % 0x100
            && v / 0x100 / 0x100 / 0x100 / 0x100 == v / TWO32
  {
    var v1, v2, v3, v4 := v / 0x100, v / 0x100 / 0x100, v / 0x100 / 0x100 / 0x100, v / 0x100 / 0x100 / 0x100 / 0x100;
    Parts(v4, v3 % 0x100, v2 % 0x100, v1 % 0x100, v % 0x100);
  }

  lemma Parts(q: nat, b3: Byte, b2: Byte, b1: Byte, b0: Byte)
    ensures var v := q * TWO32 + b3 * 0x100_0000 + b2 * 0x1_0000 + b1 * 0x100 + b0; var u := ToUint32(v);
            && v / TWO32 == q && u == b3 * 0x100_0000 + b2 * 0x1_0000 + b1 * 0x100 + b0
            && u % 0x100 == b0 && u / 0x100 % 0x100 == b1 && u / 0x1_0000 % 0x100 == b2 && u / 0x100_0000 == b3
  {
    var low := b3 * 0x100_0000 + b2 * 0x1_0000 + b1 * 0x100 + b0;
    assert ToUint32(q * TWO32 + low) == low;
    assert low / 0x100 == b3 * 0x1_0000 + b2 * 0x100 + b1;
    assert low / 0x1_0000 == b3 * 0x100 + b2;
  }

  /** The padding of the standard is exactly what the last blocks hold. */
  lemma {:induction false} PaddedFrom(file: seq<Byte>, base: nat, ending: seq<Byte>, zeros: nat)
    requires base <= |file| && zeros == ZeroBytes(|file|)
    requires ending == file[base..] + [0x80] + Zeros(zeros) + BigEndian(8 * |file|, 8)
    ensures Padded(file) == file[..base] + ending
  {
    hide BigEndian, ZeroBytes, Zeros;
    Reassociate(file[..base], file[base..], [0x80], Zeros(zeros), BigEndian(8 * |file|, 8));
    assert file[..base] + file[base..] == file;
  }

  lemma ZeroCount(n: nat, r: nat)
    requires r == n - Whole(n)
    ensures r < 64 && ZeroBytes(n) == (if r < 56 then 64 else 128) - 9 - r
  {}

  lemma Reassociate(a: seq<Byte>, b: seq<Byte>, c: seq<Byte>, d: seq<Byte>, e: seq<Byte>)
    ensures a + b + c + d + e == a + (b + c + d + e)
  {}

  // ----- the digest as text -----

  function ToHex(value: nat): string {
    if value < 16 then [Digit(value)] else ToHex(value / 16) + [Digit(value % 16)]
  }

  function PadStart(s: string, n: nat): string {
    if |s| >= n then s else seq(n - |s|, i => '0') + s
  }

  lemma {:induction false} DigitsOfZero(n: nat)
    ensures Digits(0, n) == seq(n, i => '0')
  {
    if n > 0 { DigitsOfZero(n - 1); }
  }

  function Pow16(n: nat): nat { if n == 0 then 1 else 16 * Pow16(n - 1) }

  lemma {:induction false} PaddedHex(value: nat, n: nat)
    requires n > 0 && value < Pow16(n)
    ensures PadStart(ToHex(value), n) == Digits(value, n) && |ToHex(value)| <= n
  {
    if value < 16 {
      DigitsOfZero(n - 1);
    } else {
      assert n > 1 && value / 16 < Pow16(n - 1);
      hide Pow16, PadStart, Digit;
      PaddedHex(value / 16, n - 1);
      PadMore(ToHex(value / 16), Digit(value % 16), n);
    }
  }

  lemma PadMore(s: string, c: char, n: nat)
    requires |s| < n
    ensures PadStart(s + [c], n) == PadStart(s, n - 1) + [c]
  {}

  function HexText(words: seq<Word>): string {
    if words == [] then "" else PadStart(ToHex(words[0]), 8) + HexText(words[1..])
  }

  lemma {:induction false} HexTextIsText(words: seq<Word>)
    ensures HexText(words) == Text(words)
  {
    if words != [] {
      assert Pow16(8) == TWO32 by { assert Pow16(4) == 0x1_0000; }
      PaddedHex(words[0], 8);
      HexTextIsText(words[1..]);
    }
  }

  // ----- the whole file -----

  /** Chunks begin at block boundaries, so only the last one can leave a tail. */
  lemma Boundaries(offset: nat, size: nat)
    requires offset % CHUNK == 0 && offset <= size
    ensures offset % 64 == 0 && Whole(offset) == offset && (offset + CHUNK) % CHUNK == 0
            && Least(offset, size) == offset
    ensures var n := Least(size, offset + CHUNK); var next := Least(offset + CHUNK, size);
            && n == next && offset <= n <= size && (offset + CHUNK >= size ==> n == size)
            && Whole(next) == offset + Whole(n - offset)
  {
    var q := offset / CHUNK;
    assert offset == 64 * (0x4000 * q);
    WholeBlocks(0x4000 * q, Least(size, offset + CHUNK) - offset);
    assert offset + CHUNK == CHUNK * (q + 1);
  }

  lemma WholeIsWhole(n: nat)
    ensures Whole(n) % 64 == 0 && n - Whole(n) < 64
  {}

  lemma NothingWhole()
    ensures Whole(0) == 0
  {}

  lemma WholeBlocks(k: nat, n: nat)
    ensures 64 * k % 64 == 0 && (64 * k + n) % 64 == n % 64
  {}

  /** Reads the file chunk by chunk; the CPU chunk only decides where the page may do other work. */
  method HashChunks(state: array<Word>, words: array<Word>, file: seq<Byte>, cpuChunk: nat, ghost data: seq<Byte>)
    returns (tail: seq<Byte>)
    requires state.Length == 8 && words.Length == 64 && state != words
    requires cpuChunk > 0 && cpuChunk % 64 == 0 && file <= data && state[..] == Hashed(data, 0)
    modifies state, words
    ensures tail == file[Whole(|file|)..] && state[..] == Hashed(data, Whole(|file|))
  {
    hide Hashed, Least, Whole;
    tail := [];
    Boundaries(0, |file|);
    assert Whole(0) == 0 by { NothingWhole(); }
    var offset := 0;
    while offset < |file|
      invariant offset % CHUNK == 0
      invariant var done := Least(offset, |file|);
                done <= |file| && (offset >= |file| ==> done == |file|)
                && tail == file[Whole(done)..done] && state[..] == Hashed(data, Whole(done))
    {
      Boundaries(offset, |file|);
      var bytes := file[offset..Least(|file|, offset + CHUNK)];
      assert bytes == data[offset..offset + |bytes|];
      var full := HashChunk(state, words, bytes, cpuChunk, data, offset);
      tail := bytes[full..];
      offset := offset + CHUNK;
    }
  }

  /** For every file below 2^50 bytes and every CPU chunk, the text of its SHA-256. */
  method Sha256FileInThread(file: seq<Byte>, cpuChunk: nat) returns (text: string)
    requires 8 * |file| < SAFE && cpuChunk > 0 && cpuChunk % 64 == 0
    ensures text == Text(Sha256(file))
  {
    hide Hashed, Compress, BigEndian, Padded, HashBlocks, Text, HexText, ZeroBytes, Zeros, Whole;
    var state := new Word[8](i requires 0 <= i < 8 => INITIAL[i]);
    var words := new Word[64](_ => 0);
    ghost var data := Padded(file);
    assert state[..] == INITIAL;
    NoBytes(data);
    IsPrefix(file);
    var tail := HashChunks(state, words, file, cpuChunk, data);
    WholeIsWhole(|file|);
    var ending := Ending(tail, |file|);
    ghost var base := Whole(|file|);
    ZeroCount(|file|, |tail|);
    PaddedFrom(file, base, ending[..], ending.Length - 9 - |tail|);
    assert ending[..] == data[base..base + ending.Length];
    HashRange(state, words, ending[..], 0, ending.Length, data, base);
    AllBytes(data);
    HexTextIsText(state[..]);
    text := HexText(state[..]);
  }

  lemma IsPrefix(file: seq<Byte>)
    ensures file <= Padded(file) && |Padded(file)| % 64 == 0
  {
    hide BigEndian, Zeros, ZeroBytes;
    PaddedIsWhole(file);
  }

  lemma NoBytes(data: seq<Byte>)
    ensures Hashed(data, 0) == INITIAL
  {}

  lemma {:induction false} AllBytes(data: seq<Byte>)
    requires |data| % 64 == 0
    ensures Hashed(data, |data|) == HashBlocks(data)
  {
    hide HashBlocks;
    assert data[..|data|] == data;
  }
}
