/**
 Where the constants of SHA-256 come from: sections 4.2.2 and 5.3.3 of FIPS 180-4.
 */
module Fips180Constants {
  import opened Fips180

  /** The first sixty-four primes, eight a row. */
  function Primes(row: nat): (r: seq<nat>)
    requires row < 8
    ensures |r| == 8
  {
    match row
    case 0 => [2, 3, 5, 7, 11, 13, 17, 19]
    case 1 => [23, 29, 31, 37, 41, 43, 47, 53]
    case 2 => [59, 61, 67, 71, 73, 79, 83, 89]
    case 3 => [97, 101, 103, 107, 109, 113, 127, 131]
    case 4 => [137, 139, 149, 151, 157, 163, 167, 173]
    case 5 => [179, 181, 191, 193, 197, 199, 211, 223]
    case 6 => [227, 229, 233, 239, 241, 251, 257, 263]
    case _ => [269, 271, 277, 281, 283, 293, 307, 311]
  }

  /** `w` holds the first 32 bits of the fractional part of the cube root of `p`. */
  predicate CubeRoot(p: nat, w: Word) {
    var whole := if p < 8 then 1 else if p < 27 then 2 else if p < 64 then 3 else if p < 125 then 4
                 else if p < 216 then 5 else 6;
    var r := whole * TWO32 + w;
    r * r * r <= p * TWO32 * TWO32 * TWO32 < (r + 1) * (r + 1) * (r + 1)
  }

  /** `w` holds the first 32 bits of the fractional part of the square root of `p`. */
  predicate SquareRoot(p: nat, w: Word) {
    var whole := if p < 4 then 1 else if p < 9 then 2 else if p < 16 then 3 else 4;
    var r := whole * TWO32 + w;
    r * r <= p * TWO32 * TWO32 < (r + 1) * (r + 1)
  }

  lemma CubeRoots0()
    ensures CubeRoot(2, 0x428a2f98) && CubeRoot(3, 0x71374491)
    ensures CubeRoot(5, 0xb5c0fbcf) && CubeRoot(7, 0xe9b5dba5)
    ensures CubeRoot(11, 0x3956c25b) && CubeRoot(13, 0x59f111f1)
    ensures CubeRoot(17, 0x923f82a4) && CubeRoot(19, 0xab1c5ed5)
  {}

  lemma CubeRoots1()
    ensures CubeRoot(23, 0xd807aa98) && CubeRoot(29, 0x12835b01)
    ensures CubeRoot(31, 0x243185be) && CubeRoot(37, 0x550c7dc3)
    ensures CubeRoot(41, 0x72be5d74) && CubeRoot(43, 0x80deb1fe)
    ensures CubeRoot(47, 0x9bdc06a7) && CubeRoot(53, 0xc19bf174)
  {}

  lemma CubeRoots2()
    ensures CubeRoot(59, 0xe49b69c1) && CubeRoot(61, 0xefbe4786)
    ensures CubeRoot(67, 0x0fc19dc6) && CubeRoot(71, 0x240ca1cc)
    ensures CubeRoot(73, 0x2de92c6f) && CubeRoot(79, 0x4a7484aa)
    ensures CubeRoot(83, 0x5cb0a9dc) && CubeRoot(89, 0x76f988da)
  {}

  lemma CubeRoots3()
    ensures CubeRoot(97, 0x983e5152) && CubeRoot(101, 0xa831c66d)
    ensures CubeRoot(103, 0xb00327c8) && CubeRoot(107, 0xbf597fc7)
    ensures CubeRoot(109, 0xc6e00bf3) && CubeRoot(113, 0xd5a79147)
    ensures CubeRoot(127, 0x06ca6351) && CubeRoot(131, 0x14292967)
  {}

  lemma CubeRoots4()
    ensures CubeRoot(137, 0x27b70a85) && CubeRoot(139, 0x2e1b2138)
    ensures CubeRoot(149, 0x4d2c6dfc) && CubeRoot(151, 0x53380d13)
    ensures CubeRoot(157, 0x650a7354) && CubeRoot(163, 0x766a0abb)
    ensures CubeRoot(167, 0x81c2c92e) && CubeRoot(173, 0x92722c85)
  {}

  lemma CubeRoots5()
    ensures CubeRoot(179, 0xa2bfe8a1) && CubeRoot(181, 0xa81a664b)
    ensures CubeRoot(191, 0xc24b8b70) && CubeRoot(193, 0xc76c51a3)
    ensures CubeRoot(197, 0xd192e819) && CubeRoot(199, 0xd6990624)
    ensures CubeRoot(211, 0xf40e3585) && CubeRoot(223, 0x106aa070)
  {}

  lemma CubeRoots6()
    ensures CubeRoot(227, 0x19a4c116) && CubeRoot(229, 0x1e376c08)
    ensures CubeRoot(233, 0x2748774c) && CubeRoot(239, 0x34b0bcb5)
    ensures CubeRoot(241, 0x391c0cb3) && CubeRoot(251, 0x4ed8aa4a)
    ensures CubeRoot(257, 0x5b9cca4f) && CubeRoot(263, 0x682e6ff3)
  {}

  lemma CubeRoots7()
    ensures CubeRoot(269, 0x748f82ee) && CubeRoot(271, 0x78a5636f)
    ensures CubeRoot(277, 0x84c87814) && CubeRoot(281, 0x8cc70208)
    ensures CubeRoot(283, 0x90befffa) && CubeRoot(293, 0xa4506ceb)
    ensures CubeRoot(307, 0xbef9a3f7) && CubeRoot(311, 0xc67178f2)
  {}

  /** The constants of the rounds are the cube roots of the first sixty-four primes. */
  lemma ConstantsAreCubeRoots(row: nat, i: nat)
    requires row < 8 && i < 8
    ensures CubeRoot(Primes(row)[i], K(8 * row + i))
  {
    assert (8 * row + i) / 8 == row && (8 * row + i) % 8 == i;
    hide CubeRoot;
    match row
    case 0 => CubeRoots0();
    case 1 => CubeRoots1();
    case 2 => CubeRoots2();
    case 3 => CubeRoots3();
    case 4 => CubeRoots4();
    case 5 => CubeRoots5();
    case 6 => CubeRoots6();
    case _ => CubeRoots7();
  }

  lemma SquareRoots()
    ensures SquareRoot(2, 0x6a09e667) && SquareRoot(3, 0xbb67ae85)
    ensures SquareRoot(5, 0x3c6ef372) && SquareRoot(7, 0xa54ff53a)
    ensures SquareRoot(11, 0x510e527f) && SquareRoot(13, 0x9b05688c)
    ensures SquareRoot(17, 0x1f83d9ab) && SquareRoot(19, 0x5be0cd19)
  {}

  /** The initial hash value is the square roots of the first eight. */
  lemma InitialIsSquareRoots(i: nat)
    requires i < 8
    ensures SquareRoot(Primes(0)[i], INITIAL[i])
  {
    hide SquareRoot;
    SquareRoots();
  }
}
