/** Where the constants of SHA-256 come from (FIPS 180-4, sections 4.2.2 and
    5.3.3): bits of the roots of the first primes. */
module Sha256Constants {
  import opened Bytes
  import opened Sha256

  /** k is the first 32 bits of the fractional part of the cube root of p, whose
      whole part is r. */
  ghost predicate CubeRootBits(p: nat, r: nat, k: nat) {
    var n := r * 0x1_0000_0000 + k;
    k < 0x1_0000_0000 &&
    n * n * n <= p * 0x1_0000_0000 * 0x1_0000_0000 * 0x1_0000_0000 < (n + 1) * (n + 1) * (n + 1)
  }

  /** The same of the square root. */
  ghost predicate SquareRootBits(p: nat, r: nat, k: nat) {
    var n := r * 0x1_0000_0000 + k;
    k < 0x1_0000_0000 && n * n <= p * 0x1_0000_0000 * 0x1_0000_0000 < (n + 1) * (n + 1)
  }

  // ---- The constants of section 4.2.2: cube root bits of the first 64 primes ----

  lemma Cubes0()
    ensures KRow(0) == [0x428a2f98, 0x71374491, 0xb5c0fbcf, 0xe9b5dba5, 0x3956c25b, 0x59f111f1, 0x923f82a4, 0xab1c5ed5]
    ensures CubeRootBits(2, 1, 0x428a2f98) && CubeRootBits(3, 1, 0x71374491)
    ensures CubeRootBits(5, 1, 0xb5c0fbcf) && CubeRootBits(7, 1, 0xe9b5dba5)
    ensures CubeRootBits(11, 2, 0x3956c25b) && CubeRootBits(13, 2, 0x59f111f1)
    ensures CubeRootBits(17, 2, 0x923f82a4) && CubeRootBits(19, 2, 0xab1c5ed5)
  {
  }

  lemma Cubes1()
    ensures KRow(1) == [0xd807aa98, 0x12835b01, 0x243185be, 0x550c7dc3, 0x72be5d74, 0x80deb1fe, 0x9bdc06a7, 0xc19bf174]
    ensures CubeRootBits(23, 2, 0xd807aa98) && CubeRootBits(29, 3, 0x12835b01)
    ensures CubeRootBits(31, 3, 0x243185be) && CubeRootBits(37, 3, 0x550c7dc3)
    ensures CubeRootBits(41, 3, 0x72be5d74) && CubeRootBits(43, 3, 0x80deb1fe)
    ensures CubeRootBits(47, 3, 0x9bdc06a7) && CubeRootBits(53, 3, 0xc19bf174)
  {
  }

  lemma Cubes2()
    ensures KRow(2) == [0xe49b69c1, 0xefbe4786, 0x0fc19dc6, 0x240ca1cc, 0x2de92c6f, 0x4a7484aa, 0x5cb0a9dc, 0x76f988da]
    ensures CubeRootBits(59, 3, 0xe49b69c1) && CubeRootBits(61, 3, 0xefbe4786)
    ensures CubeRootBits(67, 4, 0x0fc19dc6) && CubeRootBits(71, 4, 0x240ca1cc)
    ensures CubeRootBits(73, 4, 0x2de92c6f) && CubeRootBits(79, 4, 0x4a7484aa)
    ensures CubeRootBits(83, 4, 0x5cb0a9dc) && CubeRootBits(89, 4, 0x76f988da)
  {
  }

  lemma Cubes3()
    ensures KRow(3) == [0x983e5152, 0xa831c66d, 0xb00327c8, 0xbf597fc7, 0xc6e00bf3, 0xd5a79147, 0x06ca6351, 0x14292967]
    ensures CubeRootBits(97, 4, 0x983e5152) && CubeRootBits(101, 4, 0xa831c66d)
    ensures CubeRootBits(103, 4, 0xb00327c8) && CubeRootBits(107, 4, 0xbf597fc7)
    ensures CubeRootBits(109, 4, 0xc6e00bf3) && CubeRootBits(113, 4, 0xd5a79147)
    ensures CubeRootBits(127, 5, 0x06ca6351) && CubeRootBits(131, 5, 0x14292967)
  {
  }

  lemma Cubes4()
    ensures KRow(4) == [0x27b70a85, 0x2e1b2138, 0x4d2c6dfc, 0x53380d13, 0x650a7354, 0x766a0abb, 0x81c2c92e, 0x92722c85]
    ensures CubeRootBits(137, 5, 0x27b70a85) && CubeRootBits(139, 5, 0x2e1b2138)
    ensures CubeRootBits(149, 5, 0x4d2c6dfc) && CubeRootBits(151, 5, 0x53380d13)
    ensures CubeRootBits(157, 5, 0x650a7354) && CubeRootBits(163, 5, 0x766a0abb)
    ensures CubeRootBits(167, 5, 0x81c2c92e) && CubeRootBits(173, 5, 0x92722c85)
  {
  }

  lemma Cubes5()
    ensures KRow(5) == [0xa2bfe8a1, 0xa81a664b, 0xc24b8b70, 0xc76c51a3, 0xd192e819, 0xd6990624, 0xf40e3585, 0x106aa070]
    ensures CubeRootBits(179, 5, 0xa2bfe8a1) && CubeRootBits(181, 5, 0xa81a664b)
    ensures CubeRootBits(191, 5, 0xc24b8b70) && CubeRootBits(193, 5, 0xc76c51a3)
    ensures CubeRootBits(197, 5, 0xd192e819) && CubeRootBits(199, 5, 0xd6990624)
    ensures CubeRootBits(211, 5, 0xf40e3585) && CubeRootBits(223, 6, 0x106aa070)
  {
  }

  lemma Cubes6()
    ensures KRow(6) == [0x19a4c116, 0x1e376c08, 0x2748774c, 0x34b0bcb5, 0x391c0cb3, 0x4ed8aa4a, 0x5b9cca4f, 0x682e6ff3]
    ensures CubeRootBits(227, 6, 0x19a4c116) && CubeRootBits(229, 6, 0x1e376c08)
    ensures CubeRootBits(233, 6, 0x2748774c) && CubeRootBits(239, 6, 0x34b0bcb5)
    ensures CubeRootBits(241, 6, 0x391c0cb3) && CubeRootBits(251, 6, 0x4ed8aa4a)
    ensures CubeRootBits(257, 6, 0x5b9cca4f) && CubeRootBits(263, 6, 0x682e6ff3)
  {
  }

  lemma Cubes7()
    ensures KRow(7) == [0x748f82ee, 0x78a5636f, 0x84c87814, 0x8cc70208, 0x90befffa, 0xa4506ceb, 0xbef9a3f7, 0xc67178f2]
    ensures CubeRootBits(269, 6, 0x748f82ee) && CubeRootBits(271, 6, 0x78a5636f)
    ensures CubeRootBits(277, 6, 0x84c87814) && CubeRootBits(281, 6, 0x8cc70208)
    ensures CubeRootBits(283, 6, 0x90befffa) && CubeRootBits(293, 6, 0xa4506ceb)
    ensures CubeRootBits(307, 6, 0xbef9a3f7) && CubeRootBits(311, 6, 0xc67178f2)
  {
  }

  /** The rows are listed one after the other. */
  lemma ConstantAt(row: nat, j: nat)
    requires row < 8 && j < 8
    ensures Constants()[8 * row + j] == Word(KRow(row)[j])
  {
    assert (8 * row + j) / 8 == row && (8 * row + j) % 8 == j;
  }

  /** The initial hash value of section 5.3.3 is square root bits of the first
      eight primes. */
  lemma SquareRoots()
    ensures H0 == Words(Word(0x6a09e667), Word(0xbb67ae85), Word(0x3c6ef372), Word(0xa54ff53a),
                        Word(0x510e527f), Word(0x9b05688c), Word(0x1f83d9ab), Word(0x5be0cd19))
    ensures SquareRootBits(2, 1, 0x6a09e667) && SquareRootBits(3, 1, 0xbb67ae85)
    ensures SquareRootBits(5, 2, 0x3c6ef372) && SquareRootBits(7, 2, 0xa54ff53a)
    ensures SquareRootBits(11, 3, 0x510e527f) && SquareRootBits(13, 3, 0x9b05688c)
    ensures SquareRootBits(17, 4, 0x1f83d9ab) && SquareRootBits(19, 4, 0x5be0cd19)
  {
  }

  // ---- The logical functions ----

  lemma ChoosesBits(x: bv32, y: bv32, z: bv32)
    ensures ((x & y) ^ (!x & z)) & x == y & x && ((x & y) ^ (!x & z)) & !x == z & !x
  {
  }

  /** Where the bits of x are 1 the choice is y, where they are 0 it is z. */
  lemma Chooses(x: Word, y: Word, z: Word)
    ensures Ch(x, y, z).bits & x.bits == y.bits & x.bits
    ensures Ch(x, y, z).bits & !x.bits == z.bits & !x.bits
  {
    ChoosesBits(x.bits, y.bits, z.bits);
  }

  lemma Distributes(x: bv32, y: bv32, z: bv32)
    ensures (x & z) ^ (y & z) == (x ^ y) & z
  {
  }

  lemma Outside(a: bv32, d: bv32, z: bv32)
    ensures (a ^ (d & z)) & !d == a & !d
  {
  }

  lemma WhereEqual(x: bv32, y: bv32)
    ensures (x & y) & !(x ^ y) == x & !(x ^ y)
  {
  }

  lemma Turned(a: bv32, b: bv32, c: bv32)
    ensures a ^ b ^ c == a ^ (b ^ c) == c ^ a ^ b
  {
  }

  lemma MajorityBits(x: bv32, y: bv32, z: bv32)
    ensures ((x & y) ^ (x & z) ^ (y & z)) & !(x ^ y) == x & !(x ^ y)
  {
    Turned(x & y, x & z, y & z);
    Distributes(x, y, z);
    Outside(x & y, x ^ y, z);
    WhereEqual(x, y);
  }

  lemma Commutes(x: bv32, y: bv32)
    ensures x & y == y & x
  {
  }

  lemma MajorityTurned(x: Word, y: Word, z: Word)
    ensures Maj(x, y, z) == Maj(y, z, x)
  {
    Turned(x.bits & y.bits, x.bits & z.bits, y.bits & z.bits);
    Commutes(x.bits, y.bits);
    Commutes(x.bits, z.bits);
  }

  /** Where the first two agree, the majority is what they are, and which two
      come first makes no difference. */
  lemma Majority(x: Word, y: Word, z: Word)
    ensures Maj(x, y, z).bits & !(x.bits ^ y.bits) == x.bits & !(x.bits ^ y.bits)
    ensures Maj(x, y, z) == Maj(y, z, x)
  {
    MajorityTurned(x, y, z);
    MajorityBits(x.bits, y.bits, z.bits);
  }
}
