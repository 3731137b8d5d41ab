/** SHA-256 (backends/cpu/sha256.cpp) against FIPS 180-4: the padding of
    sections 5.1.1 and 5.2.1, and the hash computation of section 6.2.2. The
    loops are written for any word operations; STANDARD and PROGRAM are the
    32-bit ones of the standard and of the code. */
module Sha256 {
  import opened Bytes

  datatype Word = Word(bits: bv32)

  datatype Words = Words(a: Word, b: Word, c: Word, d: Word, e: Word, f: Word, g: Word, h: Word)

  datatype Ops = Ops(
    plus: (Word, Word) -> Word, sum4: (Word, Word, Word, Word) -> Word, sum0: Word -> Word, sum1: Word -> Word,
    sched0: Word -> Word, sched1: Word -> Word, ch: (Word, Word, Word) -> Word, maj: (Word, Word, Word) -> Word,
    load: (Byte, Byte, Byte, Byte) -> Word, k: seq<Word>, h0: Words)

  // ---- The standard ----

  function WordAt(o: Ops, block: seq<Byte>, t: nat): Word
    requires 4 * t + 4 <= |block|
  {
    o.load(block[4 * t], block[4 * t + 1], block[4 * t + 2], block[4 * t + 3])
  }

  /** The message schedule, section 6.2.2 step 1. */
  function Schedule(o: Ops, block: seq<Byte>, t: nat): Word
    requires |block| == 64 && t < 64
  {
    if t < 16 then WordAt(o, block, t)
    else o.sum4(o.sched1(Schedule(o, block, t - 2)), Schedule(o, block, t - 7),
                o.sched0(Schedule(o, block, t - 15)), Schedule(o, block, t - 16))
  }

  /** Section 6.2.2 step 3. */
  function Round(o: Ops, v: Words, k: Word, w: Word): Words {
    var t1 := o.plus(o.plus(o.plus(o.plus(v.h, o.sum1(v.e)), o.ch(v.e, v.f, v.g)), k), w);
    var t2 := o.plus(o.sum0(v.a), o.maj(v.a, v.b, v.c));
    Words(o.plus(t1, t2), v.a, v.b, v.c, o.plus(v.d, t1), v.e, v.f, v.g)
  }

  function Rounds(o: Ops, v: Words, block: seq<Byte>, n: nat): Words
    requires |block| == 64 && n <= 64 == |o.k|
  {
    if n == 0 then v else Round(o, Rounds(o, v, block, n - 1), o.k[n - 1], Schedule(o, block, n - 1))
  }

  function AddWords(o: Ops, u: Words, v: Words): Words {
    Words(o.plus(u.a, v.a), o.plus(u.b, v.b), o.plus(u.c, v.c), o.plus(u.d, v.d),
          o.plus(u.e, v.e), o.plus(u.f, v.f), o.plus(u.g, v.g), o.plus(u.h, v.h))
  }

  function Compress(o: Ops, hv: Words, block: seq<Byte>): Words
    requires |block| == 64 && |o.k| == 64
  {
    AddWords(o, hv, Rounds(o, hv, block, 64))
  }

  /** The hash value after the first n blocks. */
  function HashBlocks(o: Ops, data: seq<Byte>, n: nat): Words
    requires 64 * n <= |data| && |o.k| == 64
  {
    if n == 0 then o.h0 else Compress(o, HashBlocks(o, data, n - 1), data[64 * (n - 1)..64 * n])
  }

  /** n zero bytes. */
  function Zeros(n: nat): (z: seq<Byte>)
    ensures |z| == n && forall i | 0 <= i < n :: z[i] == 0
  {
    seq(n, _ => 0)
  }

  /** v in n bytes, most significant first. */
  function Be(n: nat, v: nat): (s: seq<Byte>)
    ensures |s| == n
  {
    if n == 0 then [] else Be(n - 1, v / 256) + [v % 256]
  }

  /** Zero bytes behind the 0x80 byte: with the seven low bits of that byte they
      are the k zero bits of the standard. */
  function ZeroBytes(len: nat): nat {
    (119 - len % 64) % 64
  }

  function Padded(msg: seq<Byte>): seq<Byte> {
    msg + [0x80] + Zeros(ZeroBytes(|msg|)) + Be(8, 8 * |msg|)
  }

  function Digest(o: Ops, msg: seq<Byte>): Words
    requires |o.k| == 64
  {
    PaddedWhole(msg);
    HashBlocks(o, Padded(msg), |Padded(msg)| / 64)
  }

  /** k = 8 * ZeroBytes + 7 is the smallest non-negative solution of
      l + 1 + k = 448 mod 512, and the padded message is whole blocks. */
  lemma PaddingLeast(len: nat, k: nat)
    ensures (8 * len + 1 + (8 * ZeroBytes(len) + 7)) % 512 == 448
    ensures k < 8 * ZeroBytes(len) + 7 ==> (8 * len + 1 + k) % 512 != 448
    ensures (len + 1 + ZeroBytes(len) + 8) % 64 == 0
  {
    var q, r := len / 64, len % 64;
    var z := if r <= 55 then 55 - r else 119 - r;
    assert ZeroBytes(len) == z;
    ModUnique(8 * len + 1 + (8 * z + 7), 512, if r <= 55 then q else q + 1, 448);
    ModUnique(len + 1 + z + 8, 64, if r <= 55 then q + 1 else q + 2, 0);
    if k < 8 * z + 7 {
      var s := 8 * r + 1 + k;
      assert 8 * len + 1 + k == 512 * q + s;
      if s < 512 {
        ModUnique(8 * len + 1 + k, 512, q, s);
      } else {
        ModUnique(8 * len + 1 + k, 512, q + 1, s - 512);
      }
    }
  }

  lemma PaddedWhole(msg: seq<Byte>)
    ensures |Padded(msg)| == |msg| + ZeroBytes(|msg|) + 9 && |Padded(msg)| % 64 == 0
  {
    PaddingLeast(|msg|, 0);
  }

  // ---- The program ----

  method ProcessBlock(o: Ops, p: seq<Byte>, hv: Words) returns (r: Words)
    requires |p| == 64 && |o.k| == 64
    ensures r == Compress(o, hv, p)
  {
    var w := FillSchedule(o, p);
    var a, b, c, d, e, f, g, h := hv.a, hv.b, hv.c, hv.d, hv.e, hv.f, hv.g, hv.h;
    var i := 0;
    while i < 64
      invariant i <= 64 && Words(a, b, c, d, e, f, g, h) == Rounds(o, hv, p, i)
    {
      var t1 := o.plus(o.plus(o.plus(o.plus(h, o.sum1(e)), o.ch(e, f, g)), o.k[i]), w[i]);
      var t2 := o.plus(o.sum0(a), o.maj(a, b, c));
      h := g;
      g := f;
      f := e;
      e := o.plus(d, t1);
      d := c;
      c := b;
      b := a;
      a := o.plus(t1, t2);
      i := i + 1;
    }
    r := AddWords(o, hv, Words(a, b, c, d, e, f, g, h));
  }

  method FillSchedule(o: Ops, p: seq<Byte>) returns (w: array<Word>)
    requires |p| == 64 && |o.k| == 64
    ensures fresh(w) && w.Length == 64 && forall t | 0 <= t < 64 :: w[t] == Schedule(o, p, t)
  {
    w := new Word[64];
    var i := 0;
    while i < 16
      invariant i <= 16 && forall t | 0 <= t < i :: w[t] == Schedule(o, p, t)
    {
      w[i] := o.load(p[i * 4], p[i * 4 + 1], p[i * 4 + 2], p[i * 4 + 3]);
      i := i + 1;
    }
    while i < 64
      invariant 16 <= i <= 64 && forall t | 0 <= t < i :: w[t] == Schedule(o, p, t)
    {
      w[i] := o.sum4(o.sched1(w[i - 2]), w[i - 7], o.sched0(w[i - 15]), w[i - 16]);
      i := i + 1;
    }
  }

  ghost predicate PartOf(whole: seq<Byte>, at: nat, part: seq<Byte>, n: nat) {
    64 * n <= |part| && 64 * at + 64 * n <= |whole| && whole[64 * at..64 * at + 64 * n] == part[..64 * n]
  }

  ghost predicate Link(o: Ops, whole: seq<Byte>, hs: seq<Words>, k: nat) {
    |o.k| == 64 && k < |hs| && 64 * k <= |whole| && hs[k] == HashBlocks(o, whole, k)
  }

  /** hs lists the hash values after 0, 1, 2, ... blocks of the padded message. */
  ghost predicate Chain(o: Ops, whole: seq<Byte>, hs: seq<Words>) {
    |o.k| == 64 && |hs| == |whole| / 64 + 1 &&
    forall k {:trigger Link(o, whole, hs, k)} | 0 <= k < |hs| :: Link(o, whole, hs, k)
  }

  lemma MakeChain(o: Ops, whole: seq<Byte>) returns (hs: seq<Words>)
    requires |o.k| == 64
    ensures Chain(o, whole, hs)
  {
    hs := seq(|whole| / 64 + 1, k requires 0 <= k < |whole| / 64 + 1 => HashBlocks(o, whole, k));
  }

  /** Hash n more blocks, which are those from index `at` on of the padded message. */
  method HashMore(o: Ops, ghost whole: seq<Byte>, ghost hs: seq<Words>, ghost at: nat, part: seq<Byte>, n: nat,
      hv: Words)
      returns (h: Words)
    requires Chain(o, whole, hs) && PartOf(whole, at, part, n) && hv == hs[at]
    ensures h == hs[at + n]
  {
    h := hv;
    var i := 0;
    while i < n
      invariant i <= n && h == hs[at + i]
    {
      h := HashOne(o, whole, hs, at, part, n, i, h);
      i := i + 1;
    }
  }

  method HashOne(o: Ops, ghost whole: seq<Byte>, ghost hs: seq<Words>, ghost at: nat, part: seq<Byte>, ghost n: nat,
                 i: nat, hv: Words)
      returns (h: Words)
    requires Chain(o, whole, hs) && PartOf(whole, at, part, n) && i < n && hv == hs[at + i]
    ensures h == hs[at + i + 1]
  {
    assert Link(o, whole, hs, at + i) && Link(o, whole, hs, at + i + 1);
    SameBlock(whole, part, at, n, i);
    BlockStep(o, whole, at + i, part[i * 64..i * 64 + 64]);
    h := ProcessBlock(o, part[i * 64..i * 64 + 64], hv);
  }

  lemma BlockStep(o: Ops, whole: seq<Byte>, k: nat, block: seq<Byte>)
    requires |o.k| == 64 && 64 * (k + 1) <= |whole| && block == whole[64 * k..64 * (k + 1)]
    ensures HashBlocks(o, whole, k + 1) == Compress(o, HashBlocks(o, whole, k), block)
  {
  }

  lemma SameBlock(whole: seq<Byte>, part: seq<Byte>, at: nat, n: nat, i: nat)
    requires i < n && 64 * n <= |part| && 64 * at + 64 * n <= |whole|
    requires whole[64 * at..64 * at + 64 * n] == part[..64 * n]
    ensures whole[64 * (at + i)..64 * (at + i + 1)] == part[i * 64..i * 64 + 64]
  {
    SliceOfSlice(whole, 64 * at, 64 * at + 64 * n, 64 * i);
    SliceOfSlice(part, 0, 64 * n, 64 * i);
  }

  lemma SliceOfSlice(s: seq<Byte>, lo: nat, hi: nat, a: nat)
    requires lo <= hi <= |s| && a + 64 <= hi - lo
    ensures s[lo..hi][a..a + 64] == s[lo + a..lo + a + 64]
  {
    var t := s[lo..hi][a..a + 64];
    assert forall k | 0 <= k < 64 :: t[k] == s[lo + a + k];
  }

  /** The eight words of the digest of a message shorter than 2^61 bytes. */
  method Hash(o: Ops, data: seq<Byte>) returns (h: Words)
    requires |data| < 0x2000_0000_0000_0000 && |o.k| == 64
    ensures h == Digest(o, data)
  {
    ghost var whole := Padded(data);
    ghost var hs := MakeChain(o, whole);
    ChainStarts(o, whole, hs);
    var full := |data| / 64;
    FullPart(data, full);
    h := HashMore(o, whole, hs, 0, data, full, o.h0);
    var tail, padded := BuildTail(data);
    TailPart(data, full, tail[..padded]);
    h := HashMore(o, whole, hs, full, tail[..padded], padded / 64, h);
    ChainEnds(o, data, hs);
  }

  lemma FullPart(data: seq<Byte>, full: nat)
    requires full == |data| / 64
    ensures PartOf(Padded(data), 0, data, full)
  {
    PaddedStarts(data);
    assert Padded(data)[0..64 * full] == Padded(data)[..64 * full];
  }

  lemma TailPart(data: seq<Byte>, full: nat, tail: seq<Byte>)
    requires full == |data| / 64 && |tail| in {64, 128} && 64 * full + |tail| == |Padded(data)|
    requires tail == Padded(data)[64 * full..]
    ensures PartOf(Padded(data), full, tail, |tail| / 64) && full + |tail| / 64 == |Padded(data)| / 64
  {
    assert tail[..|tail|] == tail;
  }

  lemma ChainStarts(o: Ops, whole: seq<Byte>, hs: seq<Words>)
    requires Chain(o, whole, hs)
    ensures hs[0] == o.h0
  {
    assert Link(o, whole, hs, 0);
  }

  lemma ChainEnds(o: Ops, data: seq<Byte>, hs: seq<Words>)
    requires Chain(o, Padded(data), hs)
    ensures hs[|hs| - 1] == Digest(o, data)
  {
    assert Link(o, Padded(data), hs, |hs| - 1);
  }

  lemma PaddedStarts(data: seq<Byte>)
    ensures |Padded(data)| > |data| && forall n | 0 <= n <= |data| :: Padded(data)[..n] == data[..n]
  {
  }

  /** The last partial block, the 0x80 byte, zeros, and the bit length. */
  method BuildTail(data: seq<Byte>) returns (tail: array<Byte>, padded: nat)
    requires |data| < 0x2000_0000_0000_0000
    ensures fresh(tail) && tail.Length == 128 && padded in {64, 128}
    ensures |data| / 64 * 64 + padded == |Padded(data)|
    ensures tail[..padded] == Padded(data)[|data| / 64 * 64..]
  {
    tail := new Byte[128];
    var full := |data| / 64;
    var rem := |data| - full * 64;
    forall k | 0 <= k < rem {
      tail[k] := data[full * 64 + k];
    }
    tail[rem] := 0x80;
    padded := if rem + 9 <= 64 then 64 else 128;
    forall k | rem + 1 <= k < padded {
      tail[k] := 0;
    }
    var bits := (|data| * 8) % 0x1_0000_0000_0000_0000;
    var i := 0;
    while i < 8
      invariant i <= 8
      invariant forall k | 0 <= k < rem :: tail[k] == data[full * 64 + k]
      invariant tail[rem] == 0x80 && forall k | rem < k < padded - 8 :: tail[k] == 0
      invariant forall k | 0 <= k < i :: tail[padded - 1 - k] == Shr8(bits, k) % 256
    {
      tail[padded - 1 - i] := Shr8(bits, i) % 256;
      i := i + 1;
    }
    TailIsPadding(data, tail[..padded], rem, padded);
  }

  lemma {:induction false} BeAt(n: nat, v: nat, k: nat)
    requires k < n
    ensures Be(n, v)[n - 1 - k] == Shr8(v, k) % 256
    decreases n
  {
    if k > 0 {
      BeAt(n - 1, v / 256, k - 1);
      ShrFront(v, k - 1);
    }
  }

  lemma {:induction false} ShrFront(v: nat, k: nat)
    ensures Shr8(v / 256, k) == Shr8(v, k + 1)
  {
    if k > 0 {
      ShrFront(v, k - 1);
    }
  }

  lemma TailIsPadding(data: seq<Byte>, tail: seq<Byte>, rem: nat, padded: nat)
    requires |tail| == padded && rem == |data| - |data| / 64 * 64 && padded == if rem + 9 <= 64 then 64 else 128
    requires forall k | 0 <= k < rem :: tail[k] == data[|data| / 64 * 64 + k]
    requires tail[rem] == 0x80 && forall k | rem < k < padded - 8 :: tail[k] == 0
    requires forall k | 0 <= k < 8 :: tail[padded - 1 - k] == Shr8(8 * |data|, k) % 256
    ensures |data| / 64 * 64 + padded == |Padded(data)|
    ensures tail == Padded(data)[|data| / 64 * 64..]
  {
    PaddedWhole(data);
    var off := |data| / 64 * 64;
    TailZeros(|data|, rem, padded);
    var be := Be(8, 8 * |data|);
    forall j | 0 <= j < 8
      ensures tail[padded - 8 + j] == be[j]
    {
      BeAt(8, 8 * |data|, 7 - j);
      assert tail[padded - 1 - (7 - j)] == be[j];
    }
    Pieces(tail, rem, padded, data[off..], Zeros(padded - rem - 9), be);
    FromBlock(data, off, [0x80], Zeros(padded - rem - 9), be);
  }

  lemma TailZeros(len: nat, rem: nat, padded: nat)
    requires rem == len - len / 64 * 64 && padded == if rem + 9 <= 64 then 64 else 128
    ensures rem == len % 64 && ZeroBytes(len) == padded - rem - 9
  {
  }

  lemma FromBlock(data: seq<Byte>, off: nat, one: seq<Byte>, z: seq<Byte>, be: seq<Byte>)
    requires off <= |data|
    ensures (data + one + z + be)[off..] == data[off..] + one + z + be
  {
  }

  lemma Pieces(tail: seq<Byte>, rem: nat, padded: nat, m: seq<Byte>, z: seq<Byte>, be: seq<Byte>)
    requires |m| == rem && |z| == padded - rem - 9 >= 0 && |be| == 8 && |tail| == padded
    requires forall k | 0 <= k < rem :: tail[k] == m[k]
    requires tail[rem] == 0x80 && forall k | rem < k < padded - 8 :: tail[k] == 0
    requires forall i | 0 <= i < |z| :: z[i] == 0
    requires forall j | 0 <= j < 8 :: tail[padded - 8 + j] == be[j]
    ensures tail == m + [0x80] + z + be
  {
    forall k | padded - 8 <= k < padded
      ensures tail[k] == be[k - (padded - 8)]
    {
      assert tail[padded - 8 + (k - (padded - 8))] == be[k - (padded - 8)];
    }
  }

  // ---- 32-bit words ----

  /** The constants of section 4.2.2, eight to a row. */
  function KRow(row: nat): (k: seq<bv32>)
    ensures |k| == 8
  {
    match row
    case 0 => [0x428a2f98, 0x71374491, 0xb5c0fbcf, 0xe9b5dba5, 0x3956c25b, 0x59f111f1, 0x923f82a4, 0xab1c5ed5]
    case 1 => [0xd807aa98, 0x12835b01, 0x243185be, 0x550c7dc3, 0x72be5d74, 0x80deb1fe, 0x9bdc06a7, 0xc19bf174]
    case 2 => [0xe49b69c1, 0xefbe4786, 0x0fc19dc6, 0x240ca1cc, 0x2de92c6f, 0x4a7484aa, 0x5cb0a9dc, 0x76f988da]
    case 3 => [0x983e5152, 0xa831c66d, 0xb00327c8, 0xbf597fc7, 0xc6e00bf3, 0xd5a79147, 0x06ca6351, 0x14292967]
    case 4 => [0x27b70a85, 0x2e1b2138, 0x4d2c6dfc, 0x53380d13, 0x650a7354, 0x766a0abb, 0x81c2c92e, 0x92722c85]
    case 5 => [0xa2bfe8a1, 0xa81a664b, 0xc24b8b70, 0xc76c51a3, 0xd192e819, 0xd6990624, 0xf40e3585, 0x106aa070]
    case 6 => [0x19a4c116, 0x1e376c08, 0x2748774c, 0x34b0bcb5, 0x391c0cb3, 0x4ed8aa4a, 0x5b9cca4f, 0x682e6ff3]
    case _ => [0x748f82ee, 0x78a5636f, 0x84c87814, 0x8cc70208, 0x90befffa, 0xa4506ceb, 0xbef9a3f7, 0xc67178f2]
  }

  function Constants(): (k: seq<Word>)
    ensures |k| == 64
  {
    seq(64, i requires 0 <= i < 64 => Word(KRow(i / 8)[i % 8]))
  }

  const H0 := Words(Word(0x6a09e667), Word(0xbb67ae85), Word(0x3c6ef372), Word(0xa54ff53a),
                    Word(0x510e527f), Word(0x9b05688c), Word(0x1f83d9ab), Word(0x5be0cd19))

  function Plus(x: Word, y: Word): Word { Word(x.bits + y.bits) }

  /** Step 1 adds from the newest word to the oldest, the code the other way. */
  function InOrder(a: bv32, b: bv32, c: bv32, d: bv32): bv32 { a + b + c + d }

  function Sum4(a: Word, b: Word, c: Word, d: Word): Word { Word(InOrder(a.bits, b.bits, c.bits, d.bits)) }

  function RawSum4(a: bv32, b: bv32, c: bv32, d: bv32): (r: bv32)
    ensures r == InOrder(a, b, c, d)
  {
    d + c + b + a
  }

  function CodeSum4(a: Word, b: Word, c: Word, d: Word): Word {
    Word(RawSum4(a.bits, b.bits, c.bits, d.bits))
  }

  function Ch(x: Word, y: Word, z: Word): Word { Word((x.bits & y.bits) ^ (!x.bits & z.bits)) }

  function Maj(x: Word, y: Word, z: Word): Word { Word((x.bits & y.bits) ^ (x.bits & z.bits) ^ (y.bits & z.bits)) }

  /** Four bytes, the most significant first. */
  function Load(p: Byte, q: Byte, r: Byte, s: Byte): Word {
    Word(((p as bv32) << 24) | ((q as bv32) << 16) | ((r as bv32) << 8) | (s as bv32))
  }

  /** The rotating functions of section 4.1.2. */
  function Rotations0(x: bv32): bv32 { x.RotateRight(2) ^ x.RotateRight(13) ^ x.RotateRight(22) }

  function Rotations1(x: bv32): bv32 { x.RotateRight(6) ^ x.RotateRight(11) ^ x.RotateRight(25) }

  function Spread0(x: bv32): bv32 { x.RotateRight(7) ^ x.RotateRight(18) ^ (x >> 3) }

  function Spread1(x: bv32): bv32 { x.RotateRight(17) ^ x.RotateRight(19) ^ (x >> 10) }

  function BigSigma0(x: Word): Word { Word(Rotations0(x.bits)) }

  function BigSigma1(x: Word): Word { Word(Rotations1(x.bits)) }

  function SmallSigma0(x: Word): Word { Word(Spread0(x.bits)) }

  function SmallSigma1(x: Word): Word { Word(Spread1(x.bits)) }

  /** The code's: rotr(x, n) is (x >> n) | (x << (32 - n)). */
  function RawSum0(x: bv32): (r: bv32)
    ensures r == Rotations0(x)
  {
    ((x >> 2) | (x << 30)) ^ ((x >> 13) | (x << 19)) ^ ((x >> 22) | (x << 10))
  }

  function RawSum1(x: bv32): (r: bv32)
    ensures r == Rotations1(x)
  {
    ((x >> 6) | (x << 26)) ^ ((x >> 11) | (x << 21)) ^ ((x >> 25) | (x << 7))
  }

  function RawSched0(x: bv32): (r: bv32)
    ensures r == Spread0(x)
  {
    ((x >> 7) | (x << 25)) ^ ((x >> 18) | (x << 14)) ^ (x >> 3)
  }

  function RawSched1(x: bv32): (r: bv32)
    ensures r == Spread1(x)
  {
    ((x >> 17) | (x << 15)) ^ ((x >> 19) | (x << 13)) ^ (x >> 10)
  }

  function CodeSum0(x: Word): Word { Word(RawSum0(x.bits)) }

  function CodeSum1(x: Word): Word { Word(RawSum1(x.bits)) }

  function CodeSched0(x: Word): Word { Word(RawSched0(x.bits)) }

  function CodeSched1(x: Word): Word { Word(RawSched1(x.bits)) }

  const STANDARD := Ops(Plus, Sum4, BigSigma0, BigSigma1, SmallSigma0, SmallSigma1, Ch, Maj, Load, Constants(), H0)

  const PROGRAM := Ops(Plus, CodeSum4, CodeSum0, CodeSum1, CodeSched0, CodeSched1, Ch, Maj, Load, Constants(), H0)

  ghost predicate Agree(o: Ops, u: Ops) {
    && o.k == u.k && o.h0 == u.h0
    && (forall x, y :: o.plus(x, y) == u.plus(x, y))
    && (forall a, b, c, d :: o.sum4(a, b, c, d) == u.sum4(a, b, c, d))
    && (forall x :: o.sum0(x) == u.sum0(x)) && (forall x :: o.sum1(x) == u.sum1(x))
    && (forall x :: o.sched0(x) == u.sched0(x)) && (forall x :: o.sched1(x) == u.sched1(x))
    && (forall x, y, z :: o.ch(x, y, z) == u.ch(x, y, z)) && (forall x, y, z :: o.maj(x, y, z) == u.maj(x, y, z))
    && (forall p, q, r, s :: o.load(p, q, r, s) == u.load(p, q, r, s))
  }

  lemma ProgramAgrees()
    ensures Agree(PROGRAM, STANDARD) && |PROGRAM.k| == 64
  {
  }

  lemma {:induction false} ScheduleAgrees(o: Ops, u: Ops, block: seq<Byte>, t: nat)
    requires Agree(o, u) && |block| == 64 && t < 64
    ensures Schedule(o, block, t) == Schedule(u, block, t)
  {
    if t >= 16 {
      ScheduleAgrees(o, u, block, t - 2);
      ScheduleAgrees(o, u, block, t - 7);
      ScheduleAgrees(o, u, block, t - 15);
      ScheduleAgrees(o, u, block, t - 16);
    }
  }

  lemma {:induction false} RoundsAgree(o: Ops, u: Ops, v: Words, block: seq<Byte>, n: nat)
    requires Agree(o, u) && |block| == 64 && n <= 64 == |o.k|
    ensures Rounds(o, v, block, n) == Rounds(u, v, block, n)
  {
    if n > 0 {
      RoundsAgree(o, u, v, block, n - 1);
      ScheduleAgrees(o, u, block, n - 1);
    }
  }

  lemma CompressAgrees(o: Ops, u: Ops, hv: Words, block: seq<Byte>)
    requires Agree(o, u) && |block| == 64 == |o.k|
    ensures Compress(o, hv, block) == Compress(u, hv, block)
  {
    RoundsAgree(o, u, hv, block, 64);
  }

  lemma {:induction false} BlocksAgree(o: Ops, u: Ops, data: seq<Byte>, n: nat)
    requires Agree(o, u) && 64 * n <= |data| && |o.k| == 64
    ensures HashBlocks(o, data, n) == HashBlocks(u, data, n)
  {
    if n > 0 {
      BlocksAgree(o, u, data, n - 1);
      var before, block := HashBlocks(o, data, n - 1), data[64 * (n - 1)..64 * n];
      CompressAgrees(o, u, before, block);
      assert HashBlocks(o, data, n) == Compress(o, before, block);
      assert HashBlocks(u, data, n) == Compress(u, before, block);
    }
  }

  /** The program's digest is the standard's. */
  method Sha256Words(data: seq<Byte>) returns (h: Words)
    requires |data| < 0x2000_0000_0000_0000
    ensures h == Digest(STANDARD, data)
  {
    ProgramAgrees();
    h := Hash(PROGRAM, data);
    PaddedWhole(data);
    BlocksAgree(PROGRAM, STANDARD, Padded(data), |Padded(data)| / 64);
  }
}
