/** Little-endian fields, written with the encoders' `put_*` functions and read
    with Python's `struct`: a struct format is the list of its field widths. */
module Bytes {
  type Byte = b: int | 0 <= b < 256
  type U8 = x: nat | x < 0x100
  type U32 = x: nat | x < 0x1_0000_0000
  type U64 = x: nat | x < 0x1_0000_0000_0000_0000
  type I32 = x: int | -0x8000_0000 <= x < 0x8000_0000
  type F32 = U32  // the bit pattern of a float
  type F64 = U64  // the bit pattern of a double

  function Pow256(n: nat): (p: nat)
    ensures p > 0
  {
    if n == 0 then 1 else 256 * Pow256(n - 1)
  }

  lemma Widths()
    ensures Pow256(0) == 1 && Pow256(1) == 0x100 && Pow256(2) == 0x1_0000 && Pow256(4) == 0x1_0000_0000
    ensures Pow256(8) == 0x1_0000_0000_0000_0000
  {
    assert Pow256(3) == 256 * Pow256(2);
    assert Pow256(5) == 256 * Pow256(4);
    assert Pow256(7) == 256 * Pow256(6);
  }

  /** v >> (8 * i) */
  function Shr8(v: nat, i: nat): nat {
    if i == 0 then v else Shr8(v, i - 1) / 256
  }

  /** The n low bytes of v, low byte first. */
  function Le(n: nat, v: nat): (s: seq<Byte>)
    ensures |s| == n
  {
    if n == 0 then [] else [v % 256] + Le(n - 1, v / 256)
  }

  function UnLe(s: seq<Byte>): nat {
    if s == [] then 0 else s[0] + 256 * UnLe(s[1..])
  }

  /** Reading back n bytes gives the value, cut to n bytes. */
  lemma {:induction false} UnLeLe(n: nat, v: nat)
    ensures UnLe(Le(n, v)) == v % Pow256(n)
    ensures v < Pow256(n) ==> UnLe(Le(n, v)) == v
  {
    if n > 0 {
      UnLeLe(n - 1, v / 256);
      assert Le(n, v)[1..] == Le(n - 1, v / 256);
      SplitMod(v, Pow256(n - 1));
    }
  }

  lemma SplitMod(v: nat, m: nat)
    requires m > 0
    ensures v % (256 * m) == v % 256 + 256 * (v / 256 % m)
  {
    var q, r := v / 256 / m, v / 256 % m;
    assert v == 256 * m * q + (256 * r + v % 256) by {
      assert v / 256 == m * q + r;
    }
    var low := 256 * r + v % 256;
    assert 0 <= low < 256 * m;
    ModUnique(v, 256 * m, q, low);
  }

  lemma ModUnique(v: nat, d: nat, q: nat, r: nat)
    requires d > 0 && r < d && v == d * q + r
    ensures v % d == r
  {
    MulBound(d, v / d - q);
    assert d * (v / d - q) == r - v % d;
  }

  lemma MulBound(d: nat, k: int)
    ensures k >= 1 ==> d * k >= d
    ensures k <= -1 ==> d * k + d <= 0
  {
  }

  /** An i32 is put as the u32 with the same bits. */
  function Bits(v: I32): U32 {
    if v < 0 then v + 0x1_0000_0000 else v
  }

  function Signed(u: nat): int {
    if u < 0x8000_0000 then u else u - 0x1_0000_0000
  }

  /** `put_u16(out, a); put_u32(out, b); ...` for the widths ws. */
  function Pack(ws: seq<nat>, vs: seq<nat>): seq<Byte> {
    if ws == [] || vs == [] then [] else Le(ws[0], vs[0]) + Pack(ws[1..], vs[1..])
  }

  function Size(ws: seq<nat>): nat {
    if ws == [] then 0 else ws[0] + Size(ws[1..])
  }

  /** Three fields put in front of a format. */
  lemma SizeFront(a: nat, b: nat, c: nat, rest: seq<nat>)
    ensures Size([a, b, c] + rest) == a + b + c + Size(rest)
  {
    assert ([a, b, c] + rest)[1..] == [b, c] + rest;
    assert ([b, c] + rest)[1..] == [c] + rest;
    assert ([c] + rest)[1..] == rest;
    assert Size([c] + rest) == c + Size(rest);
    assert Size([b, c] + rest) == b + Size([c] + rest);
  }

  /** struct.unpack_from with format ws at offset off. */
  function Unpack(ws: seq<nat>, body: seq<Byte>, off: nat): (vs: seq<nat>)
    requires off + Size(ws) <= |body|
    ensures |vs| == |ws|
  {
    if ws == [] then [] else [UnLe(body[off..off + ws[0]])] + Unpack(ws[1..], body, off + ws[0])
  }

  ghost predicate Fits(ws: seq<nat>, vs: seq<nat>) {
    |ws| == |vs| && forall i | 0 <= i < |ws| :: vs[i] < Pow256(ws[i])
  }

  lemma {:induction false} PackSize(ws: seq<nat>, vs: seq<nat>)
    requires |ws| == |vs|
    ensures |Pack(ws, vs)| == Size(ws)
  {
    if ws != [] {
      PackSize(ws[1..], vs[1..]);
    }
  }

  /** A packed struct reads back wherever it stands. */
  lemma {:induction false} UnpackPack(ws: seq<nat>, vs: seq<nat>, pre: seq<Byte>, post: seq<Byte>)
    requires Fits(ws, vs)
    ensures |pre| + Size(ws) <= |pre + Pack(ws, vs) + post|
    ensures Unpack(ws, pre + Pack(ws, vs) + post, |pre|) == vs
    decreases |ws|
  {
    PackSize(ws, vs);
    if ws != [] {
      var first := Le(ws[0], vs[0]);
      var body := pre + Pack(ws, vs) + post;
      UnpackPack(ws[1..], vs[1..], pre + first, post);
      assert body == (pre + first) + Pack(ws[1..], vs[1..]) + post;
      assert body[|pre|..|pre| + ws[0]] == first;
      UnLeLe(ws[0], vs[0]);
    }
  }

  lemma UnpackFirst(ws: seq<nat>, vs: seq<nat>, rest: seq<Byte>)
    requires Fits(ws, vs)
    ensures Size(ws) <= |Pack(ws, vs) + rest| && Unpack(ws, Pack(ws, vs) + rest, 0) == vs
  {
    UnpackPack(ws, vs, [], rest);
    assert [] + Pack(ws, vs) + rest == Pack(ws, vs) + rest;
  }

  /** Equal-width records one after the other. */
  function Items(ws: seq<nat>, rows: seq<seq<nat>>): seq<Byte> {
    if rows == [] then [] else Items(ws, rows[..|rows| - 1]) + Pack(ws, rows[|rows| - 1])
  }

  lemma {:induction false} ItemsSize(ws: seq<nat>, rows: seq<seq<nat>>)
    requires forall i | 0 <= i < |rows| :: |rows[i]| == |ws|
    ensures |Items(ws, rows)| == |rows| * Size(ws)
  {
    if rows != [] {
      ItemsSize(ws, rows[..|rows| - 1]);
      PackSize(ws, rows[|rows| - 1]);
      assert |rows| * Size(ws) == (|rows| - 1) * Size(ws) + Size(ws);
    }
  }

  /** Row i, with what stands before and after it. */
  lemma {:induction false} ItemsSplit(ws: seq<nat>, rows: seq<seq<nat>>, i: nat)
      returns (before: seq<Byte>, rest: seq<Byte>)
    requires i < |rows| && forall k | 0 <= k < |rows| :: |rows[k]| == |ws|
    ensures Items(ws, rows) == before + Pack(ws, rows[i]) + rest
    ensures |before| == i * Size(ws)
  {
    var shorter := rows[..|rows| - 1];
    if i == |rows| - 1 {
      before, rest := Items(ws, shorter), [];
      ItemsSize(ws, shorter);
    } else {
      var tail;
      before, tail := ItemsSplit(ws, shorter, i);
      rest := tail + Pack(ws, rows[|rows| - 1]);
    }
  }

  /** Row i of a table of equal-width records. */
  lemma UnpackItem(ws: seq<nat>, rows: seq<seq<nat>>, i: nat, pre: seq<Byte>, post: seq<Byte>)
    requires i < |rows| && (forall k | 0 <= k < |rows| :: |rows[k]| == |ws|) && Fits(ws, rows[i])
    ensures |pre| + i * Size(ws) + Size(ws) <= |pre + Items(ws, rows) + post|
    ensures Unpack(ws, pre + Items(ws, rows) + post, |pre| + i * Size(ws)) == rows[i]
  {
    var before, rest := ItemsSplit(ws, rows, i);
    UnpackMiddle(ws, rows[i], pre, before, rest, post);
  }

  lemma UnpackMiddle(ws: seq<nat>, row: seq<nat>, pre: seq<Byte>, before: seq<Byte>, rest: seq<Byte>, post: seq<Byte>)
    requires Fits(ws, row)
    ensures var body := pre + (before + Pack(ws, row) + rest) + post;
            |pre| + |before| + Size(ws) <= |body| && Unpack(ws, body, |pre| + |before|) == row
  {
    UnpackPack(ws, row, pre + before, rest + post);
    assert pre + (before + Pack(ws, row) + rest) + post == (pre + before) + Pack(ws, row) + (rest + post);
  }

  /** The format of n floats. */
  function Floats(n: nat): (ws: seq<nat>)
    ensures |ws| == n && forall i | 0 <= i < n :: ws[i] == 4
  {
    seq(n, _ => 4)
  }

  lemma {:induction false} FloatsSize(n: nat)
    ensures Size(Floats(n)) == 4 * n
  {
    if n > 0 {
      assert Floats(n)[1..] == Floats(n - 1);
      FloatsSize(n - 1);
    }
  }

  /** for (float v : vs) put_f32(out, v) */
  function FloatBytes(vs: seq<F32>): (s: seq<Byte>)
    ensures |s| == 4 * |vs|
  {
    if vs == [] then [] else FloatBytes(vs[..|vs| - 1]) + Le(4, vs[|vs| - 1])
  }

  lemma {:induction false} ReadFloat(vs: seq<F32>, j: nat)
    requires j < |vs|
    ensures UnLe(FloatBytes(vs)[4 * j..4 * j + 4]) == vs[j]
  {
    var n := |vs| - 1;
    if j == n {
      assert FloatBytes(vs)[4 * j..4 * j + 4] == Le(4, vs[n]);
      UnLeLe(4, vs[n]);
      Widths();
    } else {
      ReadFloat(vs[..n], j);
      assert FloatBytes(vs)[4 * j..4 * j + 4] == FloatBytes(vs[..n])[4 * j..4 * j + 4];
    }
  }

  /** n floats read at once are n floats read one by one. */
  lemma {:induction false} UnpackFloat(n: nat, body: seq<Byte>, off: nat, j: nat)
    requires off + 4 * n <= |body| && j < n
    ensures off + Size(Floats(n)) <= |body|
    ensures Unpack(Floats(n), body, off)[j] == UnLe(body[off + 4 * j..off + 4 * j + 4])
    decreases n
  {
    FloatsSize(n);
    FloatsSize(n - 1);
    assert Floats(n)[1..] == Floats(n - 1);
    if j > 0 {
      UnpackFloat(n - 1, body, off + 4, j - 1);
    }
  }

  lemma FloatInside(vs: seq<F32>, j: nat, pre: seq<Byte>, post: seq<Byte>, at: nat)
    requires j < |vs| && at == |pre| + 4 * j
    ensures at + 4 <= |pre + FloatBytes(vs) + post| && UnLe((pre + FloatBytes(vs) + post)[at..at + 4]) == vs[j]
  {
    assert (pre + FloatBytes(vs) + post)[at..at + 4] == FloatBytes(vs)[4 * j..4 * j + 4];
    ReadFloat(vs, j);
  }

  /** Reading n of the floats of vs, from index q on. */
  lemma UnpackFloats(vs: seq<F32>, q: nat, n: nat, pre: seq<Byte>, post: seq<Byte>, off: nat)
    requires q + n <= |vs| && off == |pre| + 4 * q
    ensures off + Size(Floats(n)) <= |pre + FloatBytes(vs) + post|
    ensures Unpack(Floats(n), pre + FloatBytes(vs) + post, off) == vs[q..q + n]
  {
    var body := pre + FloatBytes(vs) + post;
    FloatsSize(n);
    var got := Unpack(Floats(n), body, off);
    forall j | 0 <= j < n
      ensures got[j] == vs[q + j]
    {
      UnpackFloat(n, body, off, j);
      FloatInside(vs, q + j, pre, post, off + 4 * j);
    }
  }

  lemma Assoc(a: seq<Byte>, b: seq<Byte>, c: seq<Byte>)
    ensures (a + b) + c == a + (b + c)
  {
  }

  /** An output vector. */
  class Buffer {
    var bytes: seq<Byte>

    constructor ()
      ensures bytes == []
    {
      bytes := [];
    }

    method Push(b: Byte)
      modifies this
      ensures bytes == old(bytes) + [b]
    {
      bytes := bytes + [b];
    }

    method Insert(s: seq<Byte>)
      modifies this
      ensures bytes == old(bytes) + s
    {
      bytes := bytes + s;
    }

    /** put_u16, put_u32 and put_u64: byte i is (v >> (8 * i)) & 0xff. */
    method Put(n: nat, v: nat)
      modifies this
      ensures bytes == old(bytes) + Le(n, v)
    {
      var i := 0;
      while i < n
        invariant i <= n
        invariant bytes + Le(n - i, Shr8(v, i)) == old(bytes) + Le(n, v)
      {
        Push(Shr8(v, i) % 256);
        i := i + 1;
      }
    }

    /** A row of put_* calls. */
    method PutAll(ws: seq<nat>, vs: seq<nat>)
      requires |ws| == |vs|
      modifies this
      ensures bytes == old(bytes) + Pack(ws, vs)
    {
      var i := 0;
      while i < |ws|
        invariant i <= |ws|
        invariant bytes + Pack(ws[i..], vs[i..]) == old(bytes) + Pack(ws, vs)
      {
        assert ws[i..][1..] == ws[i + 1..] && vs[i..][1..] == vs[i + 1..];
        Put(ws[i], vs[i]);
        i := i + 1;
      }
      assert Pack(ws[i..], vs[i..]) == [];
    }
  }
}
