/** The analyzer chain's attribute block and the frame record built from it
    (pool.cpp: `process`, `interleave_attrs`, `encode_frame_record`). */
module FrameRecords {
  import opened Wrappers
  import opened Bytes
  import opened Wire

  // ---- Attribute layout ----

  /** What one analyzer wrote: a block of `width` floats for every track. */
  datatype Block = Block(width: nat, values: seq<F32>)

  ghost predicate Sized(blocks: seq<Block>, n: nat) {
    forall k | 0 <= k < |blocks| :: |blocks[k].values| == n * blocks[k].width
  }

  function Total(blocks: seq<Block>): nat {
    if blocks == [] then 0 else Total(blocks[..|blocks| - 1]) + blocks[|blocks| - 1].width
  }

  /** The blocks' rows for track t, one after the other in chain order. */
  function ChainRow(blocks: seq<Block>, n: nat, t: nat): (row: seq<F32>)
    requires t < n && Sized(blocks, n)
    ensures |row| == Total(blocks)
  {
    if blocks == [] then []
    else
      var last := blocks[|blocks| - 1];
      ChainRow(blocks[..|blocks| - 1], n, t) + RowOf(last.values, n, last.width, t)
  }

  /** One memcpy: row t of the scratch block goes into its span of row t. */
  method CopyRow(scratch: seq<F32>, from: nat, width: nat, out: array<F32>, to: nat)
    requires from + width <= |scratch| && to + width <= out.Length
    modifies out
    ensures out[..] == old(out[..])[..to] + scratch[from..from + width] + old(out[..])[to + width..]
  {
    var c := 0;
    while c < width
      invariant c <= width
      invariant forall p | 0 <= p < out.Length ::
                  out[p] == if to <= p < to + c then scratch[from + p - to] else old(out[p])
    {
      out[to + c] := scratch[from + c];
      c := c + 1;
    }
  }

  // `at` and `other` name the first index of a row.

  lemma RowAt(s: seq<F32>, n: nat, width: nat, t: nat, at: nat)
    requires t < n && |s| == n * width && at == t * width
    ensures at + width <= |s| && RowOf(s, n, width, t) == s[at..at + width]
  {
    RowBound(t, n, width);
  }

  lemma RowsApart(width: nat, t: nat, u: nat, at: nat, other: nat)
    requires t != u && at == t * width && other == u * width
    ensures at + width <= other || other + width <= at
  {
    if t < u {
      RowBound(t, u, width);
    } else {
      RowBound(u, t, width);
    }
  }

  lemma OtherRowKept(before: seq<F32>, after: seq<F32>, n: nat, total: nat, t: nat, u: nat, at: nat, other: nat,
      row: seq<F32>)
    requires u < n && t != u && |before| == |after| == n * total && at == t * total && other == u * total
    requires at + total <= |before| && |row| == total && after == before[..at] + row + before[at + total..]
    ensures RowOf(after, n, total, u) == RowOf(before, n, total, u)
  {
    RowsApart(total, t, u, at, other);
    RowAt(before, n, total, u, other);
    RowAt(after, n, total, u, other);
    SameOutside(before, after, at, row, other, total);
  }

  lemma SameOutside(before: seq<F32>, after: seq<F32>, at: nat, row: seq<F32>, other: nat, width: nat)
    requires at + |row| <= |before| && after == before[..at] + row + before[at + |row|..]
    requires other + width <= |before| && (at + |row| <= other || other + width <= at)
    ensures after[other..other + width] == before[other..other + width]
  {
  }

  /** A row with the span at `off` replaced. */
  function Splice(row: seq<F32>, off: nat, span: seq<F32>): seq<F32>
    requires off + |span| <= |row|
  {
    row[..off] + span + row[off + |span|..]
  }

  lemma SpliceWhole(before: seq<F32>, at: nat, width: nat, off: nat, span: seq<F32>)
    requires at + width <= |before| && off + |span| <= width
    ensures Splice(before, at + off, span) ==
            before[..at] + Splice(before[at..at + width], off, span) + before[at + width..]
  {
  }

  /** Row t is as before. */
  ghost predicate SameRow(before: seq<F32>, after: seq<F32>, n: nat, total: nat, t: nat)
    requires t < n && |before| == |after| == n * total
  {
    RowOf(after, n, total, t) == RowOf(before, n, total, t)
  }

  /** Row t got the scratch row of the same track at `off`, and kept its other
      cells. */
  ghost predicate Woven(before: seq<F32>, after: seq<F32>, scratch: seq<F32>, n: nat, nAttr: nat, total: nat, off: nat,
      t: nat)
    requires t < n && |before| == |after| == n * total && |scratch| == n * nAttr && off + nAttr <= total
  {
    RowOf(after, n, total, t) == Splice(RowOf(before, n, total, t), off, RowOf(scratch, n, nAttr, t))
  }

  /** The rows below t are woven, the others as they were. */
  ghost predicate WovenBelow(start: seq<F32>, now: seq<F32>, scratch: seq<F32>, n: nat, nAttr: nat, total: nat,
      off: nat, t: nat)
  {
    && t <= n && |start| == |now| == n * total && |scratch| == n * nAttr && off + nAttr <= total
    && (forall u | 0 <= u < t :: Woven(start, now, scratch, n, nAttr, total, off, u))
    && (forall u | t <= u < n :: SameRow(start, now, n, total, u))
  }

  /** One turn of the outer loop. */
  method WeaveRow(scratch: seq<F32>, n: nat, nAttr: nat, total: nat, off: nat, out: array<F32>, t: nat,
                  ghost start: seq<F32>)
    requires WovenBelow(start, out[..], scratch, n, nAttr, total, off, t) && t < n
    modifies out
    ensures WovenBelow(start, out[..], scratch, n, nAttr, total, off, t + 1)
  {
    ghost var before := out[..];
    var from, at := t * nAttr, t * total;
    RowAt(scratch, n, nAttr, t, from);
    RowAt(before, n, total, t, at);
    CopyRow(scratch, from, nAttr, out, at + off);
    WeaveStep(start, before, out[..], scratch, n, nAttr, total, off, t, at);
  }

  method InterleaveAttrs(scratch: seq<F32>, n: nat, nAttr: nat, total: nat, off: nat, out: array<F32>)
    requires |scratch| == n * nAttr && out.Length == n * total && off + nAttr <= total
    modifies out
    ensures forall t | 0 <= t < n :: Woven(old(out[..]), out[..], scratch, n, nAttr, total, off, t)
  {
    var t := 0;
    ghost var start := out[..];
    while t < n
      invariant WovenBelow(start, out[..], scratch, n, nAttr, total, off, t)
    {
      WeaveRow(scratch, n, nAttr, total, off, out, t, start);
      t := t + 1;
    }
  }

  lemma WeaveStep(start: seq<F32>, before: seq<F32>, after: seq<F32>, scratch: seq<F32>,
                  n: nat, nAttr: nat, total: nat, off: nat, t: nat, at: nat)
    requires t < n && |start| == |before| == |after| == n * total && |scratch| == n * nAttr && off + nAttr <= total
    requires at == t * total && at + total <= |before|
    requires after == before[..at + off] + RowOf(scratch, n, nAttr, t) + before[at + off + nAttr..]
    requires WovenBelow(start, before, scratch, n, nAttr, total, off, t)
    ensures WovenBelow(start, after, scratch, n, nAttr, total, off, t + 1)
  {
    RowWritten(before, after, n, total, t, at, off, RowOf(scratch, n, nAttr, t));
    assert SameRow(start, before, n, total, t);
    forall u | 0 <= u < t
      ensures Woven(start, after, scratch, n, nAttr, total, off, u)
    {
      OtherRow(before, after, n, total, t, at, off, RowOf(scratch, n, nAttr, t), u);
      assert Woven(start, before, scratch, n, nAttr, total, off, u);
    }
    forall u | t < u < n
      ensures SameRow(start, after, n, total, u)
    {
      OtherRow(before, after, n, total, t, at, off, RowOf(scratch, n, nAttr, t), u);
      assert SameRow(start, before, n, total, u);
    }
  }

  lemma RowWritten(before: seq<F32>, after: seq<F32>, n: nat, total: nat, t: nat, at: nat, off: nat, span: seq<F32>)
    requires t < n && |before| == n * total && off + |span| <= total && at == t * total
    requires at + total <= |before| && after == before[..at + off] + span + before[at + off + |span|..]
    ensures |after| == n * total
    ensures RowOf(after, n, total, t) == Splice(RowOf(before, n, total, t), off, span)
  {
    RowAt(before, n, total, t, at);
    RowAt(after, n, total, t, at);
    SpliceWhole(before, at, total, off, span);
    assert after[at..at + total] == Splice(before[at..at + total], off, span);
  }

  lemma OtherRow(before: seq<F32>, after: seq<F32>, n: nat, total: nat, t: nat, at: nat, off: nat, span: seq<F32>,
      u: nat)
    requires t < n && u < n && u != t && |before| == |after| == n * total && off + |span| <= total && at == t * total
    requires at + total <= |before| && after == before[..at + off] + span + before[at + off + |span|..]
    ensures SameRow(before, after, n, total, u)
  {
    SpliceWhole(before, at, total, off, span);
    OtherRowKept(before, after, n, total, t, u, at, u * total, Splice(before[at..at + total], off, span));
  }

  function Zeros(n: nat): (z: seq<F32>)
    ensures |z| == n && forall i | 0 <= i < n :: z[i] == 0
  {
    seq(n, _ => 0)
  }

  lemma {:induction false} TotalPrefix(blocks: seq<Block>, k: nat)
    requires k < |blocks|
    ensures Total(blocks[..k]) + blocks[k].width == Total(blocks[..k + 1]) <= Total(blocks)
    decreases |blocks|
  {
    assert blocks[..k + 1][..k] == blocks[..k];
    if k + 1 < |blocks| {
      var front := blocks[..|blocks| - 1];
      TotalPrefix(front, k);
      assert front[..k + 1] == blocks[..k + 1] && front[..k] == blocks[..k];
    } else {
      assert blocks[..k + 1] == blocks;
    }
  }

  lemma Spread(done: seq<F32>, span: seq<F32>, total: nat)
    requires |done| + |span| <= total
    ensures Splice(done + Zeros(total - |done|), |done|, span) == (done + span) + Zeros(total - |done| - |span|)
  {
  }

  lemma ChainGrows(blocks: seq<Block>, n: nat, k: nat, t: nat)
    requires k < |blocks| && t < n && Sized(blocks, n)
    ensures ChainRow(blocks[..k + 1], n, t) ==
            ChainRow(blocks[..k], n, t) + RowOf(blocks[k].values, n, blocks[k].width, t)
  {
    assert blocks[..k + 1][..k] == blocks[..k];
  }

  lemma RowExtended(blocks: seq<Block>, n: nat, k: nat, t: nat, total: nat, off: nat, row: seq<F32>)
    requires k < |blocks| && t < n && Sized(blocks, n) && off == Total(blocks[..k])
    requires off + blocks[k].width <= total && row == ChainRow(blocks[..k], n, t) + Zeros(total - off)
    ensures var w := blocks[k].width;
            var next := ChainRow(blocks[..k + 1], n, t) + Zeros(total - off - w);
            Splice(row, off, RowOf(blocks[k].values, n, w, t)) == next && (w == 0 ==> row == next)
  {
    var span := RowOf(blocks[k].values, n, blocks[k].width, t);
    Spread(ChainRow(blocks[..k], n, t), span, total);
    ChainGrows(blocks, n, k, t);
    if blocks[k].width == 0 {
      assert Splice(row, off, span) == row;
    }
  }

  /** Row t after the first k blocks. */
  ghost predicate Placed(attrs: seq<F32>, blocks: seq<Block>, n: nat, total: nat, k: nat, t: nat)
    requires k <= |blocks| && t < n && Sized(blocks, n) && Total(blocks[..k]) <= total && |attrs| == n * total
  {
    RowOf(attrs, n, total, t) == ChainRow(blocks[..k], n, t) + Zeros(total - Total(blocks[..k]))
  }

  method Place(blocks: seq<Block>, n: nat, total: nat, k: nat, next: nat, off: nat, attrs: array<F32>)
    requires next == k + 1 && k < |blocks| && Sized(blocks, n) && attrs.Length == n * total
    requires off == Total(blocks[..k]) && off + blocks[k].width == Total(blocks[..k + 1]) <= total
    requires forall t | 0 <= t < n :: Placed(attrs[..], blocks, n, total, k, t)
    modifies attrs
    ensures forall t | 0 <= t < n :: Placed(attrs[..], blocks, n, total, next, t)
  {
    ghost var before := attrs[..];
    if blocks[k].width != 0 {
      InterleaveAttrs(blocks[k].values, n, blocks[k].width, total, off, attrs);
    }
    forall t | 0 <= t < n
      ensures Placed(attrs[..], blocks, n, total, next, t)
    {
      assert Placed(before, blocks, n, total, k, t);
      assert blocks[k].width != 0 ==> Woven(before, attrs[..], blocks[k].values, n, blocks[k].width, total, off, t);
      RowExtended(blocks, n, k, t, total, off, RowOf(before, n, total, t));
    }
  }

  lemma AllZero(attrs: seq<F32>, blocks: seq<Block>, n: nat, total: nat, t: nat)
    requires t < n && Sized(blocks, n) && attrs == Zeros(n * total)
    ensures Placed(attrs, blocks, n, total, 0, t)
  {
    RowAt(attrs, n, total, t, t * total);
    assert ChainRow(blocks[..0], n, t) + Zeros(total) == Zeros(total);
  }

  lemma AllPlaced(attrs: seq<F32>, blocks: seq<Block>, n: nat, t: nat)
    requires t < n && Sized(blocks, n) && |attrs| == n * Total(blocks) && blocks[..|blocks|] == blocks
    requires Placed(attrs, blocks, n, Total(blocks), |blocks|, t)
    ensures RowOf(attrs, n, Total(blocks), t) == ChainRow(blocks, n, t)
  {
  }

  /** The chain loop of `process`: row t of the result is exactly the blocks'
      rows for track t in chain order. */
  method BuildAttrs(blocks: seq<Block>, n: nat) returns (attrs: array<F32>)
    requires Sized(blocks, n)
    ensures fresh(attrs) && attrs.Length == n * Total(blocks)
    ensures forall t {:trigger RowOf(attrs[..], n, Total(blocks), t)} | 0 <= t < n ::
              RowOf(attrs[..], n, Total(blocks), t) == ChainRow(blocks, n, t)
  {
    var total := Total(blocks);
    attrs := new F32[n * total](_ => 0);
    forall t | 0 <= t < n
      ensures Placed(attrs[..], blocks, n, total, 0, t)
    {
      AllZero(attrs[..], blocks, n, total, t);
    }
    var off, k := 0, 0;
    while k < |blocks|
      invariant k <= |blocks| && off == Total(blocks[..k]) <= total
      invariant forall t | 0 <= t < n :: Placed(attrs[..], blocks, n, total, k, t)
    {
      TotalPrefix(blocks, k);
      Place(blocks, n, total, k, k + 1, off, attrs);
      off := off + blocks[k].width;
      k := k + 1;
    }
    assert blocks[..k] == blocks;
    forall t {:trigger RowOf(attrs[..], n, total, t)} | 0 <= t < n
      ensures RowOf(attrs[..], n, total, t) == ChainRow(blocks, n, t)
    {
      AllPlaced(attrs[..], blocks, n, t);
    }
  }

  /** Each cell of a row was written by exactly one analyzer, from its own
      block's row of that track. */
  lemma {:induction false} CellOwner(blocks: seq<Block>, n: nat, t: nat, c: nat) returns (k: nat)
    requires t < n && Sized(blocks, n) && c < Total(blocks)
    ensures k < |blocks| && Total(blocks[..k]) <= c < Total(blocks[..k]) + blocks[k].width
    ensures ChainRow(blocks, n, t)[c] == RowOf(blocks[k].values, n, blocks[k].width, t)[c - Total(blocks[..k])]
    decreases |blocks|
  {
    var m := |blocks| - 1;
    var front := blocks[..m];
    if c < Total(front) {
      k := CellOwner(front, n, t, c);
      assert front[..k] == blocks[..k];
      assert ChainRow(blocks, n, t)[c] == ChainRow(front, n, t)[c];
    } else {
      k := m;
    }
  }

  lemma OneOwner(blocks: seq<Block>, c: nat, j: nat, k: nat)
    requires j < |blocks| && Total(blocks[..j]) <= c < Total(blocks[..j]) + blocks[j].width
    requires k < |blocks| && Total(blocks[..k]) <= c < Total(blocks[..k]) + blocks[k].width
    ensures j == k
  {
    TotalPrefix(blocks, j);
    TotalPrefix(blocks, k);
    if j < k {
      TotalMonotone(blocks, j + 1, k);
    } else if k < j {
      TotalMonotone(blocks, k + 1, j);
    }
  }

  lemma {:induction false} TotalMonotone(blocks: seq<Block>, i: nat, j: nat)
    requires i <= |blocks| && j <= |blocks|
    ensures i <= j ==> Total(blocks[..i]) <= Total(blocks[..j])
  {
    if i < j {
      TotalMonotone(blocks, i, j - 1);
      TotalPrefix(blocks, j - 1);
    }
  }

  // ---- encode_frame_record ----

  datatype Kpt = Kpt(x: F32, y: F32, conf: F32)

  /** A live track: its box with the track id, and its key points. */
  datatype Track = Track(det: Det, kpts: seq<Kpt>)

  /** m is the one count the tracks with key points agree on. */
  ghost predicate Uniform(ts: seq<Track>, m: nat) {
    && m > 0
    && (exists i :: 0 <= i < |ts| && |ts[i].kpts| == m)
    && (forall i | 0 <= i < |ts| :: |ts[i].kpts| == 0 || |ts[i].kpts| == m)
  }

  /** The agreed count; 0 when no track has key points and when they differ. */
  ghost function CommonCount(ts: seq<Track>): nat {
    if exists m: nat :: Uniform(ts, m) then
      var m: nat :| Uniform(ts, m);
      m
    else 0
  }

  ghost predicate Disagree(a: Track, b: Track) {
    a.kpts != [] && b.kpts != [] && |a.kpts| != |b.kpts|
  }

  ghost predicate Mixed(ts: seq<Track>) {
    exists i, j | 0 <= i < |ts| && 0 <= j < |ts| :: Disagree(ts[i], ts[j])
  }

  method KptCount(ts: seq<Track>) returns (kptN: nat)
    ensures kptN == CommonCount(ts)
  {
    var k: int := 0;  // -1 stands for static_cast<size_t>(-1)
    var i := 0;
    while i < |ts|
      invariant i <= |ts| && k >= -1
      invariant k == 0 ==> forall x | 0 <= x < i :: ts[x].kpts == []
      invariant k > 0 ==> Uniform(ts[..i], k)
      invariant k == -1 ==> Mixed(ts[..i])
    {
      var n := |ts[i].kpts|;
      var was := k;
      if n != 0 {
        if k == 0 {
          k := n;
        } else if n != k {
          k := -1;
        }
      }
      CountStep(ts, i, was, k);
      i := i + 1;
    }
    assert ts[..i] == ts;
    kptN := if k == -1 then 0 else k;
    CountDecides(ts, k);
  }

  lemma CountStep(ts: seq<Track>, i: nat, k: int, k': int)
    requires i < |ts| && k >= -1
    requires k == 0 ==> forall x | 0 <= x < i :: ts[x].kpts == []
    requires k > 0 ==> Uniform(ts[..i], k)
    requires k == -1 ==> Mixed(ts[..i])
    requires k' == if |ts[i].kpts| == 0 then k else if k == 0 then |ts[i].kpts| else if |ts[i].kpts| != k then -1 else k
    ensures k' > 0 ==> Uniform(ts[..i + 1], k')
    ensures k' == -1 ==> Mixed(ts[..i + 1])
  {
    var before, after := ts[..i], ts[..i + 1];
    assert after[i] == ts[i] && forall x | 0 <= x < i :: after[x] == before[x] == ts[x];
    if k > 0 && k' == -1 {
      var x :| 0 <= x < |before| && |before[x].kpts| == k;
      assert Disagree(after[x], after[i]);
    } else if k == -1 {
      var x, y :| 0 <= x < |before| && 0 <= y < |before| && Disagree(before[x], before[y]);
      assert Disagree(after[x], after[y]);
    } else if k > 0 {
      var x :| 0 <= x < |before| && |before[x].kpts| == k;
      assert |after[x].kpts| == k && after[i] == ts[i];
    } else if k' > 0 {
      assert |after[i].kpts| == k';
    }
  }

  lemma CountDecides(ts: seq<Track>, k: int)
    requires k >= -1 && (k == 0 ==> forall x | 0 <= x < |ts| :: ts[x].kpts == [])
    requires (k > 0 ==> Uniform(ts, k)) && (k == -1 ==> Mixed(ts))
    ensures CommonCount(ts) == if k == -1 then 0 else k
  {
    if m: nat :| Uniform(ts, m) {
      if k > 0 {
        UniformUnique(ts, CommonCount(ts), k);
      }
    }
  }

  lemma UniformUnique(ts: seq<Track>, m: nat, k: nat)
    requires Uniform(ts, m) && Uniform(ts, k)
    ensures m == k
  {
  }

  function Points(ps: seq<Kpt>): (s: seq<F32>)
    ensures |s| == 3 * |ps|
  {
    if ps == [] then []
    else
      var p := ps[|ps| - 1];
      Points(ps[..|ps| - 1]) + [p.x, p.y, p.conf]
  }

  lemma {:induction false} PointAt(ps: seq<Kpt>, j: nat)
    requires j < |ps|
    ensures Points(ps)[3 * j..3 * j + 3] == [ps[j].x, ps[j].y, ps[j].conf]
  {
    var n := |ps| - 1;
    if j < n {
      PointAt(ps[..n], j);
      assert Points(ps)[3 * j..3 * j + 3] == Points(ps[..n])[3 * j..3 * j + 3];
    }
  }

  /** r.kpts: the points of the tracks that have exactly k of them. */
  function Flat(ts: seq<Track>, k: nat): seq<F32> {
    if ts == [] then []
    else
      var t := ts[|ts| - 1];
      Flat(ts[..|ts| - 1], k) + if k > 0 && |t.kpts| == k then Points(t.kpts) else []
  }

  ghost predicate AllHave(ts: seq<Track>, k: nat) {
    forall i | 0 <= i < |ts| :: |ts[i].kpts| == k
  }

  lemma AllHaveFront(ts: seq<Track>, k: nat)
    requires ts != []
    ensures AllHave(ts, k) <==> AllHave(ts[..|ts| - 1], k) && |ts[|ts| - 1].kpts| == k
  {
    assert forall i | 0 <= i < |ts| - 1 :: ts[..|ts| - 1][i] == ts[i];
  }

  lemma OneMore(n: nat, w: nat)
    ensures (n + 1) * w == n * w + w
  {
  }

  lemma FlatLast(ts: seq<Track>, k: nat)
    requires ts != [] && k > 0
    ensures var last := ts[|ts| - 1].kpts;
            Flat(ts, k) == Flat(ts[..|ts| - 1], k) + if |last| == k then Points(last) else []
  {
  }

  /** The flat vector has its declared size only if no track is without points. */
  lemma {:induction false} FlatSize(ts: seq<Track>, k: nat, w: nat, size: nat)
    requires k > 0 && w == 3 * k && size == |ts| * w
    ensures |Flat(ts, k)| <= size
    ensures |Flat(ts, k)| == size <==> AllHave(ts, k)
  {
    if ts != [] {
      var n := |ts| - 1;
      OneMore(n, w);
      FlatSize(ts[..n], k, w, size - w);
      FlatLast(ts, k);
      AllHaveFront(ts, k);
    }
  }

  lemma Times3(n: nat, k: nat)
    ensures n * k * 3 == n * (3 * k) == 3 * (n * k)
  {
  }

  lemma Append(s: seq<F32>, front: seq<F32>, row: seq<F32>, tail: seq<F32>, more: seq<F32>)
    requires s == front + row + tail
    ensures s + more == front + row + (tail + more)
  {
  }

  lemma NoTail(s: seq<F32>)
    ensures s + [] == s
  {
  }

  lemma {:induction false} FlatSplit(ts: seq<Track>, k: nat, i: nat) returns (tail: seq<F32>)
    requires k > 0 && AllHave(ts, k) && i < |ts|
    ensures Flat(ts, k) == Flat(ts[..i], k) + Points(ts[i].kpts) + tail
    decreases |ts|
  {
    var n := |ts| - 1;
    AllHaveFront(ts, k);
    FlatLast(ts, k);
    if i == n {
      tail := [];
      NoTail(Flat(ts, k));
    } else {
      var front, row := ts[..n], Points(ts[n].kpts);
      var inner := FlatSplit(front, k, i);
      tail := inner + row;
      assert front[..i] == ts[..i];
      Append(Flat(front, k), Flat(ts[..i], k), Points(ts[i].kpts), inner, row);
    }
  }

  /** A slice of three inside row `row`, which stands behind `before`. */
  lemma SliceInRow(s: seq<F32>, before: seq<F32>, row: seq<F32>, tail: seq<F32>, inner: nat)
    requires s == before + row + tail && inner + 3 <= |row|
    ensures |before| + inner + 3 <= |s| && s[|before| + inner..|before| + inner + 3] == row[inner..inner + 3]
  {
  }

  lemma FlatAt(ts: seq<Track>, k: nat, i: nat, j: nat, at: nat)
    requires k > 0 && AllHave(ts, k) && i < |ts| && j < k && at == 3 * (i * k + j)
    ensures at + 3 <= |Flat(ts, k)| && Flat(ts, k)[at..at + 3] == Points(ts[i].kpts)[3 * j..3 * j + 3]
  {
    RowCell(ts, k, i, j, i * k);
  }

  lemma RowCell(ts: seq<Track>, k: nat, i: nat, j: nat, cells: nat)
    requires k > 0 && AllHave(ts, k) && i < |ts| && j < k && cells == i * k
    ensures 3 * cells + 3 * j + 3 <= |Flat(ts, k)|
    ensures Flat(ts, k)[3 * cells + 3 * j..3 * cells + 3 * j + 3] == Points(ts[i].kpts)[3 * j..3 * j + 3]
  {
    var tail := FlatSplit(ts, k, i);
    FrontSize(ts, k, i, cells);
    SliceInRow(Flat(ts, k), Flat(ts[..i], k), Points(ts[i].kpts), tail, 3 * j);
  }

  lemma FrontSize(ts: seq<Track>, k: nat, i: nat, cells: nat)
    requires k > 0 && AllHave(ts, k) && i <= |ts| && cells == i * k
    ensures |Flat(ts[..i], k)| == 3 * cells
  {
    Times3(i, k);
    FlatSize(ts[..i], k, 3 * k, i * (3 * k));
    assert AllHave(ts[..i], k);
  }

  lemma PointCell(ts: seq<Track>, k: nat, i: nat, j: nat, at: nat)
    requires k > 0 && AllHave(ts, k) && i < |ts| && j < k && at == 3 * (i * k + j)
    ensures at + 3 <= |Flat(ts, k)| && Flat(ts, k)[at..at + 3] == PointRows(ts[i].kpts)[j]
  {
    FlatAt(ts, k, i, j, at);
    PointAt(ts[i].kpts, j);
  }

  function DetsOf(ts: seq<Track>): (ds: seq<Det>)
    ensures |ds| == |ts| && forall i | 0 <= i < |ts| :: ds[i] == ts[i].det
  {
    seq(|ts|, i requires 0 <= i < |ts| => ts[i].det)
  }

  /** The record for the tracks; `head` carries the frame's own fields. */
  function RecOf(head: FrameRec, ts: seq<Track>, k: U8, attrs: seq<F32>, total: U8): FrameRec {
    head.(kptPerDet := k, dets := DetsOf(ts), kpts := Flat(ts, k), attrPerDet := total, attrs := attrs)
  }

  /** The frames that can be encoded: the counts fit their fields, and either
      no key points are sent or every track has them. */
  ghost predicate Encodes(ts: seq<Track>, total: nat) {
    var k := CommonCount(ts);
    |ts| <= 0xFFFF && total <= 255 && k <= 255 && (k > 0 ==> AllHave(ts, k))
  }

  method EncodeFrame(head: FrameRec, ts: seq<Track>, attrs: seq<F32>, total: nat, out: Buffer) returns (ok: bool)
    requires |attrs| == |ts| * total
    modifies out
    ensures ok <==> Encodes(ts, total)
    ensures out.bytes ==
            if ok then old(out.bytes) + Record(VBR1, Vbr1Body(RecOf(head, ts, CommonCount(ts), attrs, total)))
                         else old(out.bytes)
  {
    var k := KptCount(ts);
    if k > 255 || total > 255 {
      return false;
    }
    var dets, kpts, i := [], [], 0;
    while i < |ts|
      invariant i <= |ts| && dets == DetsOf(ts)[..i] && kpts == Flat(ts[..i], k)
    {
      dets := dets + [ts[i].det];
      if k > 0 && |ts[i].kpts| == k {
        kpts := kpts + Points(ts[i].kpts);
      }
      assert ts[..i + 1][..i] == ts[..i];
      i := i + 1;
    }
    assert ts[..i] == ts;
    var r := head.(kptPerDet := k, dets := dets, kpts := kpts, attrPerDet := total, attrs := attrs);
    assert r == RecOf(head, ts, k, attrs, total);
    Refusal(head, ts, k, attrs, total);
    var err := EncodeVbr1(r, out);
    ok := err.None?;
  }

  lemma {:induction false} FlatNone(ts: seq<Track>)
    ensures Flat(ts, 0) == []
  {
    if ts != [] {
      FlatNone(ts[..|ts| - 1]);
    }
  }

  lemma Refusal(head: FrameRec, ts: seq<Track>, k: U8, attrs: seq<F32>, total: U8)
    requires |attrs| == |ts| * total
    ensures Validate(RecOf(head, ts, k, attrs, total)).None? <==> |ts| <= 0xFFFF && (k > 0 ==> AllHave(ts, k))
  {
    if k == 0 {
      FlatNone(ts);
    } else {
      Times3(|ts|, k);
      FlatSize(ts, k, 3 * k, |ts| * (3 * k));
    }
  }

  /** One track without key points among tracks that have them makes the whole
      frame unencodable, however few tracks there are. */
  lemma OneBareTrackDropsFrame(ts: seq<Track>, total: nat, i: nat, j: nat)
    requires i < |ts| && j < |ts| && ts[i].kpts == [] && ts[j].kpts != []
    ensures Encodes(ts, total) ==> Mixed(ts)
  {
    if !Mixed(ts) {
      forall x | 0 <= x < |ts|
        ensures |ts[x].kpts| == 0 || |ts[x].kpts| == |ts[j].kpts|
      {
        assert !Disagree(ts[x], ts[j]);
      }
      assert Uniform(ts, |ts[j].kpts|);
      UniformUnique(ts, CommonCount(ts), |ts[j].kpts|);
    }
  }

  function PointRows(ps: seq<Kpt>): seq<seq<nat>> {
    seq(|ps|, j requires 0 <= j < |ps| => [ps[j].x, ps[j].y, ps[j].conf])
  }

  lemma KeypointOf(r: FrameRec, ts: seq<Track>, t: nat, j: nat, at: nat)
    requires Validate(r).None? && |r.dets| == |ts| && r.kpts == Flat(ts, r.kptPerDet) && AllHave(ts, r.kptPerDet)
    requires t < |ts| && j < r.kptPerDet && at == 3 * (t * r.kptPerDet + j)
    ensures KptMeaning(r, t, j) == PointRows(ts[t].kpts)[j]
  {
    KptCell(r, t, j, at);
    PointCell(ts, r.kptPerDet, t, j, at);
  }

  lemma CellOf(i: nat, k: nat, j: nat) returns (at: nat)
    ensures at == 3 * (i * k + j)
  {
    at := 3 * (i * k + j);
  }

  lemma OwnKeypoint(r: FrameRec, ts: seq<Track>, t: nat, j: nat)
    requires Validate(r).None? && |r.dets| == |ts| && r.kpts == Flat(ts, r.kptPerDet) && AllHave(ts, r.kptPerDet)
    requires t < |ts| && j < r.kptPerDet
    ensures KptMeaning(r, t, j) == PointRows(ts[t].kpts)[j]
  {
    var at := CellOf(t, r.kptPerDet, j);
    KeypointOf(r, ts, t, j, at);
  }

  lemma KeypointsIn(r: FrameRec, ts: seq<Track>, t: nat)
    requires Validate(r).None? && |r.dets| == |ts| && r.kpts == Flat(ts, r.kptPerDet) && t < |ts|
    requires r.kptPerDet > 0 && AllHave(ts, r.kptPerDet)
    ensures KptsMeaning(r, t) == PointRows(ts[t].kpts)
  {
    var got, want := KptsMeaning(r, t), PointRows(ts[t].kpts);
    assert |ts[t].kpts| == r.kptPerDet;
    forall j | 0 <= j < r.kptPerDet
      ensures KptMeaning(r, t, j) == want[j]
    {
      OwnKeypoint(r, ts, t, j);
    }
    assert |got| == |want| && forall j | 0 <= j < |got| :: got[j] == want[j];
  }

  lemma KeypointsOf(head: FrameRec, ts: seq<Track>, k: U8, attrs: seq<F32>, total: U8, t: nat)
    requires |attrs| == |ts| * total && |ts| <= 0xFFFF && (k > 0 ==> AllHave(ts, k)) && t < |ts|
    ensures Validate(RecOf(head, ts, k, attrs, total)).None?
    ensures DetMeaning(RecOf(head, ts, k, attrs, total), t).keypoints == if k > 0 then PointRows(ts[t].kpts) else []
  {
    Refusal(head, ts, k, attrs, total);
    if k > 0 {
      KeypointsIn(RecOf(head, ts, k, attrs, total), ts, t);
    }
  }

  /** From the analyzers to the client: for every frame that is encoded, the
      decoder returns for track t its id, its own key points, and the blocks
      its analyzers wrote for it, in chain order. */
  lemma FrameDelivered(head: FrameRec, ts: seq<Track>, blocks: seq<Block>, attrs: seq<F32>, t: nat)
    requires Sized(blocks, |ts|) && |attrs| == |ts| * Total(blocks) && t < |ts| && Encodes(ts, Total(blocks))
    requires RowOf(attrs, |ts|, Total(blocks), t) == ChainRow(blocks, |ts|, t)
    ensures var res := Decoded(Vbr1Body(RecOf(head, ts, CommonCount(ts), attrs, Total(blocks))));
            && res.Ok? && |res.value.detections| == |ts|
            && var d := res.value.detections[t];
               && d.trackId == ts[t].det.trackId && d.attrs == ChainRow(blocks, |ts|, t)
               && d.keypoints == if CommonCount(ts) > 0 then PointRows(ts[t].kpts) else []
  {
    var r := RecOf(head, ts, CommonCount(ts), attrs, Total(blocks));
    KeypointsOf(head, ts, CommonCount(ts), attrs, Total(blocks), t);
    RoundTrip(r);
    assert Meaning(r).detections[t] == DetMeaning(r, t);
  }

  /** What the client should hold of track t. */
  ghost predicate TrackDelivered(f: FrameDict, ts: seq<Track>, blocks: seq<Block>, t: nat)
    requires t < |ts| && Sized(blocks, |ts|)
  {
    && |f.detections| == |ts| && f.detections[t].trackId == ts[t].det.trackId
    && f.detections[t].attrs == ChainRow(blocks, |ts|, t)
    && f.detections[t].keypoints == if CommonCount(ts) > 0 then PointRows(ts[t].kpts) else []
  }

  /** The whole path: the chain's blocks are laid out, the frame is encoded, and
      the client decodes the body of the record. */
  method FrameToClient(head: FrameRec, ts: seq<Track>, blocks: seq<Block>)
      returns (frame: Option<Result<FrameDict, Error>>)
    requires Sized(blocks, |ts|)
    ensures frame.Some? <==> Encodes(ts, Total(blocks))
    ensures frame.Some? ==>
              frame.value.Ok? && forall t | 0 <= t < |ts| :: TrackDelivered(frame.value.value, ts, blocks, t)
  {
    var attrs := BuildAttrs(blocks, |ts|);
    var out := new Buffer();
    var ok := EncodeFrame(head, ts, attrs[..], Total(blocks), out);
    if !ok {
      return None;
    }
    ghost var body := Vbr1Body(RecOf(head, ts, CommonCount(ts), attrs[..], Total(blocks)));
    BodyOf(VBR1, body, out.bytes);
    var res := DecodeResult(out.bytes[8..]);
    if ts == [] {
      EmptyDelivered(head, blocks, attrs[..]);
    } else {
      FrameDelivered(head, ts, blocks, attrs[..], 0);
    }
    forall t | 0 <= t < |ts|
      ensures res.Ok? && TrackDelivered(res.value, ts, blocks, t)
    {
      FrameDelivered(head, ts, blocks, attrs[..], t);
    }
    frame := Some(res);
  }

  lemma BodyOf(m: Magic, body: seq<Byte>, bytes: seq<Byte>)
    requires bytes == [] + Record(m, body)
    ensures |bytes| >= 8 && bytes[8..] == body
  {
    assert bytes == Header(m, |body|) + body;
  }

  lemma EmptyDelivered(head: FrameRec, blocks: seq<Block>, attrs: seq<F32>)
    requires Sized(blocks, 0) && attrs == [] && Encodes([], Total(blocks))
    ensures Decoded(Vbr1Body(RecOf(head, [], CommonCount([]), attrs, Total(blocks)))).Ok?
  {
    RoundTrip(RecOf(head, [], CommonCount([]), attrs, Total(blocks)));
  }
}
