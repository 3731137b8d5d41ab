/** VBR1, VBS1 and JSON records: the C++ encoders (wire.cpp) and the Python
    decoders (vision_base/wire.py). Floats are their bit patterns, JSON texts
    are opaque bytes. */
module Wire {
  import opened Wrappers
  import opened Bytes

  datatype Magic = VBR1 | VBE1 | VBC1 | VBS1 | VBT1

  function MagicBytes(m: Magic): (b: seq<Byte>)
    ensures |b| == 4
  {
    match m
    case VBR1 => [0x56, 0x42, 0x52, 0x31]
    case VBE1 => [0x56, 0x42, 0x45, 0x31]
    case VBC1 => [0x56, 0x42, 0x43, 0x31]
    case VBS1 => [0x56, 0x42, 0x53, 0x31]
    case VBT1 => [0x56, 0x42, 0x54, 0x31]
  }

  /** put_header: the length is cut to a u32. */
  function Header(m: Magic, bodyLen: nat): (h: seq<Byte>)
    ensures |h| == 8
  {
    MagicBytes(m) + Le(4, bodyLen % 0x1_0000_0000)
  }

  function Record(m: Magic, body: seq<Byte>): seq<Byte> {
    Header(m, |body|) + body
  }

  function MagicOf(b: seq<Byte>): Option<Magic> {
    if b == MagicBytes(VBR1) then Some(VBR1)
    else if b == MagicBytes(VBE1) then Some(VBE1)
    else if b == MagicBytes(VBC1) then Some(VBC1)
    else if b == MagicBytes(VBS1) then Some(VBS1)
    else if b == MagicBytes(VBT1) then Some(VBT1)
    else None
  }

  datatype Error = Truncated | ShortRead | BadMagic | BadDims | TooMany | Mismatch | TooLong

  /** decode_header */
  function DecodeHeader(hdr: seq<Byte>): Result<(Magic, nat), Error> {
    if |hdr| < 8 then Err(Truncated)
    else
      match MagicOf(hdr[..4])
      case None => Err(BadMagic)
      case Some(m) => Ok((m, UnLe(hdr[4..8])))
  }

  /** The header frames its body exactly when the length fits the u32 field.
      The VBE1, VBC1 and VBS1 encoders cast without checking. */
  lemma HeaderFrames(m: Magic, body: seq<Byte>, rest: seq<Byte>)
    ensures DecodeHeader(Record(m, body) + rest).Ok?
    ensures DecodeHeader(Record(m, body) + rest).value.0 == m
    ensures DecodeHeader(Record(m, body) + rest).value.1 == |body| <==> |body| < 0x1_0000_0000
  {
    var s := Record(m, body) + rest;
    assert s[..4] == MagicBytes(m);
    assert s[4..8] == Le(4, |body| % 0x1_0000_0000);
    UnLeLe(4, |body| % 0x1_0000_0000);
    Widths();
  }

  // ---- VBR1 ----

  datatype Det = Det(cx: F32, cy: F32, w: F32, h: F32, score: F32, classId: I32, trackId: U32)

  datatype FrameRec = FrameRec(
    streamIndex: U32, seqNo: U64, wallMs: F64, srcW: I32, srcH: I32, modelW: I32, modelH: I32,
    scale: F32, padX: F32, padY: F32, align: U8, kptPerDet: U8, inferenceMs: F32, queueDelayMs: F32, attrPerDet: U8,
    dets: seq<Det>, kpts: seq<F32>, attrs: seq<F32>)

  const BODY: seq<nat> := [4, 8, 8, 4, 4, 4, 4, 4, 4, 4, 1, 1, 2, 4, 4, 1, 1, 2]
  const DET: seq<nat> := [4, 4, 4, 4, 4, 4, 4]
  const KPT: seq<nat> := [4, 4, 4]

  function Validate(r: FrameRec): Option<Error> {
    if |r.dets| > 0xFFFF then Some(TooMany)
    else if |r.kpts| != |r.dets| * r.kptPerDet * 3 then Some(Mismatch)
    else if |r.attrs| != |r.dets| * r.attrPerDet then Some(Mismatch)
    else None
  }

  function FixedFields(r: FrameRec): seq<nat> {
    [r.streamIndex, r.seqNo, r.wallMs, Bits(r.srcW), Bits(r.srcH), Bits(r.modelW), Bits(r.modelH),
     r.scale, r.padX, r.padY, r.align, r.kptPerDet, |r.dets|, r.inferenceMs, r.queueDelayMs, r.attrPerDet, 0, 0]
  }

  function DetFields(d: Det): seq<nat> {
    [d.cx, d.cy, d.w, d.h, d.score, Bits(d.classId), d.trackId]
  }

  function DetRows(ds: seq<Det>): (rows: seq<seq<nat>>)
    ensures |rows| == |ds| && forall i | 0 <= i < |ds| :: rows[i] == DetFields(ds[i])
  {
    seq(|ds|, i requires 0 <= i < |ds| => DetFields(ds[i]))
  }

  lemma BodySize()
    ensures Size(BODY) == 64
  {
    var r5 := [1, 1, 2] + [];
    var r4 := [2, 4, 4] + r5;
    var r3 := [4, 1, 1] + r4;
    var r2 := [4, 4, 4] + r3;
    var r1 := [4, 4, 4] + r2;
    SizeFront(1, 1, 2, []);
    SizeFront(2, 4, 4, r5);
    SizeFront(4, 1, 1, r4);
    SizeFront(4, 4, 4, r3);
    SizeFront(4, 4, 4, r2);
    SizeFront(4, 8, 8, r1);
    assert BODY == [4, 8, 8] + r1;
  }

  lemma RowSizes()
    ensures Size(DET) == 28 && Size(KPT) == 12
  {
    assert DET == Floats(7) && KPT == Floats(3);
    FloatsSize(7);
    FloatsSize(3);
  }

  lemma FixedFit(r: FrameRec)
    requires |r.dets| <= 0xFFFF
    ensures Fits(BODY, FixedFields(r))
  {
    Widths();
  }

  /** The body the encoder writes. */
  function Vbr1Body(r: FrameRec): seq<Byte> {
    Pack(BODY, FixedFields(r)) + Items(DET, DetRows(r.dets)) + FloatBytes(r.kpts) + FloatBytes(r.attrs)
  }

  lemma MulMono(n: nat, a: nat, b: nat)
    requires a <= b
    ensures n * a <= n * b
  {
  }

  lemma Vbr1Parts(r: FrameRec)
    ensures |Pack(BODY, FixedFields(r))| == 64
    ensures |Items(DET, DetRows(r.dets))| == |r.dets| * 28
  {
    BodySize();
    RowSizes();
    PackSize(BODY, FixedFields(r));
    ItemsSize(DET, DetRows(r.dets));
  }

  /** The declared length is the true one, and the u32 cast never narrows it. */
  lemma Vbr1BodySize(r: FrameRec)
    requires Validate(r).None?
    ensures |Vbr1Body(r)| == 64 + |r.dets| * 28 + |r.dets| * r.kptPerDet * 3 * 4 + |r.dets| * r.attrPerDet * 4
    ensures |Vbr1Body(r)| < 0x1_0000_0000
  {
    Vbr1Parts(r);
    MulMono(|r.dets|, r.kptPerDet, 255);
    MulMono(|r.dets|, r.attrPerDet, 255);
  }

  method EncodeVbr1(r: FrameRec, out: Buffer) returns (err: Option<Error>)
    modifies out
    ensures err == Validate(r)
    ensures err.Some? ==> out.bytes == old(out.bytes)
    ensures err.None? ==> out.bytes == old(out.bytes) + Record(VBR1, Vbr1Body(r))
  {
    err := Validate(r);
    if err.Some? {
      return;
    }
    Vbr1BodySize(r);
    var n := |r.dets|;
    var bodyLen := 64 + n * 28 + n * r.kptPerDet * 3 * 4 + n * r.attrPerDet * 4;
    PutHeader(VBR1, bodyLen, out);
    PutBody(r, out);
    Assoc(old(out.bytes), Header(VBR1, bodyLen), Vbr1Body(r));
  }

  method PutHeader(m: Magic, bodyLen: nat, out: Buffer)
    modifies out
    ensures out.bytes == old(out.bytes) + Header(m, bodyLen)
  {
    out.Insert(MagicBytes(m));
    out.Put(4, bodyLen % 0x1_0000_0000);
    Assoc(old(out.bytes), MagicBytes(m), Le(4, bodyLen % 0x1_0000_0000));
  }

  method PutBody(r: FrameRec, out: Buffer)
    modifies out
    ensures out.bytes == old(out.bytes) + Vbr1Body(r)
  {
    out.PutAll(BODY, FixedFields(r));
    PutDets(r.dets, out);
    PutFloats(r.kpts, out);
    PutFloats(r.attrs, out);
    Regroup(old(out.bytes), Pack(BODY, FixedFields(r)), Items(DET, DetRows(r.dets)), FloatBytes(r.kpts),
        FloatBytes(r.attrs));
  }

  lemma Regroup(o: seq<Byte>, p: seq<Byte>, d: seq<Byte>, k: seq<Byte>, a: seq<Byte>)
    ensures o + p + d + k + a == o + (p + d + k + a)
  {
  }

  method PutDets(ds: seq<Det>, out: Buffer)
    modifies out
    ensures out.bytes == old(out.bytes) + Items(DET, DetRows(ds))
  {
    var i := 0;
    while i < |ds|
      invariant i <= |ds|
      invariant out.bytes == old(out.bytes) + Items(DET, DetRows(ds)[..i])
    {
      out.PutAll(DET, DetFields(ds[i]));
      assert DetRows(ds)[..i + 1][..i] == DetRows(ds)[..i];
      i := i + 1;
    }
    assert DetRows(ds)[..i] == DetRows(ds);
  }

  method PutFloats(vs: seq<F32>, out: Buffer)
    modifies out
    ensures out.bytes == old(out.bytes) + FloatBytes(vs)
  {
    var i := 0;
    while i < |vs|
      invariant i <= |vs|
      invariant out.bytes == old(out.bytes) + FloatBytes(vs[..i])
    {
      out.Put(4, vs[i]);
      assert vs[..i + 1][..i] == vs[..i];
      i := i + 1;
    }
    assert vs[..i] == vs;
  }

  // ---- decode_result ----

  /** A detection as decoded; integers are still unsigned bits except classId. */
  datatype DetDict = DetDict(
    cx: nat, cy: nat, w: nat, h: nat, score: nat, classId: int, trackId: nat,
    keypoints: seq<seq<nat>>, attrs: seq<nat>)

  datatype FrameDict = FrameDict(
    streamIndex: nat, seqNo: nat, wallMs: nat, srcW: int, srcH: int, modelW: int, modelH: int,
    scale: nat, padX: nat, padY: nat, align: nat, inferenceMs: nat, queueDelayMs: nat, detections: seq<DetDict>)

  /** What a decoded frame must hold, told from the record itself. */
  function Meaning(r: FrameRec): FrameDict
    requires Validate(r).None?
  {
    FrameDict(r.streamIndex, r.seqNo, r.wallMs, r.srcW, r.srcH, r.modelW, r.modelH, r.scale, r.padX, r.padY, r.align,
              r.inferenceMs, r.queueDelayMs,
              seq(|r.dets|, i requires 0 <= i < |r.dets| => DetMeaning(r, i)))
  }

  function DetMeaning(r: FrameRec, i: nat): DetDict
    requires Validate(r).None? && i < |r.dets|
  {
    var d := r.dets[i];
    DetDict(d.cx, d.cy, d.w, d.h, d.score, d.classId, d.trackId, KptsMeaning(r, i),
            RowOf(r.attrs, |r.dets|, r.attrPerDet, i))
  }

  function KptsMeaning(r: FrameRec, i: nat): (kpts: seq<seq<nat>>)
    requires Validate(r).None? && i < |r.dets|
    ensures |kpts| == r.kptPerDet && forall j | 0 <= j < r.kptPerDet :: kpts[j] == KptMeaning(r, i, j)
  {
    seq(r.kptPerDet, j requires 0 <= j < r.kptPerDet => KptMeaning(r, i, j))
  }

  function KptMeaning(r: FrameRec, i: nat, j: nat): seq<nat>
    requires Validate(r).None? && i < |r.dets| && j < r.kptPerDet
  {
    CellBound(i, |r.dets|, j, r.kptPerDet);
    var q := 3 * (i * r.kptPerDet + j);
    [r.kpts[q], r.kpts[q + 1], r.kpts[q + 2]]
  }

  /** Row i of a [row][column] block with the given stride. */
  function RowOf<T>(s: seq<T>, rows: nat, width: nat, i: nat): (row: seq<T>)
    requires i < rows && |s| == rows * width
    ensures |row| == width
  {
    RowBound(i, rows, width);
    s[i * width..i * width + width]
  }

  lemma RowBound(i: nat, rows: nat, width: nat)
    requires i < rows
    ensures i * width + width <= rows * width
  {
    MulMono(width, i + 1, rows);
  }

  lemma CellBound(i: nat, rows: nat, j: nat, width: nat)
    requires i < rows && j < width
    ensures i * width + j + 1 <= rows * width
  {
    RowBound(i, rows, width);
  }

  /** Bytes of the detections, key points and attributes together. */
  function Need(n: nat, k: nat, a: nat): nat {
    n * (28 + k * 12 + a * 4)
  }

  lemma NeedParts(n: nat, k: nat, a: nat)
    ensures Need(n, k, a) == 28 * n + 12 * (n * k) + 4 * (n * a)
  {
  }

  /** The body is long enough for n detections with k key points and a attributes. */
  predicate Holds(body: seq<Byte>, n: nat, k: nat, a: nat) {
    |body| >= 64 + 28 * n + 12 * (n * k) + 4 * (n * a)
  }

  function BareDet(body: seq<Byte>, n: nat, k: nat, a: nat, i: nat): DetDict
    requires Holds(body, n, k, a) && i < n
  {
    RowSizes();
    var d := Unpack(DET, body, 64 + 28 * i);
    DetDict(d[0], d[1], d[2], d[3], d[4], Signed(d[5]), d[6], [], [])
  }

  function KptAt(body: seq<Byte>, n: nat, k: nat, a: nat, i: nat, j: nat): seq<nat>
    requires Holds(body, n, k, a) && i < n && j < k
  {
    RowSizes();
    CellBound(i, n, j, k);
    Unpack(KPT, body, 64 + 28 * n + 12 * (i * k + j))
  }

  function KptsAt(body: seq<Byte>, n: nat, k: nat, a: nat, i: nat): seq<seq<nat>>
    requires Holds(body, n, k, a) && i < n
  {
    seq(k, j requires 0 <= j < k => KptAt(body, n, k, a, i, j))
  }

  function AttrsAt(body: seq<Byte>, n: nat, k: nat, a: nat, i: nat): seq<nat>
    requires Holds(body, n, k, a) && i < n
  {
    RowBound(i, n, a);
    FloatsSize(a);
    Unpack(Floats(a), body, 64 + 28 * n + 12 * (n * k) + 4 * (i * a))
  }

  function DetAt(body: seq<Byte>, n: nat, k: nat, a: nat, i: nat): DetDict
    requires Holds(body, n, k, a) && i < n
  {
    BareDet(body, n, k, a, i).(keypoints := KptsAt(body, n, k, a, i), attrs := AttrsAt(body, n, k, a, i))
  }

  function Dets(body: seq<Byte>, n: nat, k: nat, a: nat): seq<DetDict>
    requires Holds(body, n, k, a)
  {
    seq(n, i requires 0 <= i < n => DetAt(body, n, k, a, i))
  }

  function Frame(f: seq<nat>, dets: seq<DetDict>): FrameDict
    requires |f| == 18
  {
    FrameDict(f[0], f[1], f[2], Signed(f[3]), Signed(f[4]), Signed(f[5]), Signed(f[6]), f[7], f[8], f[9], f[10],
              f[13], f[14], dets)
  }

  /** Every field read at its own fixed offset. */
  function Decoded(body: seq<Byte>): Result<FrameDict, Error> {
    if |body| < 64 then Err(Truncated)
    else
      BodySize();
      var f := Unpack(BODY, body, 0);
      if !Holds(body, f[12], f[11], f[15]) then Err(Truncated) else Ok(Frame(f, Dets(body, f[12], f[11], f[15])))
  }

  method DecodeResult(body: seq<Byte>) returns (res: Result<FrameDict, Error>)
    ensures res == Decoded(body)
  {
    if |body| < 64 {
      return Err(Truncated);
    }
    BodySize();
    var f := Unpack(BODY, body, 0);
    NeedParts(f[12], f[11], f[15]);
    if |body| - 64 < Need(f[12], f[11], f[15]) {
      return Err(Truncated);
    }
    var dets, offset := ReadDets(body, f[12], f[11], f[15]);
    dets, offset := ReadKeypoints(body, f[12], f[11], f[15], dets, offset);
    dets := ReadAttrs(body, f[12], f[11], f[15], dets, offset);
    return Ok(Frame(f, dets));
  }

  method ReadDets(body: seq<Byte>, n: nat, k: nat, a: nat) returns (dets: seq<DetDict>, offset: nat)
    requires Holds(body, n, k, a)
    ensures |dets| == n && offset == 64 + 28 * n
    ensures forall x | 0 <= x < n :: dets[x] == BareDet(body, n, k, a, x)
  {
    RowSizes();
    dets, offset := [], 64;
    var i := 0;
    while i < n
      invariant i <= n && offset == 64 + 28 * i && |dets| == i
      invariant forall x | 0 <= x < i :: dets[x] == BareDet(body, n, k, a, x)
    {
      var d := Unpack(DET, body, offset);
      offset := offset + 28;
      dets := dets + [DetDict(d[0], d[1], d[2], d[3], d[4], Signed(d[5]), d[6], [], [])];
      i := i + 1;
    }
  }

  method ReadKeypoints(body: seq<Byte>, n: nat, k: nat, a: nat, bare: seq<DetDict>, start: nat)
      returns (dets: seq<DetDict>, offset: nat)
    requires Holds(body, n, k, a) && |bare| == n && start == 64 + 28 * n
    ensures |dets| == n && offset == 64 + 28 * n + 12 * (n * k)
    ensures forall x | 0 <= x < n :: dets[x] == bare[x].(keypoints := KptsAt(body, n, k, a, x))
  {
    dets, offset := bare, start;
    var i := 0;
    while i < n
      invariant i <= n && offset == 64 + 28 * n + 12 * (i * k) && |dets| == n
      invariant forall x | 0 <= x < i :: dets[x] == bare[x].(keypoints := KptsAt(body, n, k, a, x))
      invariant forall x | i <= x < n :: dets[x] == bare[x]
    {
      var kpts := ReadOneSet(body, n, k, a, i, offset);
      dets := dets[i := dets[i].(keypoints := kpts)];
      offset := offset + 12 * k;
      assert (i + 1) * k == i * k + k;
      i := i + 1;
    }
  }

  method ReadOneSet(body: seq<Byte>, n: nat, k: nat, a: nat, i: nat, start: nat) returns (kpts: seq<seq<nat>>)
    requires Holds(body, n, k, a) && i < n && start == 64 + 28 * n + 12 * (i * k)
    ensures kpts == KptsAt(body, n, k, a, i)
  {
    RowSizes();
    kpts := [];
    var offset, j := start, 0;
    while j < k
      invariant j <= k && offset == start + 12 * j && |kpts| == j
      invariant forall y | 0 <= y < j :: kpts[y] == KptAt(body, n, k, a, i, y)
    {
      CellBound(i, n, j, k);
      assert offset == 64 + 28 * n + 12 * (i * k + j);
      kpts := kpts + [Unpack(KPT, body, offset)];
      offset := offset + 12;
      j := j + 1;
    }
  }

  method ReadAttrs(body: seq<Byte>, n: nat, k: nat, a: nat, given: seq<DetDict>, start: nat)
      returns (dets: seq<DetDict>)
    requires Holds(body, n, k, a) && |given| == n && start == 64 + 28 * n + 12 * (n * k)
    requires forall x | 0 <= x < n :: given[x] == BareDet(body, n, k, a, x).(keypoints := KptsAt(body, n, k, a, x))
    ensures dets == Dets(body, n, k, a)
  {
    FloatsSize(a);
    dets := given;
    var offset, i := start, 0;
    while i < n
      invariant i <= n && offset == start + 4 * (i * a) && |dets| == n
      invariant forall x | 0 <= x < i :: dets[x] == given[x].(attrs := AttrsAt(body, n, k, a, x))
      invariant forall x | i <= x < n :: dets[x] == given[x]
    {
      RowBound(i, n, a);
      if a != 0 {
        dets := dets[i := dets[i].(attrs := Unpack(Floats(a), body, offset))];
        offset := offset + a * 4;
      }
      assert (i + 1) * a == i * a + a;
      i := i + 1;
    }
  }

  // ---- The decoder undoes the encoder ----

  lemma SignedBits(v: I32)
    ensures Signed(Bits(v)) == v
  {
  }

  lemma Regroup4(p: seq<Byte>, d: seq<Byte>, k: seq<Byte>, a: seq<Byte>)
    ensures p + d + k + a == p + (d + k + a)
    ensures p + d + k + a == p + d + (k + a)
    ensures p + d + k + a == p + d + k + a + []
  {
  }

  lemma Shapes(r: FrameRec) returns (p: seq<Byte>, d: seq<Byte>, k: seq<Byte>, a: seq<Byte>)
    ensures p == Pack(BODY, FixedFields(r)) && d == Items(DET, DetRows(r.dets))
    ensures k == FloatBytes(r.kpts) && a == FloatBytes(r.attrs) && |p| == 64 && |d| == |r.dets| * 28
    ensures Vbr1Body(r) == p + (d + k + a) == p + d + (k + a) == p + d + k + a == p + d + k + a + []
  {
    p, d, k, a := Pack(BODY, FixedFields(r)), Items(DET, DetRows(r.dets)), FloatBytes(r.kpts), FloatBytes(r.attrs);
    Vbr1Parts(r);
    Regroup4(p, d, k, a);
  }

  lemma FixedBack(r: FrameRec)
    requires |r.dets| <= 0xFFFF
    ensures Size(BODY) == 64 <= |Vbr1Body(r)| && Unpack(BODY, Vbr1Body(r), 0) == FixedFields(r)
  {
    BodySize();
    FixedFit(r);
    var p, d, k, a := Shapes(r);
    UnpackFirst(BODY, FixedFields(r), d + k + a);
  }

  /** The declared counts ask for exactly the bytes the body has. */
  lemma NeedIsThere(r: FrameRec)
    requires Validate(r).None?
    ensures |Vbr1Body(r)| == 64 + Need(|r.dets|, r.kptPerDet, r.attrPerDet)
    ensures Holds(Vbr1Body(r), |r.dets|, r.kptPerDet, r.attrPerDet)
  {
    Vbr1BodySize(r);
    NeedParts(|r.dets|, r.kptPerDet, r.attrPerDet);
  }

  lemma DetFit(d: Det)
    ensures Fits(DET, DetFields(d))
  {
    Widths();
  }

  lemma DetBack(r: FrameRec, i: nat)
    requires Validate(r).None? && i < |r.dets|
    requires Holds(Vbr1Body(r), |r.dets|, r.kptPerDet, r.attrPerDet)
    ensures BareDet(Vbr1Body(r), |r.dets|, r.kptPerDet, r.attrPerDet, i) ==
            DetMeaning(r, i).(keypoints := [], attrs := [])
  {
    RowSizes();
    DetFit(r.dets[i]);
    var p, d, k, a := Shapes(r);
    UnpackItem(DET, DetRows(r.dets), i, p, k + a);
    SignedBits(r.dets[i].classId);
  }

  lemma FloatsIn(body: seq<Byte>, front: seq<Byte>, vs: seq<F32>, tail: seq<Byte>, at: nat, n: nat, off: nat)
    requires body == front + FloatBytes(vs) + tail && at + n <= |vs| && off == |front| + 4 * at
    ensures off + Size(Floats(n)) <= |body| && Unpack(Floats(n), body, off) == vs[at..at + n]
  {
    UnpackFloats(vs, at, n, front, tail, off);
  }

  // In the next lemmas `off` and `at` name the offset and the index of a cell.

  lemma KptOffset(body: seq<Byte>, n: nat, k: nat, a: nat, i: nat, j: nat, off: nat)
    requires Holds(body, n, k, a) && i < n && j < k && off == 64 + 28 * n + 12 * (i * k + j)
    ensures off + Size(KPT) <= |body| && KptAt(body, n, k, a, i, j) == Unpack(KPT, body, off)
  {
    CellBound(i, n, j, k);
    RowSizes();
  }

  lemma KptCell(r: FrameRec, i: nat, j: nat, at: nat)
    requires Validate(r).None? && i < |r.dets| && j < r.kptPerDet && at == 3 * (i * r.kptPerDet + j)
    ensures at + 3 <= |r.kpts| && KptMeaning(r, i, j) == r.kpts[at..at + 3]
  {
    CellBound(i, |r.dets|, j, r.kptPerDet);
  }

  lemma KptBack(r: FrameRec, i: nat, j: nat, at: nat, off: nat)
    requires Validate(r).None? && i < |r.dets| && j < r.kptPerDet
    requires at == 3 * (i * r.kptPerDet + j) && off == 64 + 28 * |r.dets| + 12 * (i * r.kptPerDet + j)
    requires Holds(Vbr1Body(r), |r.dets|, r.kptPerDet, r.attrPerDet)
    ensures KptAt(Vbr1Body(r), |r.dets|, r.kptPerDet, r.attrPerDet, i, j) == KptMeaning(r, i, j)
  {
    var p, d, k, a := Shapes(r);
    KptOffset(Vbr1Body(r), |r.dets|, r.kptPerDet, r.attrPerDet, i, j, off);
    KptCell(r, i, j, at);
    assert KPT == Floats(3);
    FloatsIn(Vbr1Body(r), p + d, r.kpts, a, at, 3, off);
  }

  lemma AttrsOffset(body: seq<Byte>, n: nat, k: nat, a: nat, i: nat, off: nat)
    requires Holds(body, n, k, a) && i < n && off == 64 + 28 * n + 12 * (n * k) + 4 * (i * a)
    ensures off + Size(Floats(a)) <= |body| && AttrsAt(body, n, k, a, i) == Unpack(Floats(a), body, off)
  {
    RowBound(i, n, a);
    FloatsSize(a);
  }

  lemma AttrsRow(attrs: seq<F32>, n: nat, a: nat, i: nat, at: nat)
    requires i < n && |attrs| == n * a && at == i * a
    ensures at + a <= |attrs| && RowOf(attrs, n, a, i) == attrs[at..at + a]
  {
    RowBound(i, n, a);
  }

  lemma KptBytes(r: FrameRec)
    requires Validate(r).None?
    ensures |FloatBytes(r.kpts)| == 12 * (|r.dets| * r.kptPerDet)
  {
    assert |FloatBytes(r.kpts)| == 4 * |r.kpts|;
    assert |r.kpts| == (|r.dets| * r.kptPerDet) * 3;
  }

  lemma AttrsBack(r: FrameRec, i: nat, at: nat, off: nat)
    requires Validate(r).None? && i < |r.dets|
    requires at == i * r.attrPerDet && off == 64 + 28 * |r.dets| + 12 * (|r.dets| * r.kptPerDet) + 4 * at
    requires Holds(Vbr1Body(r), |r.dets|, r.kptPerDet, r.attrPerDet)
    ensures AttrsAt(Vbr1Body(r), |r.dets|, r.kptPerDet, r.attrPerDet, i) == RowOf(r.attrs, |r.dets|, r.attrPerDet, i)
  {
    var p, d, k, a := Shapes(r);
    KptBytes(r);
    AttrsRow(r.attrs, |r.dets|, r.attrPerDet, i, at);
    AttrsOffset(Vbr1Body(r), |r.dets|, r.kptPerDet, r.attrPerDet, i, off);
    FloatsIn(Vbr1Body(r), p + d + k, r.attrs, [], at, r.attrPerDet, off);
  }

  lemma KptsBack(r: FrameRec, i: nat)
    requires Validate(r).None? && i < |r.dets|
    requires Holds(Vbr1Body(r), |r.dets|, r.kptPerDet, r.attrPerDet)
    ensures KptsAt(Vbr1Body(r), |r.dets|, r.kptPerDet, r.attrPerDet, i) == DetMeaning(r, i).keypoints
  {
    forall j | 0 <= j < r.kptPerDet
      ensures KptAt(Vbr1Body(r), |r.dets|, r.kptPerDet, r.attrPerDet, i, j) == KptMeaning(r, i, j)
    {
      KptBack(r, i, j, 3 * (i * r.kptPerDet + j), 64 + 28 * |r.dets| + 12 * (i * r.kptPerDet + j));
    }
  }

  lemma DetAtBack(r: FrameRec, i: nat)
    requires Validate(r).None? && i < |r.dets|
    requires Holds(Vbr1Body(r), |r.dets|, r.kptPerDet, r.attrPerDet)
    ensures DetAt(Vbr1Body(r), |r.dets|, r.kptPerDet, r.attrPerDet, i) == DetMeaning(r, i)
  {
    DetBack(r, i);
    KptsBack(r, i);
    var at := i * r.attrPerDet;
    AttrsBack(r, i, at, 64 + 28 * |r.dets| + 12 * (|r.dets| * r.kptPerDet) + 4 * at);
  }

  lemma DetsBack(r: FrameRec)
    requires Validate(r).None?
    requires Holds(Vbr1Body(r), |r.dets|, r.kptPerDet, r.attrPerDet)
    ensures Dets(Vbr1Body(r), |r.dets|, r.kptPerDet, r.attrPerDet) == Meaning(r).detections
  {
    forall i | 0 <= i < |r.dets|
      ensures DetAt(Vbr1Body(r), |r.dets|, r.kptPerDet, r.attrPerDet, i) == DetMeaning(r, i)
    {
      DetAtBack(r, i);
    }
  }

  lemma FrameBack(r: FrameRec, dets: seq<DetDict>)
    requires Validate(r).None?
    ensures Frame(FixedFields(r), dets) == Meaning(r).(detections := dets)
  {
    SignedBits(r.srcW);
    SignedBits(r.srcH);
    SignedBits(r.modelW);
    SignedBits(r.modelH);
  }

  /** What decode_result does once the fixed part was read as f. */
  lemma DecodedFrom(body: seq<Byte>, f: seq<nat>)
    requires |body| >= 64 && Size(BODY) == 64 && Unpack(BODY, body, 0) == f
    ensures |f| == 18
    ensures Decoded(body) == if Holds(body, f[12], f[11], f[15]) then Ok(Frame(f, Dets(body, f[12], f[11], f[15])))
                             else Err(Truncated)
  {
  }

  /** Whatever the encoder accepts, decode_result returns: every field of every
      detection, its own key points, and its own attribute row. */
  lemma RoundTrip(r: FrameRec)
    requires Validate(r).None?
    ensures Decoded(Vbr1Body(r)) == Ok(Meaning(r))
  {
    FixedBack(r);
    NeedIsThere(r);
    DecodedFrom(Vbr1Body(r), FixedFields(r));
    DetsBack(r);
    FrameBack(r, Meaning(r).detections);
  }

  lemma CutHoldsLess(r: FrameRec, cut: nat)
    requires Validate(r).None? && cut < |Vbr1Body(r)|
    ensures var f := FixedFields(r);
            !Holds(Vbr1Body(r)[..cut], f[12], f[11], f[15])
  {
    NeedIsThere(r);
    NeedParts(|r.dets|, r.kptPerDet, r.attrPerDet);
  }

  /** Any shorter body is refused instead of being read past its end. */
  lemma ShortBodyRefused(r: FrameRec, cut: nat)
    requires Validate(r).None? && cut < |Vbr1Body(r)|
    ensures Decoded(Vbr1Body(r)[..cut]) == Err(Truncated)
  {
    if cut >= 64 {
      CutHoldsLess(r, cut);
      BodySize();
      FixedFit(r);
      var p, d, k, a := Shapes(r);
      CutTail(p, d + k + a, cut);
      UnpackFirst(BODY, FixedFields(r), (d + k + a)[..cut - 64]);
      DecodedFrom(Vbr1Body(r)[..cut], FixedFields(r));
    }
  }

  lemma CutTail(p: seq<Byte>, rest: seq<Byte>, cut: nat)
    requires |p| <= cut <= |p + rest|
    ensures (p + rest)[..cut] == p + rest[..cut - |p|]
  {
  }

  // ---- VBS1 ----

  function Vbs1Body(meta: seq<Byte>, payload: seq<Byte>): seq<Byte> {
    Le(4, |meta| % 0x1_0000_0000) + meta + payload
  }

  /** decode_snapshot; the JSON text stays bytes. */
  function DecodedSnapshot(body: seq<Byte>): Result<(seq<Byte>, seq<Byte>), Error> {
    if |body| < 4 then Err(Truncated)
    else
      var n := UnLe(body[..4]);
      if |body| < 4 + n then Err(Truncated) else Ok((body[4..4 + n], body[4 + n..]))
  }

  method EncodeVbs1(meta: seq<Byte>, payload: seq<Byte>, out: Buffer)
    modifies out
    ensures out.bytes == old(out.bytes) + Record(VBS1, Vbs1Body(meta, payload))
  {
    PutHeader(VBS1, 4 + |meta| + |payload|, out);
    ghost var start := out.bytes;
    out.Put(4, |meta| % 0x1_0000_0000);
    out.Insert(meta);
    out.Insert(payload);
    Regroup(start, Le(4, |meta| % 0x1_0000_0000), meta, payload, []);
    assert start + Vbs1Body(meta, payload) == out.bytes;
    Assoc(old(out.bytes), Header(VBS1, 4 + |meta| + |payload|), Vbs1Body(meta, payload));
  }

  method EncodeJson(magic: Magic, body: seq<Byte>, out: Buffer)
    modifies out
    ensures out.bytes == old(out.bytes) + Record(magic, body)
  {
    PutHeader(magic, |body|, out);
    out.Insert(body);
    Assoc(old(out.bytes), Header(magic, |body|), body);
  }

  /** A snapshot comes back exactly when its meta text fits the u32 length. */
  lemma SnapshotRoundTrip(meta: seq<Byte>, payload: seq<Byte>)
    ensures DecodedSnapshot(Vbs1Body(meta, payload)) == Ok((meta, payload)) <==> |meta| < 0x1_0000_0000
  {
    var body := Vbs1Body(meta, payload);
    assert body[..4] == Le(4, |meta| % 0x1_0000_0000);
    UnLeLe(4, |meta| % 0x1_0000_0000);
    Widths();
    if |meta| < 0x1_0000_0000 {
      assert body[4..4 + |meta|] == meta && body[4 + |meta|..] == payload;
    }
  }
}
