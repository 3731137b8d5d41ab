/** VBT1 records: the C++ encoder (dev_tensor.cpp) and decode_tensors
    (vision_base/wire.py). */
module WireTensors {
  import opened Wrappers
  import opened Bytes
  import opened Wire

  datatype Tensor = Tensor(
    dtype: U8, nhwc: bool, dims: seq<I32>, scale: F32, zeroPoint: I32, name: seq<Byte>, data: seq<Byte>)

  datatype TensorFrame = TensorFrame(
    streamIndex: U32, seqNo: U64, wallMs: F64, srcW: I32, srcH: I32, modelW: I32, modelH: I32,
    scale: F32, padX: F32, padY: F32, align: U8, tensors: seq<Tensor>)

  const TBODY: seq<nat> := [4, 8, 8, 4, 4, 4, 4, 4, 4, 4, 1, 1, 1, 1, 2, 2]
  const TTENSOR: seq<nat> := [1, 1, 1, 1, 4, 4, 4, 4, 4, 4]
  const MAX_RECORD: nat := 16 * 1024 * 1024

  // ---- Encoding ----

  function CheckTensors(ts: seq<Tensor>): Option<Error> {
    if ts == [] then None
    else if |ts[0].dims| > 4 then Some(BadDims)
    else if |ts[0].name| > 0xFFFF then Some(TooLong)
    else if |ts[0].data| > 0xFFFF_FFFF then Some(TooLong)
    else CheckTensors(ts[1..])
  }

  function FrameFields(f: TensorFrame): seq<nat> {
    [f.streamIndex, f.seqNo, f.wallMs, Bits(f.srcW), Bits(f.srcH), Bits(f.modelW), Bits(f.modelH),
     f.scale, f.padX, f.padY, f.align, 0, 0, 0, |f.tensors| % 0x1_0000, 0]
  }

  /** dims padded with zeros to four. */
  function Dim(t: Tensor, i: nat): U32 {
    if i < |t.dims| then Bits(t.dims[i]) else 0
  }

  function TensorFields(t: Tensor): seq<nat> {
    [t.dtype, |t.dims| % 0x100, if t.nhwc then 1 else 0, 0, Dim(t, 0), Dim(t, 1), Dim(t, 2), Dim(t, 3),
     t.scale, Bits(t.zeroPoint)]
  }

  function TensorBytes(t: Tensor): seq<Byte> {
    Pack(TTENSOR, TensorFields(t)) + Le(2, |t.name| % 0x1_0000) + t.name + Le(4, |t.data| % 0x1_0000_0000) + t.data
  }

  function AllTensors(ts: seq<Tensor>): seq<Byte> {
    if ts == [] then [] else AllTensors(ts[..|ts| - 1]) + TensorBytes(ts[|ts| - 1])
  }

  function Vbt1Body(f: TensorFrame): seq<Byte> {
    Pack(TBODY, FrameFields(f)) + AllTensors(f.tensors)
  }

  function ValidateTensors(f: TensorFrame): Option<Error> {
    if |f.tensors| > 0xFFFF then Some(TooMany)
    else if CheckTensors(f.tensors).Some? then CheckTensors(f.tensors)
    else if 8 + |Vbt1Body(f)| > MAX_RECORD then Some(TooLong)
    else None
  }

  method EncodeVbt1(f: TensorFrame, out: Buffer) returns (err: Option<Error>)
    modifies out
    ensures err == ValidateTensors(f)
    ensures err.Some? ==> out.bytes == old(out.bytes)
    ensures err.None? ==> out.bytes == old(out.bytes) + Record(VBT1, Vbt1Body(f))
  {
    if |f.tensors| > 0xFFFF {
      return Some(TooMany);
    }
    err := RunChecks(f.tensors);
    if err.Some? {
      return;
    }
    var body := BuildBody(f);
    if 8 + |body| > MAX_RECORD {
      return Some(TooLong);
    }
    out.Insert(MagicBytes(VBT1));
    out.Put(4, |body| % 0x1_0000_0000);
    out.Insert(body);
    Assoc(old(out.bytes), MagicBytes(VBT1), Le(4, |body| % 0x1_0000_0000));
    Assoc(old(out.bytes), Header(VBT1, |body|), body);
  }

  method RunChecks(ts: seq<Tensor>) returns (err: Option<Error>)
    ensures err == CheckTensors(ts)
  {
    var i := 0;
    while i < |ts|
      invariant i <= |ts|
      invariant CheckTensors(ts) == CheckTensors(ts[i..])
    {
      assert ts[i..][1..] == ts[i + 1..];
      if |ts[i].dims| > 4 {
        return Some(BadDims);
      }
      if |ts[i].name| > 0xFFFF || |ts[i].data| > 0xFFFF_FFFF {
        return Some(TooLong);
      }
      i := i + 1;
    }
    err := None;
  }

  method BuildBody(f: TensorFrame) returns (bytes: seq<Byte>)
    ensures bytes == Vbt1Body(f)
  {
    var body := new Buffer();
    body.PutAll(TBODY, FrameFields(f));
    var i := 0;
    while i < |f.tensors|
      invariant i <= |f.tensors|
      invariant body.bytes == Pack(TBODY, FrameFields(f)) + AllTensors(f.tensors[..i])
    {
      PutTensor(f.tensors[i], body);
      assert f.tensors[..i + 1][..i] == f.tensors[..i];
      Assoc(Pack(TBODY, FrameFields(f)), AllTensors(f.tensors[..i]), TensorBytes(f.tensors[i]));
      i := i + 1;
    }
    assert f.tensors[..i] == f.tensors;
    bytes := body.bytes;
  }

  /** A length field and the bytes it counts. */
  method PutSized(width: nat, length: nat, s: seq<Byte>, body: Buffer)
    modifies body
    ensures body.bytes == old(body.bytes) + Le(width, length) + s
  {
    body.Put(width, length);
    body.Insert(s);
  }

  lemma Regroup5(o: seq<Byte>, h: seq<Byte>, nl: seq<Byte>, n: seq<Byte>, dl: seq<Byte>, d: seq<Byte>)
    ensures o + h + nl + n + dl + d == o + (h + nl + n + dl + d)
  {
  }

  method PutTensor(t: Tensor, body: Buffer)
    modifies body
    ensures body.bytes == old(body.bytes) + TensorBytes(t)
  {
    body.PutAll(TTENSOR, TensorFields(t));
    PutSized(2, |t.name| % 0x1_0000, t.name, body);
    PutSized(4, |t.data| % 0x1_0000_0000, t.data, body);
    Regroup5(old(body.bytes), Pack(TTENSOR, TensorFields(t)), Le(2, |t.name| % 0x1_0000), t.name,
             Le(4, |t.data| % 0x1_0000_0000), t.data);
  }

  // ---- decode_tensors ----

  datatype TensorDict = TensorDict(
    dtype: nat, nhwc: bool, dims: seq<int>, scale: nat, zeroPoint: int, name: seq<Byte>, data: seq<Byte>)

  datatype Align = Center | TopLeft

  datatype TensorFrameDict = TensorFrameDict(
    streamIndex: nat, seqNo: nat, wallMs: nat, srcW: int, srcH: int, modelW: int, modelH: int,
    scale: nat, padX: nat, padY: nat, align: Align, tensors: seq<TensorDict>)

  function AlignName(a: nat): Align {
    if a == 1 then TopLeft else Center
  }

  /** One tensor at `off`, and the offset behind it. */
  function TensorAt(body: seq<Byte>, off: nat): (res: Result<(TensorDict, nat), Error>)
    requires off <= |body|
    ensures res.Ok? ==> off < res.value.1 <= |body|
  {
    if |body| - off < 28 then Err(Truncated)
    else
      TensorSize();
      var f := Unpack(TTENSOR, body, off);
      var o1 := off + 28;
      if f[1] > 4 then Err(BadDims)
      else if |body| - o1 < 2 then Err(ShortRead)  // a struct.error, not a WireError
      else
        var nameLen := UnLe(body[o1..o1 + 2]);
        var o2 := o1 + 2;
        if |body| - o2 < nameLen then Err(Truncated)
        else
          var o3 := o2 + nameLen;
          if |body| - o3 < 4 then Err(Truncated)
          else
            var dataLen := UnLe(body[o3..o3 + 4]);
            var o4 := o3 + 4;
            if |body| - o4 < dataLen then Err(Truncated)
            else
              Ok((TensorDict(f[0], f[2] != 0, [Signed(f[4]), Signed(f[5]), Signed(f[6]), Signed(f[7])][..f[1]],
                             f[8], Signed(f[9]), body[o2..o3], body[o4..o4 + dataLen]), o4 + dataLen))
  }

  function TensorsAt(body: seq<Byte>, off: nat, n: nat): Result<seq<TensorDict>, Error>
    requires off <= |body|
    decreases n
  {
    if n == 0 then Ok([])
    else
      match TensorAt(body, off)
      case Err(e) => Err(e)
      case Ok((t, next)) =>
        Prepend([t], TensorsAt(body, next, n - 1))
  }

  function FrameOf(f: seq<nat>, ts: seq<TensorDict>): TensorFrameDict
    requires |f| == 16
  {
    TensorFrameDict(f[0], f[1], f[2], Signed(f[3]), Signed(f[4]), Signed(f[5]), Signed(f[6]), f[7], f[8], f[9],
                    AlignName(f[10]), ts)
  }

  function DecodedTensors(body: seq<Byte>): Result<TensorFrameDict, Error> {
    if |body| < 56 then Err(Truncated)
    else
      TBodySize();
      var f := Unpack(TBODY, body, 0);
      match TensorsAt(body, 56, f[14])
      case Err(e) => Err(e)
      case Ok(ts) => Ok(FrameOf(f, ts))
  }

  method DecodeTensors(body: seq<Byte>) returns (res: Result<TensorFrameDict, Error>)
    ensures res == DecodedTensors(body)
  {
    if |body| < 56 {
      return Err(Truncated);
    }
    TBodySize();
    var f := Unpack(TBODY, body, 0);
    var read := ReadTensors(body, 56, f[14]);
    match read
    case Err(e) => res := Err(e);
    case Ok(ts) => res := Ok(FrameOf(f, ts));
  }

  function Prepend(front: seq<TensorDict>, r: Result<seq<TensorDict>, Error>): Result<seq<TensorDict>, Error> {
    match r
    case Err(e) => Err(e)
    case Ok(rest) => Ok(front + rest)
  }

  method ReadTensors(body: seq<Byte>, start: nat, n: nat) returns (res: Result<seq<TensorDict>, Error>)
    requires start <= |body|
    ensures res == TensorsAt(body, start, n)
  {
    var tensors: seq<TensorDict> := [];
    var offset: nat, i: nat := start, 0;
    PrependNone(TensorsAt(body, start, n));
    while i < n
      invariant i <= n && offset <= |body|
      invariant TensorsAt(body, start, n) == Prepend(tensors, TensorsAt(body, offset, n - i))
    {
      var one := TensorAt(body, offset);
      if one.Err? {
        return Err(one.error);
      }
      PrependOne(tensors, one.value.0, TensorsAt(body, one.value.1, n - i - 1));
      tensors := tensors + [one.value.0];
      offset := one.value.1;
      i := i + 1;
    }
    assert tensors + [] == tensors;
    res := Ok(tensors);
  }

  lemma PrependNone(r: Result<seq<TensorDict>, Error>)
    ensures Prepend([], r) == r
  {
    if r.Ok? {
      assert [] + r.value == r.value;
    }
  }

  lemma PrependOne(front: seq<TensorDict>, t: TensorDict, r: Result<seq<TensorDict>, Error>)
    ensures Prepend(front, Prepend([t], r)) == Prepend(front + [t], r)
  {
    if r.Ok? {
      assert front + ([t] + r.value) == front + [t] + r.value;
    }
  }

  lemma TBodySize()
    ensures Size(TBODY) == 56
  {
    var r5 := [2] + [];
    var r4 := [1, 1, 2] + r5;
    var r3 := [4, 1, 1] + r4;
    var r2 := [4, 4, 4] + r3;
    var r1 := [4, 4, 4] + r2;
    assert Size(r5) == 2;
    SizeFront(1, 1, 2, r5);
    SizeFront(4, 1, 1, r4);
    SizeFront(4, 4, 4, r3);
    SizeFront(4, 4, 4, r2);
    SizeFront(4, 8, 8, r1);
    assert TBODY == [4, 8, 8] + r1;
  }

  lemma TensorSize()
    ensures Size(TTENSOR) == 28
  {
    var r3 := [4] + [];
    var r2 := [4, 4, 4] + r3;
    var r1 := [1, 4, 4] + r2;
    assert Size(r3) == 4;
    SizeFront(4, 4, 4, r3);
    SizeFront(1, 4, 4, r2);
    SizeFront(1, 1, 1, r1);
    assert TTENSOR == [1, 1, 1] + r1;
  }

  // ---- The decoder undoes the encoder ----

  function TensorMeaning(t: Tensor): TensorDict {
    TensorDict(t.dtype, t.nhwc, t.dims, t.scale, t.zeroPoint, t.name, t.data)
  }

  function TensorsMeaning(ts: seq<Tensor>): seq<TensorDict> {
    seq(|ts|, i requires 0 <= i < |ts| => TensorMeaning(ts[i]))
  }

  predicate Encodable(t: Tensor) {
    |t.dims| <= 4 && |t.name| <= 0xFFFF && |t.data| <= 0xFFFF_FFFF
  }

  ghost predicate AllEncodable(ts: seq<Tensor>) {
    forall i | 0 <= i < |ts| :: Encodable(ts[i])
  }

  lemma {:induction false} ChecksPass(ts: seq<Tensor>)
    ensures CheckTensors(ts).None? <==> AllEncodable(ts)
  {
    if ts != [] {
      ChecksPass(ts[1..]);
      assert AllEncodable(ts) <==> Encodable(ts[0]) && AllEncodable(ts[1..]) by {
        assert forall i | 1 <= i < |ts| :: ts[i] == ts[1..][i - 1];
      }
    }
  }

  lemma TensorFit(t: Tensor)
    requires Encodable(t)
    ensures Fits(TTENSOR, TensorFields(t))
  {
    Widths();
  }

  /** The pieces of one encoded tensor, wherever they stand. */
  lemma Pieces(h: seq<Byte>, nl: seq<Byte>, name: seq<Byte>, dl: seq<Byte>, data: seq<Byte>,
               pre: seq<Byte>, post: seq<Byte>, o3: nat)
    requires |h| == 28 && |nl| == 2 && |dl| == 4 && o3 == |pre| + 30 + |name|
    ensures var body := pre + (h + nl + name + dl + data) + post;
            && |body| == o3 + 4 + |data| + |post|
            && body[|pre| + 28..|pre| + 30] == nl && body[|pre| + 30..o3] == name
            && body[o3..o3 + 4] == dl && body[o3 + 4..o3 + 4 + |data|] == data
            && body == pre + h + (nl + name + dl + data + post)
  {
  }

  /** What TensorAt returns once its pieces were read. */
  lemma TensorFrom(body: seq<Byte>, off: nat, f: seq<nat>, o3: nat, name: seq<Byte>, data: seq<Byte>)
    requires Size(TTENSOR) == 28 && off + 28 <= |body| && Unpack(TTENSOR, body, off) == f && f[1] <= 4
    requires o3 == off + 30 + |name| && o3 + 4 + |data| <= |body|
    requires UnLe(body[off + 28..off + 30]) == |name| && body[off + 30..o3] == name
    requires UnLe(body[o3..o3 + 4]) == |data| && body[o3 + 4..o3 + 4 + |data|] == data
    ensures TensorAt(body, off) ==
            Ok((TensorDict(f[0], f[2] != 0, [Signed(f[4]), Signed(f[5]), Signed(f[6]), Signed(f[7])][..f[1]],
                           f[8], Signed(f[9]), name, data), o3 + 4 + |data|))
  {
  }

  lemma TensorKnown(body: seq<Byte>, off: nat, t: Tensor, o3: nat)
    requires Encodable(t) && Size(TTENSOR) == 28 && off + 28 <= |body|
    requires Unpack(TTENSOR, body, off) == TensorFields(t)
    requires o3 == off + 30 + |t.name| && o3 + 4 + |t.data| <= |body|
    requires UnLe(body[off + 28..off + 30]) == |t.name| && body[off + 30..o3] == t.name
    requires UnLe(body[o3..o3 + 4]) == |t.data| && body[o3 + 4..o3 + 4 + |t.data|] == t.data
    ensures TensorAt(body, off) == Ok((TensorMeaning(t), o3 + 4 + |t.data|))
  {
    TensorFrom(body, off, TensorFields(t), o3, t.name, t.data);
    FieldsBack(t);
  }

  lemma LengthsBack(t: Tensor)
    requires Encodable(t)
    ensures UnLe(Le(2, |t.name|)) == |t.name| && UnLe(Le(4, |t.data|)) == |t.data|
  {
    Widths();
    UnLeLe(2, |t.name|);
    UnLeLe(4, |t.data|);
  }

  lemma NothingCut(t: Tensor)
    requires Encodable(t)
    ensures |t.name| % 0x1_0000 == |t.name| && |t.data| % 0x1_0000_0000 == |t.data|
    ensures Fits(TTENSOR, TensorFields(t)) && Size(TTENSOR) == 28 == |Pack(TTENSOR, TensorFields(t))|
  {
    TensorFit(t);
    TensorSize();
    PackSize(TTENSOR, TensorFields(t));
  }

  lemma TensorBack(t: Tensor, pre: seq<Byte>, post: seq<Byte>)
    requires Encodable(t)
    ensures TensorAt(pre + TensorBytes(t) + post, |pre|) == Ok((TensorMeaning(t), |pre| + |TensorBytes(t)|))
  {
    NothingCut(t);
    LengthsBack(t);
    var h, nl, dl := Pack(TTENSOR, TensorFields(t)), Le(2, |t.name|), Le(4, |t.data|);
    TensorIn(t, h, nl, dl, pre, post, |pre| + 30 + |t.name|);
  }

  lemma TensorIn(t: Tensor, h: seq<Byte>, nl: seq<Byte>, dl: seq<Byte>, pre: seq<Byte>, post: seq<Byte>, o3: nat)
    requires Encodable(t) && h == Pack(TTENSOR, TensorFields(t)) && |h| == 28 == Size(TTENSOR)
    requires Fits(TTENSOR, TensorFields(t)) && o3 == |pre| + 30 + |t.name|
    requires |nl| == 2 && |dl| == 4 && UnLe(nl) == |t.name| && UnLe(dl) == |t.data|
    ensures var body := pre + (h + nl + t.name + dl + t.data) + post;
            TensorAt(body, |pre|) == Ok((TensorMeaning(t), o3 + 4 + |t.data|))
  {
    Pieces(h, nl, t.name, dl, t.data, pre, post, o3);
    var tail := nl + t.name + dl + t.data + post;
    UnpackPack(TTENSOR, TensorFields(t), pre, tail);
    TensorKnown(pre + (h + nl + t.name + dl + t.data) + post, |pre|, t, o3);
  }

  lemma FieldsBack(t: Tensor)
    requires Encodable(t)
    ensures var f := TensorFields(t);
            TensorDict(f[0], f[2] != 0, [Signed(f[4]), Signed(f[5]), Signed(f[6]), Signed(f[7])][..f[1]],
                       f[8], Signed(f[9]), t.name, t.data) == TensorMeaning(t)
  {
    DimsBack(t);
    SignedBits(t.zeroPoint);
  }

  lemma DimsBack(t: Tensor)
    requires |t.dims| <= 4
    ensures [Signed(Dim(t, 0)), Signed(Dim(t, 1)), Signed(Dim(t, 2)), Signed(Dim(t, 3))][..|t.dims|] == t.dims
  {
  }

  lemma {:induction false} AllTensorsFront(ts: seq<Tensor>)
    requires ts != []
    ensures AllTensors(ts) == TensorBytes(ts[0]) + AllTensors(ts[1..])
  {
    var n := |ts| - 1;
    if n > 0 {
      AllTensorsFront(ts[..n]);
      assert ts[..n][1..] == ts[1..][..n - 1] && ts[1..][n - 1] == ts[n];
      Assoc(TensorBytes(ts[0]), AllTensors(ts[1..][..n - 1]), TensorBytes(ts[n]));
    } else {
      assert ts[..n] == [] && ts[1..] == [];
      assert [] + TensorBytes(ts[0]) == TensorBytes(ts[0]) + [];
    }
  }

  lemma MeaningFront(ts: seq<Tensor>)
    requires ts != []
    ensures TensorsMeaning(ts) == [TensorMeaning(ts[0])] + TensorsMeaning(ts[1..])
  {
  }

  lemma TensorsStep(body: seq<Byte>, off: nat, n: nat, t: TensorDict, next: nat, rest: seq<TensorDict>)
    requires n > 0 && off <= |body| && next <= |body| && TensorAt(body, off) == Ok((t, next))
    requires TensorsAt(body, next, n - 1) == Ok(rest)
    ensures TensorsAt(body, off, n) == Ok([t] + rest)
  {
  }

  lemma TensorFront(ts: seq<Tensor>, pre: seq<Byte>, body: seq<Byte>) returns (next: seq<Byte>)
    requires AllEncodable(ts) && ts != [] && body == pre + AllTensors(ts)
    ensures body == next + AllTensors(ts[1..]) && |next| <= |body|
    ensures TensorAt(body, |pre|) == Ok((TensorMeaning(ts[0]), |next|))
  {
    next := pre + TensorBytes(ts[0]);
    AllTensorsFront(ts);
    FrontOf(ts[0], TensorBytes(ts[0]), AllTensors(ts[1..]), pre, body);
  }

  lemma FrontOf(t: Tensor, first: seq<Byte>, rest: seq<Byte>, pre: seq<Byte>, body: seq<Byte>)
    requires Encodable(t) && first == TensorBytes(t) && body == pre + (first + rest)
    ensures body == (pre + first) + rest && |pre + first| <= |body|
    ensures TensorAt(body, |pre|) == Ok((TensorMeaning(t), |pre + first|))
  {
    Assoc(pre, first, rest);
    TensorBackIn(t, pre, rest, body);
  }

  lemma TensorBackIn(t: Tensor, pre: seq<Byte>, post: seq<Byte>, body: seq<Byte>)
    requires Encodable(t) && body == pre + TensorBytes(t) + post
    ensures TensorAt(body, |pre|) == Ok((TensorMeaning(t), |pre| + |TensorBytes(t)|))
  {
    TensorBack(t, pre, post);
  }

  lemma {:induction false} TensorsBack(ts: seq<Tensor>, pre: seq<Byte>, body: seq<Byte>)
    requires AllEncodable(ts) && body == pre + AllTensors(ts)
    ensures TensorsAt(body, |pre|, |ts|) == Ok(TensorsMeaning(ts))
    decreases |ts|
  {
    if ts == [] {
      assert TensorsMeaning(ts) == [];
    } else {
      var next := TensorFront(ts, pre, body);
      TensorsBack(ts[1..], next, body);
      MeaningFront(ts);
      TensorsStep(body, |pre|, |ts|, TensorMeaning(ts[0]), |next|, TensorsMeaning(ts[1..]));
    }
  }

  lemma FrameFit(f: TensorFrame)
    ensures Fits(TBODY, FrameFields(f))
  {
    Widths();
  }

  /** The frame as the client should see it. */
  function TensorFrameMeaning(f: TensorFrame): TensorFrameDict {
    TensorFrameDict(f.streamIndex, f.seqNo, f.wallMs, f.srcW, f.srcH, f.modelW, f.modelH,
                    f.scale, f.padX, f.padY, AlignName(f.align), TensorsMeaning(f.tensors))
  }

  /** Whatever the encoder accepts, decode_tensors returns, except that the
      alignment byte is read as a name: any code other than 1 is "center". */
  lemma TensorRoundTrip(f: TensorFrame)
    requires ValidateTensors(f).None?
    ensures DecodedTensors(Vbt1Body(f)) == Ok(TensorFrameMeaning(f))
  {
    TBodySize();
    FrameFit(f);
    PackSize(TBODY, FrameFields(f));
    UnpackFirst(TBODY, FrameFields(f), AllTensors(f.tensors));
    ChecksPass(f.tensors);
    TensorsBack(f.tensors, Pack(TBODY, FrameFields(f)), Vbt1Body(f));
    FrameOfFields(f);
  }

  lemma FrameOfFields(f: TensorFrame)
    requires |f.tensors| <= 0xFFFF
    ensures FrameFields(f)[14] == |f.tensors|
    ensures FrameOf(FrameFields(f), TensorsMeaning(f.tensors)) == TensorFrameMeaning(f)
  {
    SignedBits(f.srcW);
    SignedBits(f.srcH);
    SignedBits(f.modelW);
    SignedBits(f.modelH);
  }

  /** The code of a decoded alignment name. */
  function AlignCode(a: Align): nat {
    match a
    case Center => 0
    case TopLeft => 1
  }

  /** The alignment byte survives exactly when it is one of the two codes. */
  lemma AlignmentSurvives(f: TensorFrame)
    requires ValidateTensors(f).None?
    ensures DecodedTensors(Vbt1Body(f)).Ok?
    ensures AlignCode(DecodedTensors(Vbt1Body(f)).value.align) == f.align <==> f.align <= 1
  {
    TensorRoundTrip(f);
  }

  // ---- What is accepted ----

  /** The bytes of the tensors: a fixed part, the name and the data of each. */
  function TensorsLength(ts: seq<Tensor>): nat {
    if ts == [] then 0 else 34 + |ts[0].name| + |ts[0].data| + TensorsLength(ts[1..])
  }

  lemma {:induction false} LengthGrows(ts: seq<Tensor>, t: Tensor)
    ensures TensorsLength(ts + [t]) == TensorsLength(ts) + 34 + |t.name| + |t.data|
  {
    if ts == [] {
      assert [t][1..] == [] && [] + [t] == [t];
    } else {
      assert (ts + [t])[0] == ts[0] && (ts + [t])[1..] == ts[1..] + [t];
      LengthGrows(ts[1..], t);
    }
  }

  lemma OneTensorLength(t: Tensor)
    ensures |TensorBytes(t)| == 34 + |t.name| + |t.data|
  {
    TensorSize();
    assert |TTENSOR| == |TensorFields(t)| == 10;
    PackSize(TTENSOR, TensorFields(t));
  }

  lemma {:induction false} TensorsLengthIs(ts: seq<Tensor>)
    ensures |AllTensors(ts)| == TensorsLength(ts)
    decreases |ts|
  {
    if ts != [] {
      var front, t := ts[..|ts| - 1], ts[|ts| - 1];
      assert ts == front + [t];
      TensorsLengthIs(front);
      LengthGrows(front, t);
      OneTensorLength(t);
    }
  }

  lemma BodyLength(f: TensorFrame)
    ensures |Vbt1Body(f)| == 56 + TensorsLength(f.tensors)
  {
    TBodySize();
    assert |TBODY| == |FrameFields(f)| == 16;
    PackSize(TBODY, FrameFields(f));
    TensorsLengthIs(f.tensors);
  }

  /** A frame's tensors are accepted exactly when each count and length fits its
      field and the record stays within 16 MiB. */
  lemma AcceptedIff(f: TensorFrame)
    ensures ValidateTensors(f).None? <==>
            && |f.tensors| <= 0xFFFF
            && (forall i | 0 <= i < |f.tensors| ::
                  |f.tensors[i].dims| <= 4 && |f.tensors[i].name| <= 0xFFFF && |f.tensors[i].data| <= 0xFFFF_FFFF)
            && 64 + TensorsLength(f.tensors) <= 16 * 1024 * 1024
  {
    ChecksPass(f.tensors);
    BodyLength(f);
  }
}
