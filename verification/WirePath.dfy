/** The whole wire path: the C++ encoders, the byte stream in any chunks, the
    Python read loop, and the Python decoders. */
module WirePath {
  import opened Wrappers
  import opened Bytes
  import opened Wire
  import opened WireTensors
  import opened Readers

  datatype Item =
    | FrameItem(rec: FrameRec)
    | JsonItem(magic: Magic, text: seq<Byte>)
    | SnapshotItem(meta: seq<Byte>, payload: seq<Byte>)
    | TensorItem(tensors: TensorFrame)

  /** What the encoders check themselves. */
  predicate Encodes(it: Item) {
    match it
    case FrameItem(r) => Validate(r).None?
    case JsonItem(_, _) => true
    case SnapshotItem(_, _) => true
    case TensorItem(f) => ValidateTensors(f).None?
  }

  /** What the JSON and snapshot encoders leave to their callers: the magic, and
      a body whose length fits its 32-bit field. */
  ghost predicate FitsLength(it: Item) {
    match it
    case FrameItem(_) => true
    case JsonItem(m, text) => m in {VBE1, VBC1} && |text| < 0x1_0000_0000
    case SnapshotItem(meta, payload) => 4 + |meta| + |payload| < 0x1_0000_0000
    case TensorItem(_) => true
  }

  function RecOf(it: Item): Rec {
    match it
    case FrameItem(r) => (VBR1, Vbr1Body(r))
    case JsonItem(m, text) => (m, text)
    case SnapshotItem(meta, payload) => (VBS1, Vbs1Body(meta, payload))
    case TensorItem(f) => (VBT1, Vbt1Body(f))
  }

  function Recs(items: seq<Item>): (recs: seq<Rec>)
    ensures |recs| == |items| && forall i | 0 <= i < |items| :: recs[i] == RecOf(items[i])
  {
    seq(|items|, i requires 0 <= i < |items| => RecOf(items[i]))
  }

  /** The client's decoder for the record's magic returns all that was encoded;
      of an alignment code, its name. */
  ghost predicate Delivered(it: Item, rec: Rec) {
    match it
    case FrameItem(r) => rec.0 == VBR1 && Validate(r).None? && Decoded(rec.1) == Ok(Meaning(r))
    case JsonItem(m, text) => rec == (m, text)
    case SnapshotItem(meta, payload) => rec.0 == VBS1 && DecodedSnapshot(rec.1) == Ok((meta, payload))
    case TensorItem(f) => rec.0 == VBT1 && DecodedTensors(rec.1) == Ok(TensorFrameMeaning(f))
  }

  /** One encoder call. */
  method Encode(it: Item, out: Buffer) returns (ok: bool)
    modifies out
    ensures ok <==> Encodes(it)
    ensures out.bytes == if ok then old(out.bytes) + Record(RecOf(it).0, RecOf(it).1) else old(out.bytes)
  {
    ok := true;
    match it
    case FrameItem(r) =>
      var err := EncodeVbr1(r, out);
      ok := err.None?;
    case JsonItem(m, text) => EncodeJson(m, text, out);
    case SnapshotItem(meta, payload) => EncodeVbs1(meta, payload, out);
    case TensorItem(f) =>
      var err := EncodeVbt1(f, out);
      ok := err.None?;
  }

  /** The items the encoders do not refuse. */
  function Encoded(items: seq<Item>): (sent: seq<Item>)
    ensures forall i | 0 <= i < |sent| :: Encodes(sent[i]) && sent[i] in items
  {
    if items == [] then []
    else Encoded(items[..|items| - 1]) + if Encodes(items[|items| - 1]) then [items[|items| - 1]] else []
  }

  lemma {:induction false} StreamAppend(recs: seq<Rec>, r: Rec)
    ensures Stream(recs + [r]) == Stream(recs) + Record(r.0, r.1)
    decreases |recs|
  {
    if recs == [] {
      assert [r][1..] == [];
    } else {
      StreamAppend(recs[1..], r);
      assert (recs + [r])[0] == recs[0] && (recs + [r])[1..] == recs[1..] + [r];
      Assoc(Record(recs[0].0, recs[0].1), Stream(recs[1..]), Record(r.0, r.1));
    }
  }

  lemma EncodedNext(items: seq<Item>, i: nat)
    requires i < |items|
    ensures Encoded(items[..i + 1]) == Encoded(items[..i]) + if Encodes(items[i]) then [items[i]] else []
  {
    assert items[..i + 1][..i] == items[..i];
  }

  lemma RecordAppended(start: seq<Byte>, before: seq<Item>, it: Item)
    ensures start + Stream(Recs(before + [it])) == (start + Stream(Recs(before))) + Record(RecOf(it).0, RecOf(it).1)
  {
    assert Recs(before + [it]) == Recs(before) + [RecOf(it)];
    StreamAppend(Recs(before), RecOf(it));
    Assoc(start, Stream(Recs(before)), Record(RecOf(it).0, RecOf(it).1));
  }

  /** All bytes once the first i items were encoded behind start. */
  function BytesAfter(start: seq<Byte>, items: seq<Item>, i: nat): seq<Byte>
    requires i <= |items|
  {
    start + Stream(Recs(Encoded(items[..i])))
  }

  lemma OneMore(start: seq<Byte>, items: seq<Item>, i: nat)
    requires i < |items|
    ensures Encoded(items[..i + 1]) == Encoded(items[..i]) + if Encodes(items[i]) then [items[i]] else []
    ensures BytesAfter(start, items, i + 1) ==
            if Encodes(items[i]) then BytesAfter(start, items, i) + Record(RecOf(items[i]).0, RecOf(items[i]).1)
            else BytesAfter(start, items, i)
  {
    EncodedNext(items, i);
    var before, after := Encoded(items[..i]), Encoded(items[..i + 1]);
    if Encodes(items[i]) {
      RecordAppended(start, before, items[i]);
    } else {
      assert after == before;
    }
  }

  /** Encoder calls one after the other append the stream of the records of the
      items they did not refuse. */
  method EncodeAll(items: seq<Item>, out: Buffer) returns (sent: seq<Item>)
    modifies out
    ensures sent == Encoded(items)
    ensures out.bytes == old(out.bytes) + Stream(Recs(sent))
  {
    var i := 0;
    sent := [];
    while i < |items|
      invariant i <= |items| && sent == Encoded(items[..i])
      invariant out.bytes == BytesAfter(old(out.bytes), items, i)
    {
      OneMore(old(out.bytes), items, i);
      var ok := Encode(items[i], out);
      if ok {
        sent := sent + [items[i]];
      }
      i := i + 1;
    }
    assert items[..i] == items;
  }

  lemma RecordFits(it: Item)
    requires Encodes(it) && FitsLength(it)
    ensures |RecOf(it).1| < 0x1_0000_0000
  {
    match it
    case FrameItem(r) => Vbr1BodySize(r);
    case JsonItem(_, _) =>
    case SnapshotItem(_, _) =>
    case TensorItem(_) =>
  }

  lemma ItemDelivered(it: Item)
    requires Encodes(it) && FitsLength(it)
    ensures Delivered(it, RecOf(it))
  {
    match it
    case FrameItem(r) => RoundTrip(r);
    case JsonItem(_, _) =>
    case SnapshotItem(meta, payload) => SnapshotRoundTrip(meta, payload);
    case TensorItem(f) => TensorRoundTrip(f);
  }

  ghost predicate NonEmpty(chunks: seq<seq<Byte>>) {
    forall i | 0 <= i < |chunks| :: chunks[i] != []
  }

  /** got are the items sent, decoded, in order: all of them, unless a tensor
      record arrives outside dev mode. */
  ghost predicate Arrived(dev: bool, sent: seq<Item>, got: seq<Rec>) {
    && |got| <= |sent| && (forall i | 0 <= i < |got| :: Delivered(sent[i], got[i]))
    && ((dev || forall i | 0 <= i < |sent| :: !sent[i].TensorItem?) ==> |got| == |sent|)
  }

  /** The stream of any encoded items, cut into any non-empty chunks, reaches
      the client in order and decodes to what was encoded. */
  lemma EndToEnd(dev: bool, sent: seq<Item>, chunks: seq<seq<Byte>>)
    requires forall i | 0 <= i < |sent| :: Encodes(sent[i]) && FitsLength(sent[i])
    requires Joined(chunks) == Stream(Recs(sent)) && NonEmpty(chunks)
    ensures Arrived(dev, sent, AfterAll(State([], [], true), dev, chunks).dispatched)
  {
    var recs := Recs(sent);
    forall i | 0 <= i < |sent|
      ensures |recs[i].1| < 0x1_0000_0000
    {
      RecordFits(sent[i]);
    }
    ReaderDispatches(dev, recs, chunks);
    var got := AfterAll(State([], [], true), dev, chunks).dispatched;
    forall i | 0 <= i < |got|
      ensures Delivered(sent[i], got[i])
    {
      ItemDelivered(sent[i]);
      assert got[i] == recs[i];
    }
    if forall i | 0 <= i < |sent| :: !sent[i].TensorItem? {
      assert !Closes(dev, recs) by {
        assert forall i | 0 <= i < |recs| :: recs[i] == RecOf(sent[i]) && Encodes(sent[i]) && FitsLength(sent[i]);
      }
    }
  }

  /** The two programs end to end: the encoder calls fill a buffer, the network
      cuts it up, the read loop takes the chunks. */
  method SendAndRead(dev: bool, items: seq<Item>, cut: seq<Byte> -> seq<seq<Byte>>)
      returns (sent: seq<Item>, got: seq<Rec>)
    requires forall i | 0 <= i < |items| :: FitsLength(items[i])
    requires forall bytes :: Joined(cut(bytes)) == bytes && NonEmpty(cut(bytes))
    ensures sent == Encoded(items) && Arrived(dev, sent, got)
  {
    var out := new Buffer();
    sent := EncodeAll(items, out);
    assert [] + Stream(Recs(sent)) == Stream(Recs(sent));
    var chunks := cut(out.bytes);
    EndToEnd(dev, sent, chunks);
    var reader := new Reader(dev);
    reader.ReadLoop(chunks);
    got := reader.dispatched;
  }
}
