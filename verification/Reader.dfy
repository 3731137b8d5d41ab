/** `RuntimeClient._read_loop`: cutting the byte stream of the runtime back
    into records, whatever the chunks `recv` returns. */
module Readers {
  import opened Wrappers
  import opened Bytes
  import opened Wire

  type Rec = (Magic, seq<Byte>)

  datatype State = State(buf: seq<Byte>, dispatched: seq<Rec>, connected: bool)

  /** A VBT1 record outside dev mode makes the client close its socket. */
  predicate Closes(dev: bool, recs: seq<Rec>) {
    !dev && exists i | 0 <= i < |recs| :: recs[i].0 == VBT1
  }

  /** The records the inner loop takes off a buffer, and what is left. */
  function Drain(buf: seq<Byte>): (seq<Rec>, seq<Byte>)
    decreases |buf|
  {
    if |buf| < 8 then ([], buf)
    else
      match DecodeHeader(buf[..8])
      case Err(_) => ([], [])
      case Ok((m, n)) =>
        if |buf| < 8 + n then ([], buf)
        else
          var (more, rest) := Drain(buf[8 + n..]);
          ([(m, buf[8..8 + n])] + more, rest)
  }

  function AfterChunk(st: State, dev: bool, chunk: seq<Byte>): State {
    var (recs, rest) := Drain(st.buf + chunk);
    State(rest, st.dispatched + recs, st.connected && !Closes(dev, recs))
  }

  /** recv returns the chunks one by one; an empty chunk is the end of file. */
  function AfterAll(st: State, dev: bool, chunks: seq<seq<Byte>>): State
    decreases |chunks|
  {
    if chunks == [] || !st.connected || chunks[0] == [] then st
    else AfterAll(AfterChunk(st, dev, chunks[0]), dev, chunks[1..])
  }

  class Reader {
    const dev: bool
    var buf: seq<Byte>
    var dispatched: seq<Rec>
    var connected: bool

    ghost function View(): State
      reads this
    {
      State(buf, dispatched, connected)
    }

    constructor (dev: bool)
      ensures View() == State([], [], true) && this.dev == dev
    {
      this.dev := dev;
      buf, dispatched, connected := [], [], true;
    }

    method Dispatch(m: Magic, body: seq<Byte>)
      modifies this
      ensures buf == old(buf) && dispatched == old(dispatched) + [(m, body)]
      ensures connected == (old(connected) && !Closes(dev, [(m, body)]))
    {
      dispatched := dispatched + [(m, body)];
      if m == VBT1 && !dev {
        connected := false;
        assert [(m, body)][0].0 == VBT1;
      }
    }

    method Chunk(chunk: seq<Byte>)
      modifies this
      ensures View() == AfterChunk(old(View()), dev, chunk)
    {
      buf := buf + chunk;
      ghost var all := buf;
      ghost var taken: seq<Rec> := [];
      assert [] + Drain(buf).0 == Drain(buf).0;
      while |buf| >= 8
        invariant dispatched == old(dispatched) + taken
        invariant connected == (old(connected) && !Closes(dev, taken))
        invariant Drain(all) == (taken + Drain(buf).0, Drain(buf).1)
        decreases |buf|
      {
        var h := DecodeHeader(buf[..8]);
        if h.Err? {
          buf := [];
          break;
        }
        var (m, n) := h.value;
        if |buf| < 8 + n {
          break;
        }
        DrainStep(all, taken, buf, m, n);
        var body := buf[8..8 + n];
        buf := buf[8 + n..];
        Dispatch(m, body);
        ClosesSplit(dev, taken, (m, body));
        taken := taken + [(m, body)];
      }
      assert taken + [] == taken;
    }

    method ReadLoop(chunks: seq<seq<Byte>>)
      modifies this
      ensures View() == AfterAll(old(View()), dev, chunks)
    {
      var i := 0;
      while i < |chunks|
        invariant i <= |chunks|
        invariant AfterAll(old(View()), dev, chunks) == AfterAll(View(), dev, chunks[i..])
      {
        assert chunks[i..][1..] == chunks[i + 1..];
        if !connected || chunks[i] == [] {
          return;
        }
        Chunk(chunks[i]);
        i := i + 1;
      }
    }
  }

  lemma DrainStep(all: seq<Byte>, taken: seq<Rec>, buf: seq<Byte>, m: Magic, n: nat)
    requires |buf| >= 8 + n && DecodeHeader(buf[..8]) == Ok((m, n))
    requires Drain(all) == (taken + Drain(buf).0, Drain(buf).1)
    ensures var after := Drain(buf[8 + n..]);
            Drain(all) == (taken + [(m, buf[8..8 + n])] + after.0, after.1)
  {
    var r, after := (m, buf[8..8 + n]), Drain(buf[8 + n..]);
    assert Drain(buf) == ([r] + after.0, after.1);
    assert taken + ([r] + after.0) == taken + [r] + after.0;
  }

  lemma ClosesSplit(dev: bool, recs: seq<Rec>, r: Rec)
    ensures Closes(dev, recs + [r]) <==> Closes(dev, recs) || Closes(dev, [r])
  {
    var all := recs + [r];
    assert all[|recs|] == r == [r][0];
    assert forall i | 0 <= i < |recs| :: all[i] == recs[i];
  }

  // ---- Any chunking ----

  function Stream(recs: seq<Rec>): seq<Byte> {
    if recs == [] then [] else Record(recs[0].0, recs[0].1) + Stream(recs[1..])
  }

  function Joined(chunks: seq<seq<Byte>>): seq<Byte> {
    if chunks == [] then [] else chunks[0] + Joined(chunks[1..])
  }

  ghost predicate Framed(recs: seq<Rec>) {
    forall i | 0 <= i < |recs| :: |recs[i].1| < 0x1_0000_0000
  }

  /** rest is a proper part of the first record, or nothing when there is none. */
  ghost predicate Incomplete(recs: seq<Rec>, rest: seq<Byte>) {
    if recs == [] then rest == [] else |rest| < |Record(recs[0].0, recs[0].1)|
  }

  lemma Slices(h: seq<Byte>, body: seq<Byte>, after: seq<Byte>, buf: seq<Byte>, rest: seq<Byte>)
    requires |h| == 8 && buf + rest == (h + body) + after && |buf| >= 8
    ensures buf[..8] == h
    ensures |buf| >= 8 + |body| ==> buf[8..8 + |body|] == body && buf[8 + |body|..] + rest == after
  {
    var all := buf + rest;
    assert all[..8] == h && all[..8] == buf[..8];
    if |buf| >= 8 + |body| {
      assert all[8..8 + |body|] == body && all[8..8 + |body|] == buf[8..8 + |body|];
      assert all[8 + |body|..] == after && all[8 + |body|..] == buf[8 + |body|..] + rest;
    }
  }

  lemma HeaderRead(m: Magic, body: seq<Byte>)
    requires |body| < 0x1_0000_0000
    ensures DecodeHeader(Header(m, |body|)) == Ok((m, |body|))
  {
    HeaderFrames(m, body, []);
    var all := Record(m, body) + [];
    assert all[..4] == Header(m, |body|)[..4] && all[4..8] == Header(m, |body|)[4..8];
  }

  /** Draining a cut of the stream takes exactly its complete records off. */
  lemma {:induction false} DrainCut(recs: seq<Rec>, buf: seq<Byte>, rest: seq<Byte>)
      returns (taken: seq<Rec>, later: seq<Rec>)
    requires Framed(recs) && buf + rest == Stream(recs)
    ensures recs == taken + later && Drain(buf).0 == taken
    ensures Drain(buf).1 + rest == Stream(later) && Incomplete(later, Drain(buf).1)
    decreases |recs|
  {
    taken, later := [], recs;
    if recs == [] || |buf| < 8 {
      assert [] + recs == recs;
    } else {
      var (m, body) := recs[0];
      HeaderRead(m, body);
      Slices(Header(m, |body|), body, Stream(recs[1..]), buf, rest);
      if |buf| < 8 + |body| {
        DrainNone(buf, m, |body|);
      } else {
        DrainOne(buf, m, body);
        var more;
        more, later := DrainCut(recs[1..], buf[8 + |body|..], rest);
        taken := [recs[0]] + more;
        OneMoreTaken(recs, more, later);
      }
    }
  }

  lemma OneMoreTaken(recs: seq<Rec>, more: seq<Rec>, later: seq<Rec>)
    requires recs != [] && recs[1..] == more + later
    ensures recs == ([recs[0]] + more) + later
  {
    assert recs == [recs[0]] + recs[1..];
  }

  lemma DrainNone(buf: seq<Byte>, m: Magic, n: nat)
    requires 8 <= |buf| < 8 + n && DecodeHeader(buf[..8]) == Ok((m, n))
    ensures Drain(buf) == ([], buf)
  {
  }

  lemma DrainOne(buf: seq<Byte>, m: Magic, body: seq<Byte>)
    requires |buf| >= 8 + |body| && DecodeHeader(buf[..8]) == Ok((m, |body|)) && buf[8..8 + |body|] == body
    ensures var after := Drain(buf[8 + |body|..]);
            Drain(buf) == ([(m, body)] + after.0, after.1)
  {
  }

  lemma {:induction false} ClosesConcat(dev: bool, a: seq<Rec>, b: seq<Rec>)
    ensures Closes(dev, a + b) <==> Closes(dev, a) || Closes(dev, b)
    decreases |b|
  {
    if b == [] {
      assert a + b == a;
    } else {
      var last := b[|b| - 1];
      var front := b[..|b| - 1];
      ClosesConcat(dev, a, front);
      ClosesSplit(dev, a + front, last);
      ClosesSplit(dev, front, last);
      assert a + b == (a + front) + [last] && b == front + [last];
    }
  }

  /** What holds between chunks: `later` is still to be dispatched. */
  ghost predicate Inv(st: State, dev: bool, recs: seq<Rec>, later: seq<Rec>) {
    && recs == st.dispatched + later
    && Incomplete(later, st.buf)
    && st.connected == !Closes(dev, st.dispatched)
  }

  lemma Dispatched(st: State, dev: bool, recs: seq<Rec>, taken: seq<Rec>, later: seq<Rec>, buf: seq<Byte>)
    requires Inv(st, dev, recs, taken + later) && Framed(taken + later) && st.connected && Incomplete(later, buf)
    ensures Inv(State(buf, st.dispatched + taken, st.connected && !Closes(dev, taken)), dev, recs, later) &&
            Framed(later)
  {
    ClosesConcat(dev, st.dispatched, taken);
    assert st.dispatched + (taken + later) == (st.dispatched + taken) + later;
    assert forall i | 0 <= i < |later| :: later[i] == (taken + later)[|taken| + i];
  }

  lemma ChunkKeeps(st: State, dev: bool, recs: seq<Rec>, later: seq<Rec>, chunk: seq<Byte>, rest: seq<Byte>)
      returns (later': seq<Rec>)
    requires Inv(st, dev, recs, later) && Framed(later) && st.connected
    requires (st.buf + chunk) + rest == Stream(later)
    ensures Inv(AfterChunk(st, dev, chunk), dev, recs, later') && Framed(later')
    ensures AfterChunk(st, dev, chunk).buf + rest == Stream(later')
  {
    var taken;
    taken, later' := DrainCut(later, st.buf + chunk, rest);
    Dispatched(st, dev, recs, taken, later', Drain(st.buf + chunk).1);
  }

  lemma StreamGrows(recs: seq<Rec>, rest: seq<Byte>)
    requires rest == Stream(recs) && Incomplete(recs, rest)
    ensures recs == [] && rest == []
  {
  }

  lemma {:induction false} AllChunks(st: State, dev: bool, recs: seq<Rec>, later: seq<Rec>, chunks: seq<seq<Byte>>)
      returns (later': seq<Rec>)
    requires Inv(st, dev, recs, later) && Framed(later) && st.buf + Joined(chunks) == Stream(later)
    requires forall i | 0 <= i < |chunks| :: chunks[i] != []
    ensures Inv(AfterAll(st, dev, chunks), dev, recs, later')
    ensures AfterAll(st, dev, chunks).connected ==> later' == [] && AfterAll(st, dev, chunks).buf == []
    decreases |chunks|
  {
    later' := later;
    if chunks == [] {
      assert st.buf + [] == st.buf;
      StreamGrows(later, st.buf);
    } else if st.connected {
      Assoc(st.buf, chunks[0], Joined(chunks[1..]));
      later' := ChunkKeeps(st, dev, recs, later, chunks[0], Joined(chunks[1..]));
      later' := AllChunks(AfterChunk(st, dev, chunks[0]), dev, recs, later', chunks[1..]);
    }
  }

  /** However the stream of framed records is cut into chunks, the read loop
      dispatches its records, whole and in order: all of them, unless a VBT1
      record outside dev mode made it close the socket; then a prefix that
      holds that record. */
  lemma ReaderDispatches(dev: bool, recs: seq<Rec>, chunks: seq<seq<Byte>>)
    requires Framed(recs) && Joined(chunks) == Stream(recs)
    requires forall i | 0 <= i < |chunks| :: chunks[i] != []
    ensures var st := AfterAll(State([], [], true), dev, chunks);
            && st.dispatched <= recs
            && (!Closes(dev, recs) ==> st.dispatched == recs && st.buf == [])
            && (st.dispatched != recs ==> Closes(dev, st.dispatched))
  {
    var st0 := State([], [], true);
    assert [] + recs == recs && [] + Joined(chunks) == Joined(chunks);
    assert Incomplete(recs, []);
    var later := AllChunks(st0, dev, recs, recs, chunks);
    var st := AfterAll(st0, dev, chunks);
    ClosesConcat(dev, st.dispatched, later);
    assert later == [] ==> st.dispatched + later == st.dispatched;
  }

  // ---- When the loop ends, and what a bad header does ----

  /** More chunks are read exactly while the socket is open and no chunk was the
      end of file. */
  lemma {:induction false} LoopGoesOn(st: State, dev: bool, a: seq<seq<Byte>>, b: seq<seq<Byte>>)
    ensures AfterAll(st, dev, a + b) ==
            if AfterAll(st, dev, a).connected && [] !in a then AfterAll(AfterAll(st, dev, a), dev, b)
            else AfterAll(st, dev, a)
    decreases |a|
  {
    if a == [] {
      assert a + b == b;
    } else {
      assert (a + b)[0] == a[0] && (a + b)[1..] == a[1..] + b;
      assert a == [a[0]] + a[1..];
      if st.connected && a[0] != [] {
        LoopGoesOn(AfterChunk(st, dev, a[0]), dev, a[1..], b);
      }
    }
  }

  ghost predicate NoMagic(four: seq<Byte>) {
    forall m: Magic :: four != MagicBytes(m)
  }

  lemma NoMagicRefused(hdr: seq<Byte>)
    requires |hdr| == 8 && NoMagic(hdr[..4])
    ensures DecodeHeader(hdr) == Err(BadMagic)
  {
  }

  /** Bytes that start no record cost the whole rest of the buffer; the records
      before them are still dispatched. */
  lemma {:induction false} BadMagicClears(recs: seq<Rec>, tail: seq<Byte>)
    requires Framed(recs) && |tail| >= 8 && NoMagic(tail[..4])
    ensures Drain(Stream(recs) + tail) == (recs, [])
    decreases |recs|
  {
    var buf := Stream(recs) + tail;
    if recs == [] {
      assert buf == tail && tail[..8][..4] == tail[..4];
      NoMagicRefused(tail[..8]);
    } else {
      var (m, body) := recs[0];
      HeaderRead(m, body);
      assert buf + [] == (Header(m, |body|) + body) + (Stream(recs[1..]) + tail);
      Slices(Header(m, |body|), body, Stream(recs[1..]) + tail, buf, []);
      DrainOne(buf, m, body);
      BadMagicClears(recs[1..], tail);
      assert buf[8 + |body|..] == Stream(recs[1..]) + tail;
      assert [(m, body)] + recs[1..] == recs;
    }
  }
}
