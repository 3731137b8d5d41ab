/** The shared-accelerator batcher (frame_batcher.cpp): bounded per-stream
    queues served in rotating rounds. A wait may end at any time. */
module FrameBatchers {
  import opened Wrappers

  datatype Frame = Frame(stream: int, seqNo: nat)

  datatype Config = Config(n: nat, batch: nat, depth: nat)

  predicate ValidConfig(c: Config) {
    c.n >= 1 && c.batch >= 1 && c.depth >= 1
  }

  type Queues = seq<seq<Frame>>

  datatype State = State(queues: Queues, rr: nat, stopped: bool, drops: seq<nat>, hist: seq<nat>)

  ghost predicate Valid(c: Config, st: State) {
    && ValidConfig(c) && |st.queues| == c.n == |st.drops| && |st.hist| == c.batch + 1 && st.rr < c.n
    && (forall i | 0 <= i < c.n :: |st.queues[i]| <= c.depth)
    && (forall i, k | 0 <= i < c.n && 0 <= k < |st.queues[i]| :: st.queues[i][k].stream == i)
  }

  function Initial(c: Config): State {
    State(seq(c.n, _ => []), 0, false, seq(c.n, _ => 0), seq(c.batch + 1, _ => 0))
  }

  // ---- Operations ----

  function Enqueued(c: Config, st: State, f: Frame): (State, bool)
    requires Valid(c, st)
  {
    if st.stopped || f.stream < 0 || f.stream >= c.n then (st, false)
    else
      var q := st.queues[f.stream];
      if |q| >= c.depth then
        (st.(queues := st.queues[f.stream := q[1..] + [f]], drops := st.drops[f.stream := st.drops[f.stream] + 1]),
            true)
      else (st.(queues := st.queues[f.stream := q + [f]]), true)
  }

  /** (start + k) % n for start < n and k <= n. */
  function At(start: nat, k: nat, n: nat): nat
    requires start < n && k < n
    ensures At(start, k, n) < n && At(start, k, n) == (start + k) % n
  {
    if start + k < n then start + k else start + k - n
  }

  /** One stream's turn: its oldest frame, while the batch has room. */
  function Visit(qs: Queues, i: nat, b: nat, out: seq<Frame>): (Queues, seq<Frame>)
    requires i < |qs|
  {
    if |out| < b && qs[i] != [] then (qs[i := qs[i][1..]], out + [qs[i][0]]) else (qs, out)
  }

  /** The first k turns of a round that starts at stream `start`. */
  function Round(qs: Queues, start: nat, b: nat, k: nat, out: seq<Frame>): (r: (Queues, seq<Frame>))
    requires start < |qs| && k <= |qs|
    ensures |r.0| == |qs| && out <= r.1 && (|out| <= b ==> |r.1| <= b)
  {
    if k == 0 then (qs, out)
    else
      var (qs', out') := Round(qs, start, b, k - 1, out);
      Visit(qs', At(start, k - 1, |qs|), b, out')
  }

  function Both(qs: Queues, start: nat, b: nat): (r: (Queues, seq<Frame>))
    requires start < |qs|
    ensures |r.0| == |qs| && |r.1| <= b
  {
    var (qs1, out1) := Round(qs, start, b, |qs|, []);
    Round(qs1, start, b, |qs|, out1)
  }

  /** take() once its wait is over. */
  function Serve(c: Config, st: State): (State, seq<Frame>)
    requires Valid(c, st)
  {
    var (qs, out) := Both(st.queues, st.rr, c.batch);
    (st.(queues := qs, rr := At(st.rr, if c.n == 1 then 0 else 1, c.n), hist := st.hist[|out| := st.hist[|out|] + 1]),
        out)
  }

  function Stop(st: State, discard: bool): State {
    if discard then st.(stopped := true, queues := seq(|st.queues|, _ => [])) else st.(stopped := true)
  }

  class FrameBatcher {
    const c: Config
    var queues: Queues
    var rr: nat
    var stopped: bool
    var drops: seq<nat>
    var hist: seq<nat>

    ghost function View(): State
      reads this
    {
      State(queues, rr, stopped, drops, hist)
    }

    constructor (c: Config)
      requires ValidConfig(c)
      ensures this.c == c && View() == Initial(c) && Valid(c, View())
    {
      this.c := c;
      queues, rr, stopped := seq(c.n, _ => []), 0, false;
      drops, hist := seq(c.n, _ => 0), seq(c.batch + 1, _ => 0);
    }

    method Enqueue(f: Frame) returns (ok: bool)
      requires Valid(c, View())
      modifies this
      ensures (View(), ok) == Enqueued(c, old(View()), f)
      ensures Pushed(c, old(View()), View(), f, ok)
    {
      PushExact(c, View(), f);
      if stopped || f.stream < 0 || f.stream >= |queues| {
        return false;
      }
      var q := queues[f.stream];
      if |q| >= c.depth {
        q := q[1..];
        drops := drops[f.stream := drops[f.stream] + 1];
      }
      queues := queues[f.stream := q + [f]];
      ok := true;
    }

    /** take() once its waits are over. */
    method ServeBatch() returns (out: seq<Frame>)
      requires Valid(c, View())
      modifies this
      ensures (View(), out) == Serve(c, old(View()))
      ensures out == Upto(Ranked(old(queues), old(rr), 0, c.n) + Ranked(old(queues), old(rr), 1, c.n), c.batch)
    {
      BatchIsRotation(queues, rr, c.batch);
      var start := rr;
      rr := (rr + 1) % |queues|;
      out := RunRound(start, []);
      out := RunRound(start, out);
      hist := hist[|out| := hist[|out|] + 1];
    }

    method RunRound(start: nat, given: seq<Frame>) returns (out: seq<Frame>)
      requires start < |queues| == c.n && |given| <= c.batch
      modifies this`queues
      ensures (queues, out) == Round(old(queues), start, c.batch, c.n, given)
    {
      out := given;
      var k := 0;
      while k < |queues| && |out| < c.batch
        invariant k <= |queues| == c.n && |out| <= c.batch
        invariant (queues, out) == Round(old(queues), start, c.batch, k, given)
      {
        var i := (start + k) % |queues|;
        assert i == At(start, k, c.n);
        if queues[i] != [] {
          out := out + [queues[i][0]];
          queues := queues[i := queues[i][1..]];
        }
        k := k + 1;
      }
      FullRound(old(queues), start, c.batch, k, given, c.n);
    }

    method StopTaking(discard: bool)
      modifies this
      ensures View() == Stop(old(View()), discard)
    {
      stopped := true;
      if discard {
        queues := seq(|queues|, _ => []);
      }
    }
  }

  /** Once the batch is full, the later turns change nothing. */
  lemma {:induction false} FullRound(qs: Queues, start: nat, b: nat, k: nat, out: seq<Frame>, m: nat)
    requires start < |qs| && k <= m <= |qs|
    requires k == m || |Round(qs, start, b, k, out).1| >= b
    ensures Round(qs, start, b, m, out) == Round(qs, start, b, k, out)
    decreases m
  {
    if k < m {
      FullRound(qs, start, b, k, out, m - 1);
    }
  }

  // ---- One push ----

  function Upto<T>(s: seq<T>, n: nat): seq<T> {
    if |s| <= n then s else s[..n]
  }

  /** A push is refused exactly after a stop or for a stream there is not; an
      accepted one leaves the newest frames of its stream, and counts a drop
      exactly when the queue was full. */
  ghost predicate Pushed(c: Config, st: State, st': State, f: Frame, ok: bool)
    requires Valid(c, st)
  {
    && (ok <==> !st.stopped && 0 <= f.stream < c.n)
    && (!ok ==> st' == st)
    && (ok ==>
          var i := f.stream;
          && Valid(c, st')
          && st'.queues[i] == Suffix(st.queues[i] + [f], c.depth)
          && st'.drops[i] == st.drops[i] + (if |st.queues[i]| == c.depth then 1 else 0)
          && (forall j | 0 <= j < c.n && j != i :: st'.queues[j] == st.queues[j] && st'.drops[j] == st.drops[j])
          && st'.rr == st.rr && st'.stopped == st.stopped && st'.hist == st.hist)
  }

  lemma PushExact(c: Config, st: State, f: Frame)
    requires Valid(c, st)
    ensures Pushed(c, st, Enqueued(c, st, f).0, f, Enqueued(c, st, f).1)
  {
    if !st.stopped && 0 <= f.stream < c.n {
      var q := st.queues[f.stream];
      assert q != [] ==> (q + [f])[1..] == q[1..] + [f];
    }
  }

  // ---- One batch ----

  /** The frame at place d of every queue that has one, in the order of the
      first k turns from stream `start`. */
  function Ranked(qs: Queues, start: nat, d: nat, k: nat): seq<Frame>
    requires start < |qs| && k <= |qs|
  {
    if k == 0 then []
    else
      var q := qs[(start + k - 1) % |qs|];
      Ranked(qs, start, d, k - 1) + if d < |q| then [q[d]] else []
  }

  lemma {:induction false} RoundIsRanked(qs: Queues, start: nat, b: nat, k: nat, out: seq<Frame>)
    requires start < |qs| && k <= |qs| && |out| <= b
    ensures Round(qs, start, b, k, out).1 == Upto(out + Ranked(qs, start, 0, k), b)
    decreases k
  {
    if k > 0 {
      RoundIsRanked(qs, start, b, k - 1, out);
      var x := At(start, k - 1, |qs|);
      var before := Ranked(qs, start, 0, k - 1);
      if |Round(qs, start, b, k - 1, out).1| < b {
        OpenRound(qs, start, b, k - 1, out, x);
        assert Turn(start, x, |qs|) == k - 1;
        assert (out + before) + Ranked(qs, start, 0, k)[|before|..] == out + Ranked(qs, start, 0, k);
      } else {
        assert (out + Ranked(qs, start, 0, k))[..b] == (out + before)[..b];
      }
    } else {
      assert out + [] == out;
    }
  }

  lemma {:induction false} RankedTails(qs: Queues, qs1: Queues, start: nat, k: nat)
    requires |qs1| == |qs| && start < |qs| && k <= |qs| && forall i | 0 <= i < |qs| :: qs1[i] == Tail(qs[i])
    ensures Ranked(qs1, start, 0, k) == Ranked(qs, start, 1, k)
    decreases k
  {
    if k > 0 {
      RankedTails(qs, qs1, start, k - 1);
    }
  }

  /** The batch outright: the oldest frames of the streams in the order of the
      rotation, then the second oldest in the same order, cut at its size. */
  lemma BatchIsRotation(qs: Queues, start: nat, b: nat)
    requires start < |qs|
    ensures Both(qs, start, b).1 == Upto(Ranked(qs, start, 0, |qs|) + Ranked(qs, start, 1, |qs|), b)
  {
    var (qs1, out1) := Round(qs, start, b, |qs|, []);
    var first := Ranked(qs, start, 0, |qs|);
    RoundIsRanked(qs, start, b, |qs|, []);
    assert [] + first == first;
    RoundIsRanked(qs1, start, b, |qs|, out1);
    if |out1| < b {
      forall i | 0 <= i < |qs|
        ensures qs1[i] == Tail(qs[i])
      {
        OpenRound(qs, start, b, |qs|, [], i);
      }
      RankedTails(qs, qs1, start, |qs|);
    }
  }

  function Of(frames: seq<Frame>, i: nat): seq<Frame> {
    if frames == [] then []
    else Of(frames[..|frames| - 1], i) + if frames[|frames| - 1].stream == i then [frames[|frames| - 1]] else []
  }

  lemma OfGrows(frames: seq<Frame>, f: Frame, i: nat)
    ensures Of(frames + [f], i) == Of(frames, i) + if f.stream == i then [f] else []
  {
    assert (frames + [f])[..|frames|] == frames;
  }

  ghost predicate Sorted(qs: Queues) {
    forall i, k | 0 <= i < |qs| && 0 <= k < |qs[i]| :: qs[i][k].stream == i
  }

  /** Nothing is lost or reordered: a stream's part of the batch, then the rest
      of its queue, are what its queue held. */
  lemma {:induction false} RoundOrder(qs: Queues, start: nat, b: nat, k: nat, out: seq<Frame>, i: nat)
    requires start < |qs| && k <= |qs| && i < |qs| && Sorted(qs)
    ensures var (qs', out') := Round(qs, start, b, k, out);
            Sorted(qs') && Of(out', i) + qs'[i] == Of(out, i) + qs[i]
    decreases k
  {
    if k > 0 {
      RoundOrder(qs, start, b, k - 1, out, i);
      var (qs1, out1) := Round(qs, start, b, k - 1, out);
      VisitOrder(qs1, At(start, k - 1, |qs|), b, out1, i);
    }
  }

  lemma VisitOrder(qs: Queues, x: nat, b: nat, out: seq<Frame>, i: nat)
    requires x < |qs| && i < |qs| && Sorted(qs)
    ensures var (qs', out') := Visit(qs, x, b, out);
            Sorted(qs') && Of(out', i) + qs'[i] == Of(out, i) + qs[i]
  {
    if |out| < b && qs[x] != [] {
      OfGrows(out, qs[x][0], i);
      if x == i {
        Regroup(Of(out, i), qs[i]);
      } else {
        assert Of(out, i) + [] == Of(out, i);
      }
    }
  }

  lemma Regroup(a: seq<Frame>, q: seq<Frame>)
    requires q != []
    ensures (a + [q[0]]) + q[1..] == a + q
  {
  }

  lemma BatchOrder(qs: Queues, start: nat, b: nat, i: nat)
    requires start < |qs| && i < |qs| && Sorted(qs)
    ensures var (qs', out) := Both(qs, start, b);
            Sorted(qs') && qs[i] == Of(out, i) + qs'[i]
  {
    RoundOrder(qs, start, b, |qs|, [], i);
    var (qs1, out1) := Round(qs, start, b, |qs|, []);
    RoundOrder(qs1, start, b, |qs1|, out1, i);
    assert [] + qs[i] == qs[i];
  }

  function Tail(q: seq<Frame>): seq<Frame> {
    if q == [] then [] else q[1..]
  }

  /** While the batch has room, every stream that had its turn gave a frame. */
  lemma {:induction false} OpenRound(qs: Queues, start: nat, b: nat, k: nat, out: seq<Frame>, i: nat)
    requires start < |qs| && k <= |qs| && i < |qs| && |Round(qs, start, b, k, out).1| < b
    ensures Round(qs, start, b, k, out).0[i] == if Turn(start, i, |qs|) < k then Tail(qs[i]) else qs[i]
    decreases k
  {
    if k > 0 {
      OpenRound(qs, start, b, k - 1, out, i);
    }
  }

  /** The turn at which stream i is visited. */
  function Turn(start: nat, i: nat, n: nat): (k: nat)
    requires start < n && i < n
    ensures k < n && At(start, k, n) == i
    ensures forall j | 0 <= j < n && At(start, j, n) == i :: j == k
  {
    if i >= start then i - start else i + n - start
  }

  /** A batch with room left took up to two frames from every stream; with
      queues of at most two, it leaves them all empty. */
  lemma ShortBatchEmpties(c: Config, st: State, i: nat)
    requires Valid(c, st) && i < c.n && |Serve(c, st).1| < c.batch
    ensures Serve(c, st).0.queues[i] == Tail(Tail(st.queues[i]))
    ensures c.depth <= 2 ==> Serve(c, st).0.queues[i] == []
  {
    var (qs1, out1) := Round(st.queues, st.rr, c.batch, c.n, []);
    assert out1 <= Round(qs1, st.rr, c.batch, c.n, out1).1;
    OpenRound(st.queues, st.rr, c.batch, c.n, [], i);
    OpenRound(qs1, st.rr, c.batch, c.n, out1, i);
  }

  lemma {:induction false} FirstTurn(qs: Queues, start: nat, b: nat, k: nat)
    requires start < |qs| && 1 <= k <= |qs| && b >= 1 && qs[start] != []
    ensures Round(qs, start, b, k, []).1 != [] && Round(qs, start, b, k, []).1[0] == qs[start][0]
    decreases k
  {
    if k > 1 {
      FirstTurn(qs, start, b, k - 1);
    } else {
      assert Round(qs, start, b, 0, []) == (qs, []);
      assert At(start, 0, |qs|) == start;
    }
  }

  /** The stream whose turn it is comes first in the batch. */
  lemma FrontOfRotation(c: Config, st: State)
    requires Valid(c, st) && st.queues[st.rr] != []
    ensures Serve(c, st).1 != [] && Serve(c, st).1[0] == st.queues[st.rr][0]
  {
    FirstTurn(st.queues, st.rr, c.batch, c.n);
  }

  /** A batch is empty only when every queue was. */
  lemma EmptyBatchOnlyWhenIdle(c: Config, st: State, i: nat)
    requires Valid(c, st) && i < c.n && Serve(c, st).1 == []
    ensures st.queues[i] == []
  {
    ShortBatchEmpties(c, st, i);
    BatchOrder(st.queues, st.rr, c.batch, i);
  }

  // ---- Runs ----

  datatype Op = Push(f: Frame) | Take | Halt(discard: bool)

  datatype Fate = Delivered | Dropped | Discarded

  /** The batcher with its history: per stream, what was accepted and how each
      frame that is gone left. */
  datatype World = World(st: State, accepted: Queues, left: seq<seq<(Frame, Fate)>>, batches: nat, frames: nat)

  function Tagged(s: seq<Frame>, fate: Fate): (r: seq<(Frame, Fate)>)
    ensures |r| == |s| && forall i | 0 <= i < |s| :: r[i] == (s[i], fate)
  {
    seq(|s|, i requires 0 <= i < |s| => (s[i], fate))
  }

  function Frames(s: seq<(Frame, Fate)>): (r: seq<Frame>)
    ensures |r| == |s| && forall i | 0 <= i < |s| :: r[i] == s[i].0
  {
    seq(|s|, i requires 0 <= i < |s| => s[i].0)
  }

  function CountOf(s: seq<(Frame, Fate)>, fate: Fate): nat {
    if s == [] then 0 else CountOf(s[..|s| - 1], fate) + if s[|s| - 1].1 == fate then 1 else 0
  }

  ghost predicate Shape(c: Config, w: World) {
    Valid(c, w.st) && |w.accepted| == c.n == |w.left|
  }

  function AfterPush(c: Config, w: World, f: Frame): World
    requires Shape(c, w)
  {
    var (st, ok) := Enqueued(c, w.st, f);
    if !ok then w
    else
      var i, q := f.stream, w.st.queues[f.stream];
      w.(st := st, accepted := w.accepted[i := w.accepted[i] + [f]],
         left := if |q| >= c.depth then w.left[i := w.left[i] + [(q[0], Dropped)]] else w.left)
  }

  function AfterTake(c: Config, w: World): World
    requires Shape(c, w)
  {
    var (st, out) := Serve(c, w.st);
    w.(st := st, left := seq(c.n, i requires 0 <= i < c.n => w.left[i] + Tagged(Of(out, i), Delivered)),
       batches := w.batches + 1, frames := w.frames + |out|)
  }

  function AfterHalt(c: Config, w: World, discard: bool): World
    requires Shape(c, w)
  {
    w.(st := Stop(w.st, discard),
       left := if discard then seq(c.n, i requires 0 <= i < c.n => w.left[i] + Tagged(w.st.queues[i], Discarded))
           else w.left)
  }

  function Next(c: Config, w: World, op: Op): World
    requires Shape(c, w)
  {
    match op
    case Push(f) => AfterPush(c, w, f)
    case Take => AfterTake(c, w)
    case Halt(discard) => AfterHalt(c, w, discard)
  }

  function Sum(h: seq<nat>): nat {
    if h == [] then 0 else Sum(h[..|h| - 1]) + h[|h| - 1]
  }

  function Weighted(h: seq<nat>): nat {
    if h == [] then 0 else Weighted(h[..|h| - 1]) + (|h| - 1) * h[|h| - 1]
  }

  /** Per stream: accepted is what left, in the same order, then the queue; the
      drop counter counts the dropped. The histogram totals the batches. */
  ghost predicate Inv(c: Config, w: World) {
    && Shape(c, w)
    && (forall i | 0 <= i < c.n :: w.accepted[i] == Frames(w.left[i]) + w.st.queues[i])
    && (forall i | 0 <= i < c.n :: w.st.drops[i] == CountOf(w.left[i], Dropped))
    && Sum(w.st.hist) == w.batches && Weighted(w.st.hist) == w.frames
  }

  lemma {:induction false} HistStep(h: seq<nat>, k: nat)
    requires k < |h|
    ensures Sum(h[k := h[k] + 1]) == Sum(h) + 1 && Weighted(h[k := h[k] + 1]) == Weighted(h) + k
  {
    var m := |h| - 1;
    var h' := h[k := h[k] + 1];
    if k < m {
      HistStep(h[..m], k);
      assert h'[..m] == h[..m][k := h[k] + 1];
    } else {
      assert h'[..m] == h[..m];
      assert m * (h[m] + 1) == m * h[m] + m;
    }
  }

  lemma {:induction false} CountTagged(s: seq<(Frame, Fate)>, more: seq<Frame>, fate: Fate, of: Fate)
    ensures CountOf(s + Tagged(more, fate), of) == CountOf(s, of) + if fate == of then |more| else 0
    decreases |more|
  {
    if more == [] {
      assert s + Tagged(more, fate) == s;
    } else {
      var front := more[..|more| - 1];
      CountTagged(s, front, fate, of);
      assert (s + Tagged(more, fate))[..|s| + |more| - 1] == s + Tagged(front, fate);
    }
  }

  lemma FramesConcat(s: seq<(Frame, Fate)>, more: seq<Frame>, fate: Fate)
    ensures Frames(s + Tagged(more, fate)) == Frames(s) + more
  {
  }

  lemma PushKeeps(c: Config, w: World, f: Frame)
    requires Inv(c, w)
    ensures Inv(c, AfterPush(c, w, f))
  {
    var (st, ok) := Enqueued(c, w.st, f);
    if ok {
      var i, q := f.stream, w.st.queues[f.stream];
      if |q| >= c.depth {
        var l := w.left[i] + [(q[0], Dropped)];
        assert l[..|w.left[i]|] == w.left[i];
        assert Frames(l) + (q[1..] + [f]) == (Frames(w.left[i]) + q) + [f];
      } else {
        assert Frames(w.left[i]) + (q + [f]) == (Frames(w.left[i]) + q) + [f];
      }
    }
  }

  lemma TakenAt(c: Config, w: World, i: nat)
    requires Shape(c, w) && i < c.n
    ensures var (qs, out) := Both(w.st.queues, w.st.rr, c.batch);
            && AfterTake(c, w).accepted == w.accepted && AfterTake(c, w).st.queues == qs
            && AfterTake(c, w).left[i] == w.left[i] + Tagged(Of(out, i), Delivered)
  {
  }

  lemma Regrouped(left: seq<Frame>, out: seq<Frame>, q: seq<Frame>)
    ensures left + (out + q) == (left + out) + q
  {
  }

  lemma TakeStream(c: Config, w: World, i: nat)
    requires Inv(c, w) && i < c.n
    ensures var w' := AfterTake(c, w);
            && w'.accepted[i] == Frames(w'.left[i]) + w'.st.queues[i]
            && CountOf(w'.left[i], Dropped) == CountOf(w.left[i], Dropped) && |w'.st.queues[i]| <= c.depth
            && Sorted(w'.st.queues)
  {
    var (qs, out) := Both(w.st.queues, w.st.rr, c.batch);
    var mine := Of(out, i);
    TakenAt(c, w, i);
    BatchOrder(w.st.queues, w.st.rr, c.batch, i);
    CountTagged(w.left[i], mine, Delivered, Dropped);
    FramesConcat(w.left[i], mine, Delivered);
    Regrouped(Frames(w.left[i]), mine, qs[i]);
  }

  lemma TakeKeeps(c: Config, w: World)
    requires Inv(c, w)
    ensures Inv(c, AfterTake(c, w))
  {
    forall i | 0 <= i < c.n
      ensures var w' := AfterTake(c, w);
              && w'.accepted[i] == Frames(w'.left[i]) + w'.st.queues[i]
              && CountOf(w'.left[i], Dropped) == CountOf(w.left[i], Dropped) && |w'.st.queues[i]| <= c.depth
    {
      TakeStream(c, w, i);
    }
    TakeStream(c, w, 0);
    HistStep(w.st.hist, |Serve(c, w.st).1|);
  }

  lemma HaltKeeps(c: Config, w: World, discard: bool)
    requires Inv(c, w)
    ensures Inv(c, AfterHalt(c, w, discard))
  {
    if discard {
      forall i | 0 <= i < c.n
        ensures w.accepted[i] == Frames(w.left[i] + Tagged(w.st.queues[i], Discarded)) + []
        ensures CountOf(w.left[i] + Tagged(w.st.queues[i], Discarded), Dropped) == CountOf(w.left[i], Dropped)
      {
        FramesConcat(w.left[i], w.st.queues[i], Discarded);
        CountTagged(w.left[i], w.st.queues[i], Discarded, Dropped);
      }
    }
  }

  ghost predicate Runs(c: Config, ops: seq<Op>, ws: seq<World>) {
    && ValidConfig(c) && |ws| == |ops| + 1
    && ws[0] == World(Initial(c), seq(c.n, _ => []), seq(c.n, _ => []), 0, 0)
    && forall k | 0 <= k < |ops| :: Shape(c, ws[k]) && ws[k + 1] == Next(c, ws[k], ops[k])
  }

  lemma {:induction false} SumZero(n: nat)
    ensures Sum(seq(n, _ => 0)) == 0 && Weighted(seq(n, _ => 0)) == 0
  {
    if n > 0 {
      assert seq(n, _ => 0)[..n - 1] == seq(n - 1, _ => 0);
      SumZero(n - 1);
    }
  }

  /** In every run, per stream: nothing vanishes, nothing is reordered, no
      queue exceeds its depth, and both counters are exact. */
  lemma {:induction false} StreamsConserve(c: Config, ops: seq<Op>, ws: seq<World>, k: nat)
    requires Runs(c, ops, ws) && k <= |ops|
    ensures Inv(c, ws[k])
  {
    if k == 0 {
      SumZero(c.batch + 1);
    } else {
      StreamsConserve(c, ops, ws, k - 1);
      match ops[k - 1]
      case Push(f) => PushKeeps(c, ws[k - 1], f);
      case Take => TakeKeeps(c, ws[k - 1]);
      case Halt(discard) => HaltKeeps(c, ws[k - 1], discard);
    }
  }

  ghost predicate Halted(ops: seq<Op>) {
    exists j :: 0 <= j < |ops| && ops[j].Halt?
  }

  /** The frames pushed for stream i before the first stop. */
  ghost function PushedBeforeHalt(ops: seq<Op>, i: nat): seq<Frame> {
    if ops == [] then []
    else
      var front, op := ops[..|ops| - 1], ops[|ops| - 1];
      PushedBeforeHalt(front, i) + if !Halted(front) && op.Push? && op.f.stream == i then [op.f] else []
  }

  lemma OneMoreOp(ops: seq<Op>, op: Op, i: nat)
    ensures Halted(ops + [op]) <==> Halted(ops) || op.Halt?
    ensures PushedBeforeHalt(ops + [op], i) ==
            PushedBeforeHalt(ops, i) + if !Halted(ops) && op.Push? && op.f.stream == i then [op.f] else []
  {
    assert (ops + [op])[..|ops|] == ops;
    if Halted(ops) {
      var j :| 0 <= j < |ops| && ops[j].Halt?;
      assert (ops + [op])[j].Halt?;
    } else {
      assert (ops + [op])[|ops|] == op;
    }
  }

  lemma AcceptedStep(c: Config, w: World, op: Op, i: nat)
    requires Shape(c, w) && i < c.n
    ensures Next(c, w, op).accepted[i] ==
            w.accepted[i] + if !w.st.stopped && op.Push? && op.f.stream == i then [op.f] else []
    ensures Next(c, w, op).st.stopped == (w.st.stopped || op.Halt?)
  {
    if op.Push? {
      PushExact(c, w.st, op.f);
    }
  }

  /** What a stream accepted, and so what its batches, drops, discards and queue
      share out, is every frame pushed for it before the first stop. */
  lemma {:induction false} AcceptedExact(c: Config, ops: seq<Op>, ws: seq<World>, k: nat, i: nat)
    requires Runs(c, ops, ws) && k <= |ops| && i < c.n
    ensures Shape(c, ws[k]) && ws[k].accepted[i] == PushedBeforeHalt(ops[..k], i)
    ensures ws[k].st.stopped == Halted(ops[..k])
  {
    StreamsConserve(c, ops, ws, k);
    if k > 0 {
      AcceptedExact(c, ops, ws, k - 1, i);
      assert ops[..k] == ops[..k - 1] + [ops[k - 1]];
      OneMoreOp(ops[..k - 1], ops[k - 1], i);
      AcceptedStep(c, ws[k - 1], ops[k - 1], i);
    }
  }

  /** Batches served in steps k..m. */
  function Takes(ops: seq<Op>, k: nat, m: nat): nat
    requires k <= m <= |ops|
  {
    if k == m then 0 else Takes(ops, k, m - 1) + if ops[m - 1].Take? then 1 else 0
  }

  lemma {:induction false} Rotation(c: Config, ops: seq<Op>, ws: seq<World>, k: nat, m: nat)
    requires Runs(c, ops, ws) && k <= m <= |ops| && Takes(ops, k, m) < c.n
    ensures Shape(c, ws[k]) && Shape(c, ws[m]) && ws[m].st.rr == At(ws[k].st.rr, Takes(ops, k, m), c.n)
    decreases m
  {
    StreamsConserve(c, ops, ws, k);
    if k < m {
      Rotation(c, ops, ws, k, m - 1);
      StreamsConserve(c, ops, ws, m);
      RotationStep(c, ws[m - 1], ops[m - 1], ws[k].st.rr, Takes(ops, k, m - 1));
    }
  }

  lemma RotationStep(c: Config, w: World, op: Op, start: nat, j: nat)
    requires Shape(c, w) && start < c.n && j < c.n && w.st.rr == At(start, j, c.n) && (op.Take? ==> j + 1 < c.n)
    ensures Next(c, w, op).st.rr == At(start, if op.Take? then j + 1 else j, c.n)
  {
  }

  /** The step of the j-th batch after step k. */
  lemma {:induction false} NthTake(ops: seq<Op>, k: nat, m: nat, j: nat) returns (x: nat)
    requires k <= m <= |ops| && j < Takes(ops, k, m)
    ensures k <= x < m && ops[x].Take? && Takes(ops, k, x) == j
    decreases m
  {
    x := m - 1;
    if !ops[m - 1].Take? || j < Takes(ops, k, m - 1) {
      x := NthTake(ops, k, m - 1, j);
    }
  }

  /** Bounded fairness: among any n batches, one has stream i at its front if
      the stream has a frame by then. */
  lemma ServedWithinN(c: Config, ops: seq<Op>, ws: seq<World>, k: nat, m: nat, i: nat) returns (x: nat)
    requires Runs(c, ops, ws) && k <= m <= |ops| && Takes(ops, k, m) >= c.n && i < c.n
    requires forall y | k <= y < m && ops[y].Take? :: i < |ws[y].st.queues| && ws[y].st.queues[i] != []
    ensures k <= x < m && ops[x].Take? && Shape(c, ws[x])
    ensures Serve(c, ws[x].st).1 != [] && Serve(c, ws[x].st).1[0] == ws[x].st.queues[i][0]
  {
    StreamsConserve(c, ops, ws, k);
    x := NthTake(ops, k, m, Turn(ws[k].st.rr, i, c.n));
    Rotation(c, ops, ws, k, x);
    FrontOfRotation(c, ws[x].st);
  }
}
