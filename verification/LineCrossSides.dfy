/** What the line counter counts, told from the calls alone: on which side of
    the line each call's point lies, where a chain of tracks was last, and how
    long a track has been there. */
module LineCrossSides {
  import opened Wrappers
  import opened Bytes
  import opened LineCrossing
  import opened LineCrossRuns
  import T = Trackers

  // ---- Geometry ----

  /** Twice the area of the triangle of the line and the point, positive on one
      side of the line and negative on the other. */
  function Turn(ln: Line, x: real, y: real): real {
    (ln.x1 - ln.x0) * (y - ln.y0) - (ln.y1 - ln.y0) * (x - ln.x0)
  }

  /** The side of the line the point is on, 0 within `band` of it. */
  function Beyond(cfg: Config, ln: Line, x: real, y: real): int {
    var reach := cfg.band * cfg.hypot(ln.x1 - ln.x0, ln.y1 - ln.y0);
    if Turn(ln, x, y) > reach then 1 else if Turn(ln, x, y) < -reach then -1 else 0
  }

  lemma Scaled(a: real, len: real, band: real)
    requires len > 0.0
    ensures a / len > band <==> a > band * len
    ensures a / len < -band <==> a < -(band * len)
  {
    var q := a / len;
    assert q * len == a;
    if q > band {
      assert (q - band) * len > 0.0;
    } else {
      assert (band - q) * len >= 0.0;
    }
    if q < -band {
      assert (-band - q) * len > 0.0;
    } else {
      assert (q + band) * len >= 0.0;
    }
  }

  lemma SideIsBeyond(cfg: Config, ln: Line, x: real, y: real)
    requires Usable(cfg, ln)
    ensures SideOf(cfg, Distance(cfg, ln, x, y)) == Beyond(cfg, ln, x, y)
  {
    Scaled(Turn(ln, x, y), cfg.hypot(ln.x1 - ln.x0, ln.y1 - ln.y0), cfg.band);
  }

  /** The point between the ends of the line, each end moved out by `margin`
      of the line's length, measured along the line. */
  ghost predicate Alongside(cfg: Config, ln: Line, x: real, y: real) {
    var len := cfg.hypot(ln.x1 - ln.x0, ln.y1 - ln.y0);
    var along := (x - ln.x0) * (ln.x1 - ln.x0) + (y - ln.y0) * (ln.y1 - ln.y0);
    -(cfg.margin * (len * len)) <= along <= (1.0 + cfg.margin) * (len * len)
  }

  lemma ProjectionIsAlong(cfg: Config, ln: Line, x: real, y: real)
    requires Usable(cfg, ln)
    ensures -cfg.margin <= Projection(cfg, ln, x, y) <= 1.0 + cfg.margin <==> Alongside(cfg, ln, x, y)
  {
    var len := cfg.hypot(ln.x1 - ln.x0, ln.y1 - ln.y0);
    var square := len * len;
    assert square > 0.0;
    var along := (x - ln.x0) * (ln.x1 - ln.x0) + (y - ln.y0) * (ln.y1 - ln.y0);
    assert Projection(cfg, ln, x, y) == along / square;
    Scaled(along, square, 1.0 + cfg.margin);
    Scaled(along, square, cfg.margin);
  }

  // ---- What the calls so far say ----

  /** Of a chain: its last side outside the band, its last place, and when its
      last track was removed. */
  datatype Past = Past(side: int, place: (real, real), gone: real)

  const NOWHERE := Past(0, (0.0, 0.0), 0.0)

  ghost predicate InChain(w: World, id: U32, c: nat) {
    id in w.chain && w.chain[id] == c
  }

  /** ... and what the call op, which led from w to w', adds to it. */
  ghost function PastAfter(cfg: Config, ln: Line, w: World, op: Op, w': World, p: Past, c: nat): Past {
    match op
    case Frame(id, x, y, _) =>
      if !InChain(w', id, c) then p
      else Past(if Beyond(cfg, ln, x, y) != 0 then Beyond(cfg, ln, x, y) else p.side, (x, y), p.gone)
    case Removed(id, t) => if InChain(w, id, c) then p.(gone := t) else p
  }

  ghost function PastOf(cfg: Config, ln: Line, ops: seq<Op>, ws: seq<World>, n: nat, c: nat): Past
    requires n <= |ops| && |ws| == |ops| + 1
  {
    if n == 0 then NOWHERE
    else PastAfter(cfg, ln, ws[n - 1], ops[n - 1], ws[n], PastOf(cfg, ln, ops, ws, n - 1, c), c)
  }

  /** The frames of a track since it was last removed. */
  function FramesOf(ops: seq<Op>, n: nat, id: U32): nat
    requires n <= |ops|
  {
    if n == 0 then 0
    else
      match ops[n - 1]
      case Frame(i, _, _, _) => FramesOf(ops, n - 1, id) + if i == id then 1 else 0
      case Removed(i, _) => if i == id then 0 else FramesOf(ops, n - 1, id)
  }

  /** Where the track was when its last crossing was counted. */
  ghost function CountedAt(ops: seq<Op>, ws: seq<World>, n: nat, id: U32): Option<(real, real)>
    requires n <= |ops| && |ws| == |ops| + 1
  {
    if n == 0 then None
    else
      match ops[n - 1]
      case Frame(i, x, y, _) =>
        if i == id && |ws[n].log| > |ws[n - 1].log| then Some((x, y)) else CountedAt(ops, ws, n - 1, id)
      case Removed(i, _) => if i == id then None else CountedAt(ops, ws, n - 1, id)
  }

  /** Chain c is where p says, be it with a live track or with a lost record. */
  ghost predicate IsAt(w: World, p: Past, c: nat) {
    && Shape(w)
    && (forall id | InChain(w, id, c) :: w.ls.st[id].side == p.side && (w.ls.st[id].lx, w.ls.st[id].ly) == p.place)
    && (forall k | 0 <= k < |w.lostChain| && w.lostChain[k] == c ::
          w.ls.lost[k].side == p.side && (w.ls.lost[k].ax, w.ls.lost[k].ay) == p.place && w.ls.lost[k].t == p.gone)
    && (c >= w.next ==> p == NOWHERE)
  }

  /** The track's state when a frame is judged: what it inherits, one frame
      older, at its new place. */
  function Judged(cfg: Config, ls: LineState, id: U32, x: real, y: real, now: real): PerTrack {
    var s := Entry(ls, id);
    Inherited(s, ls.lost, Heir(cfg, s, ls.lost, x, y, now)).(age := T.Inc(s.age), lx := x, ly := y)
  }

  /** What a frame leaves of the line's state, and what it counts. */
  lemma FrameStep(cfg: Config, ln: Line, w: World, id: U32, x: real, y: real, now: real)
    requires Usable(cfg, ln) && Shape(w)
    ensures var op := Frame(id, x, y, now);
            var (ls', dir) := After(cfg, ln, w.ls, op);
            var s := Judged(cfg, w.ls, id, x, y, now);
            && id in ls'.st && ls'.st[id].side == (if Beyond(cfg, ln, x, y) != 0 then Beyond(cfg, ln, x, y) else s.side)
            && ls'.st[id].lx == x && ls'.st[id].ly == y && ls'.st[id].age == T.Inc(Entry(w.ls, id).age)
            && ls'.st[id].anchor == (if dir.Some? then Some((x, y)) else Entry(w.ls, id).anchor)
            && (dir.Some? <==> Counts(cfg, s, Beyond(cfg, ln, x, y), Projection(cfg, ln, x, y), x, y))
            && (dir.Some? ==> dir.value == if s.side > 0 then 1 else -1)
            && ls'.st == w.ls.st[id := ls'.st[id]]
  {
    SideIsBeyond(cfg, ln, x, y);
    CrossRules(cfg, Judged(cfg, w.ls, id, x, y, now), Beyond(cfg, ln, x, y), Projection(cfg, ln, x, y), x, y);
  }

  // ---- The state is what the calls say ----

  lemma JudgedSide(cfg: Config, w: World, op: Op, p: Past)
    requires Inv(w) && op.Frame?
    requires IsAt(w, p, ChainOf(w, op.id, HeirOf(cfg, w, op)))
    ensures Judged(cfg, w.ls, op.id, op.x, op.y, op.now).side == p.side
  {
    var heir := HeirOf(cfg, w, op);
    if heir.None? && op.id in w.chain {
      assert InChain(w, op.id, w.chain[op.id]);
    }
  }

  lemma IsAtOwnFrame(cfg: Config, ln: Line, w: World, op: Op, p: Past)
    requires Usable(cfg, ln) && Inv(w) && op.Frame? && Inv(Next(cfg, ln, w, op))
    requires IsAt(w, p, ChainOf(w, op.id, HeirOf(cfg, w, op)))
    ensures var c := ChainOf(w, op.id, HeirOf(cfg, w, op));
            IsAt(Next(cfg, ln, w, op), PastAfter(cfg, ln, w, op, Next(cfg, ln, w, op), p, c), c)
  {
    var w', c := Next(cfg, ln, w, op), ChainOf(w, op.id, HeirOf(cfg, w, op));
    JudgedSide(cfg, w, op, p);
    FrameStep(cfg, ln, w, op.id, op.x, op.y, op.now);
    assert InChain(w', op.id, c);
    assert forall id | InChain(w', id, c) :: id == op.id;
  }

  lemma IsAtFrame(cfg: Config, ln: Line, w: World, op: Op, p: Past, c: nat)
    requires Usable(cfg, ln) && Inv(w) && op.Frame? && Inv(Next(cfg, ln, w, op)) && IsAt(w, p, c)
    ensures IsAt(Next(cfg, ln, w, op), PastAfter(cfg, ln, w, op, Next(cfg, ln, w, op), p, c), c)
  {
    var w', heir := Next(cfg, ln, w, op), HeirOf(cfg, w, op);
    if c == ChainOf(w, op.id, heir) {
      IsAtOwnFrame(cfg, ln, w, op, p);
    } else {
      FrameStep(cfg, ln, w, op.id, op.x, op.y, op.now);
      IsAtOther(w, op.id, ChainOf(w, op.id, heir), heir, w', c, p);
    }
  }

  lemma IsAtOther(w: World, id: U32, own: nat, heir: Option<nat>, w': World, c: nat, p: Past)
    requires IsAt(w, p, c) && Shape(w') && (heir.Some? ==> heir.value < |w.lostChain|) && c != own
    requires w'.chain == w.chain[id := own] && id in w'.ls.st && w'.ls.st == w.ls.st[id := w'.ls.st[id]]
    requires w'.ls.lost == if heir.Some? then T.Erased(w.ls.lost, heir.value) else w.ls.lost
    requires w'.lostChain == if heir.Some? then T.Erased(w.lostChain, heir.value) else w.lostChain
    requires w'.next >= w.next
    ensures IsAt(w', p, c) && !InChain(w', id, c)
  {
    assert forall i | InChain(w', i, c) :: InChain(w, i, c);
    WaitingKept(w, heir, w', c, p);
  }


  lemma WaitingKept(w: World, heir: Option<nat>, w': World, c: nat, p: Past)
    requires IsAt(w, p, c) && Shape(w') && (heir.Some? ==> heir.value < |w.lostChain|)
    requires w'.ls.lost == if heir.Some? then T.Erased(w.ls.lost, heir.value) else w.ls.lost
    requires w'.lostChain == if heir.Some? then T.Erased(w.lostChain, heir.value) else w.lostChain
    ensures forall k | 0 <= k < |w'.lostChain| && w'.lostChain[k] == c ::
              w'.ls.lost[k].side == p.side && (w'.ls.lost[k].ax, w'.ls.lost[k].ay) == p.place &&
              w'.ls.lost[k].t == p.gone
  {
    forall k | 0 <= k < |w'.lostChain| && w'.lostChain[k] == c
      ensures w'.ls.lost[k].side == p.side && (w'.ls.lost[k].ax, w'.ls.lost[k].ay) == p.place &&
              w'.ls.lost[k].t == p.gone
    {
      var k0 := if heir.Some? && k >= heir.value then k + 1 else k;
      assert w'.ls.lost[k] == w.ls.lost[k0] && w'.lostChain[k] == w.lostChain[k0];
    }
  }

  lemma {:induction false} PrunedExact(cfg: Config, lost: seq<Lost>, t: real)
    ensures var kept := Pruned(cfg, lost, t);
            && |kept| <= |lost| && kept == lost[|lost| - |kept|..]
            && (kept != [] ==> t - kept[0].t <= cfg.rebornWindow)
            && forall k | 0 <= k < |lost| - |kept| :: t - lost[k].t > cfg.rebornWindow
    decreases |lost|
  {
    if lost != [] && t - lost[0].t > cfg.rebornWindow {
      PrunedExact(cfg, lost[1..], t);
    }
  }

  /** The records before pruning. */
  function LostWith(w: World, id: U32, t: real): seq<Lost>
    requires id in w.ls.st
  {
    var s := w.ls.st[id];
    if s.counted != 0 then w.ls.lost + [Lost(t, s.lx, s.ly, s.counted, s.side)] else w.ls.lost
  }

  lemma RemovedParts(cfg: Config, w: World, id: U32, t: real) returns (cut: nat)
    requires Shape(w) && id in w.ls.st
    ensures |AfterRemoved(cfg, w.ls, id, t).lost| <= |w.ls.lost| + 1
    ensures var lost := LostWith(w, id, t);
            && cut <= |lost| == |WaitingWith(w, id)|
            && (cut < |lost| ==> t - lost[cut].t <= cfg.rebornWindow)
            && (forall k | 0 <= k < cut :: t - lost[k].t > cfg.rebornWindow)
            && Retire(w, AfterRemoved(cfg, w.ls, id, t), id) ==
               World(LineState(w.ls.st - {id}, lost[cut..]), w.chain - {id}, WaitingWith(w, id)[cut..], w.next, w.log)
  {
    var lost := LostWith(w, id, t);
    PrunedExact(cfg, lost, t);
    cut := |lost| - |Pruned(cfg, lost, t)|;
    assert AfterRemoved(cfg, w.ls, id, t) == LineState(w.ls.st - {id}, lost[cut..]);
  }

  lemma IsAtRemoved(cfg: Config, ln: Line, w: World, op: Op, p: Past, c: nat)
    requires Usable(cfg, ln) && Inv(w) && op.Removed? && Inv(Next(cfg, ln, w, op)) && IsAt(w, p, c)
    ensures IsAt(Next(cfg, ln, w, op), PastAfter(cfg, ln, w, op, Next(cfg, ln, w, op), p, c), c)
  {
    var w' := Next(cfg, ln, w, op);
    if op.gone in w.ls.st {
      var cut := RemovedParts(cfg, w, op.gone, op.at);
      var mine := InChain(w, op.gone, c);
      assert forall id | InChain(w', id, c) :: InChain(w, id, c) && !mine;
      forall k | 0 <= k < |w'.lostChain| && w'.lostChain[k] == c
        ensures w'.ls.lost[k].side == p.side && (w'.ls.lost[k].ax, w'.ls.lost[k].ay) == p.place
        ensures w'.ls.lost[k].t == if mine then op.at else p.gone
      {
        if cut + k < |w.lostChain| {
          assert w'.ls.lost[k] == w.ls.lost[cut + k] && w'.lostChain[k] == w.lostChain[cut + k];
        }
      }
    }
  }

  lemma RunStep(cfg: Config, ln: Line, ops: seq<Op>, ws: seq<World>, n: nat)
    requires Runs(cfg, ln, ops, ws) && n < |ops|
    ensures Usable(cfg, ln) && Inv(ws[n]) && Inv(ws[n + 1]) && ws[n + 1] == Next(cfg, ln, ws[n], ops[n])
  {
    RunInv(cfg, ln, ops, ws, n);
    RunInv(cfg, ln, ops, ws, n + 1);
  }

  lemma IsAtStep(cfg: Config, ln: Line, w: World, op: Op, w': World, p: Past, c: nat)
    requires Usable(cfg, ln) && Inv(w) && w' == Next(cfg, ln, w, op) && Inv(w') && IsAt(w, p, c)
    ensures IsAt(w', PastAfter(cfg, ln, w, op, w', p, c), c)
  {
    if op.Frame? {
      IsAtFrame(cfg, ln, w, op, p, c);
    } else {
      IsAtRemoved(cfg, ln, w, op, p, c);
    }
  }

  lemma ChainStep(cfg: Config, ln: Line, ops: seq<Op>, ws: seq<World>, n: nat, c: nat)
    requires Runs(cfg, ln, ops, ws) && n < |ops| && IsAt(ws[n], PastOf(cfg, ln, ops, ws, n, c), c)
    ensures IsAt(ws[n + 1], PastOf(cfg, ln, ops, ws, n + 1, c), c)
  {
    RunStep(cfg, ln, ops, ws, n);
    IsAtStep(cfg, ln, ws[n], ops[n], ws[n + 1], PastOf(cfg, ln, ops, ws, n, c), c);
  }

  lemma NothingYet(cfg: Config, ln: Line, ops: seq<Op>, ws: seq<World>, c: nat)
    requires Runs(cfg, ln, ops, ws)
    ensures IsAt(ws[0], PastOf(cfg, ln, ops, ws, 0, c), c)
  {
  }

  lemma {:induction false} ChainRun(cfg: Config, ln: Line, ops: seq<Op>, ws: seq<World>, n: nat, c: nat)
    requires Runs(cfg, ln, ops, ws) && n <= |ops|
    ensures IsAt(ws[n], PastOf(cfg, ln, ops, ws, n, c), c)
  {
    if n > 0 {
      ChainRun(cfg, ln, ops, ws, n - 1, c);
      ChainStep(cfg, ln, ops, ws, n - 1, c);
    } else {
      NothingYet(cfg, ln, ops, ws, c);
    }
  }

  /** Age and last counted place of a track are those of its frames. */
  ghost predicate TrackIs(ls: LineState, id: U32, frames: nat, at: Option<(real, real)>) {
    Entry(ls, id).age == frames % 0x1_0000_0000 && Entry(ls, id).anchor == at
  }

  lemma OtherTrack(w: World, w': World, other: U32, id: U32, frames: nat, at: Option<(real, real)>)
    requires TrackIs(w.ls, id, frames, at) && other != id && other in w'.ls.st
    requires w'.ls.st == w.ls.st[other := w'.ls.st[other]]
    ensures TrackIs(w'.ls, id, frames, at)
  {
  }

  lemma TrackFrame(cfg: Config, ln: Line, w: World, op: Op, id: U32, frames: nat, at: Option<(real, real)>)
    requires Usable(cfg, ln) && Inv(w) && op.Frame? && TrackIs(w.ls, id, frames, at)
    ensures var w' := Next(cfg, ln, w, op);
            if op.id != id then TrackIs(w'.ls, id, frames, at)
            else TrackIs(w'.ls, id, frames + 1, if |w'.log| > |w.log| then Some((op.x, op.y)) else at)
  {
    FrameStep(cfg, ln, w, op.id, op.x, op.y, op.now);
    NextLog(cfg, ln, w, op);
    if op.id == id {
      OneFrameOlder(Entry(w.ls, id).age, frames);
    } else {
      OtherTrack(w, Next(cfg, ln, w, op), op.id, id, frames, at);
    }
  }

  lemma TrackRemoved(cfg: Config, ln: Line, w: World, op: Op, id: U32, frames: nat, at: Option<(real, real)>)
    requires Usable(cfg, ln) && Inv(w) && op.Removed? && TrackIs(w.ls, id, frames, at)
    ensures var w' := Next(cfg, ln, w, op);
            if op.gone != id then TrackIs(w'.ls, id, frames, at) else TrackIs(w'.ls, id, 0, None)
  {
  }

  lemma {:induction false} TrackRun(cfg: Config, ln: Line, ops: seq<Op>, ws: seq<World>, n: nat, id: U32)
    requires Runs(cfg, ln, ops, ws) && n <= |ops|
    ensures TrackIs(ws[n].ls, id, FramesOf(ops, n, id), CountedAt(ops, ws, n, id))
  {
    if n > 0 {
      TrackRun(cfg, ln, ops, ws, n - 1, id);
      RunInv(cfg, ln, ops, ws, n - 1);
      var frames, at := FramesOf(ops, n - 1, id), CountedAt(ops, ws, n - 1, id);
      if ops[n - 1].Frame? {
        TrackFrame(cfg, ln, ws[n - 1], ops[n - 1], id, frames, at);
      } else {
        TrackRemoved(cfg, ln, ws[n - 1], ops[n - 1], id, frames, at);
      }
    }
  }

  lemma {:induction false} SideInRange(cfg: Config, ln: Line, ops: seq<Op>, ws: seq<World>, n: nat, c: nat)
    requires n <= |ops| && |ws| == |ops| + 1
    ensures PastOf(cfg, ln, ops, ws, n, c).side in {-1, 0, 1}
  {
    if n > 0 {
      SideInRange(cfg, ln, ops, ws, n - 1, c);
    }
  }

  // ---- When a crossing is counted, and how ----

  /** A crossing told from the calls: the point is beyond the band on one side,
      the chain was last beyond it on the other, the point is alongside the
      line, the track is old enough, the chain's last counted crossing went the
      other way, and the track has moved on since its own. */
  ghost predicate Crosses(cfg: Config, ln: Line, op: Op, from: int, frames: nat, last: int, at: Option<(real, real)>)
    requires op.Frame?
  {
    && from != 0 && Beyond(cfg, ln, op.x, op.y) == -from
    && Alongside(cfg, ln, op.x, op.y)
    && Signed((frames + 1) % 0x1_0000_0000) >= cfg.minFrames
    && last != from
    && (at.Some? ==> cfg.hypot(op.x - at.value.0, op.y - at.value.1) >= cfg.minTravel)
  }

  lemma OneFrameOlder(age: U32, frames: nat)
    requires age == frames % 0x1_0000_0000
    ensures T.Inc(age) == (frames + 1) % 0x1_0000_0000
  {
    T.ModStep(frames, 0x1_0000_0000);
  }

  lemma JudgedCount(cfg: Config, w: World, op: Op, frames: nat, at: Option<(real, real)>)
    requires Inv(w) && op.Frame? && TrackIs(w.ls, op.id, frames, at)
    ensures var heir, s := HeirOf(cfg, w, op), Judged(cfg, w.ls, op.id, op.x, op.y, op.now);
            && (heir.Some? ==> heir.value < |w.lostChain|)
            && s.counted == LineCrossRuns.Last(History(w.log, ChainOf(w, op.id, heir)))
            && s.age == (frames + 1) % 0x1_0000_0000 && s.anchor == at
  {
    OneFrameOlder(Entry(w.ls, op.id).age, frames);
    BaseIsLast(w, op.id, HeirOf(cfg, w, op), Judged(cfg, w.ls, op.id, op.x, op.y, op.now).counted);
  }

  lemma CountsIff(cfg: Config, ln: Line, s: PerTrack, op: Op, frames: nat)
    requires Usable(cfg, ln) && op.Frame? && s.side in {-1, 0, 1} && s.age == (frames + 1) % 0x1_0000_0000
    ensures Counts(cfg, s, Beyond(cfg, ln, op.x, op.y), Projection(cfg, ln, op.x, op.y), op.x, op.y) <==>
            Crosses(cfg, ln, op, s.side, frames, s.counted, s.anchor)
  {
    ProjectionIsAlong(cfg, ln, op.x, op.y);
  }

  lemma CountsStep(cfg: Config, ln: Line, w: World, op: Op, p: Past, frames: nat, at: Option<(real, real)>)
    requires Usable(cfg, ln) && Inv(w) && op.Frame? && TrackIs(w.ls, op.id, frames, at) && p.side in {-1, 0, 1}
    requires var heir := HeirOf(cfg, w, op);
             (heir.Some? ==> heir.value < |w.lostChain|) && IsAt(w, p, ChainOf(w, op.id, heir))
    ensures var dir := After(cfg, ln, w.ls, op).1;
            && (dir.Some? <==>
                  Crosses(cfg, ln, op, p.side, frames,
                          LineCrossRuns.Last(History(w.log, ChainOf(w, op.id, HeirOf(cfg, w, op)))), at))
            && (dir.Some? ==> dir.value == p.side == -Beyond(cfg, ln, op.x, op.y))
  {
    JudgedSide(cfg, w, op, p);
    JudgedCount(cfg, w, op, frames, at);
    FrameStep(cfg, ln, w, op.id, op.x, op.y, op.now);
    CountsIff(cfg, ln, Judged(cfg, w.ls, op.id, op.x, op.y, op.now), op, frames);
  }

  /** Over every run: a frame counts a crossing exactly when it crosses, and the
      direction is the side the chain came from: +1 exactly when the point is
      now on the negative side, -1 exactly when it is on the positive one. */
  lemma CountsExactly(cfg: Config, ln: Line, ops: seq<Op>, ws: seq<World>, n: nat)
    requires Runs(cfg, ln, ops, ws) && n < |ops| && ops[n].Frame?
    ensures ops[n].id in ws[n + 1].chain
    ensures var dir, c := After(cfg, ln, ws[n].ls, ops[n]).1, ws[n + 1].chain[ops[n].id];
            var from := PastOf(cfg, ln, ops, ws, n, c).side;
            && (dir.Some? <==>
                  Crosses(cfg, ln, ops[n], from, FramesOf(ops, n, ops[n].id),
                          LineCrossRuns.Last(History(ws[n].log, c)), CountedAt(ops, ws, n, ops[n].id)))
            && (dir.Some? ==> dir.value == from == -Beyond(cfg, ln, ops[n].x, ops[n].y))
  {
    var op, w := ops[n], ws[n];
    RunInv(cfg, ln, ops, ws, n);
    var c := ChainOf(w, op.id, HeirOf(cfg, w, op));
    ChainRun(cfg, ln, ops, ws, n, c);
    TrackRun(cfg, ln, ops, ws, n, op.id);
    SideInRange(cfg, ln, ops, ws, n, c);
    CountsStep(cfg, ln, w, op, PastOf(cfg, ln, ops, ws, n, c), FramesOf(ops, n, op.id), CountedAt(ops, ws, n, op.id));
  }

  // ---- Which chain a new track continues ----

  /** The point is near enough, soon enough, to where a chain was lost. */
  ghost predicate Continues(cfg: Config, p: Past, op: Op)
    requires op.Frame?
  {
    op.now - p.gone <= cfg.rebornWindow && cfg.hypot(op.x - p.place.0, op.y - p.place.1) <= cfg.rebornDist
  }

  /** Where the waiting chains were lost. */
  ghost function Waiting(cfg: Config, ln: Line, ops: seq<Op>, ws: seq<World>, n: nat): (ps: seq<Past>)
    requires n <= |ops| && |ws| == |ops| + 1
    ensures |ps| == |ws[n].lostChain|
    ensures forall j | 0 <= j < |ps| :: ps[j] == PastOf(cfg, ln, ops, ws, n, ws[n].lostChain[j])
  {
    seq(|ws[n].lostChain|, j requires 0 <= j < |ws[n].lostChain| => PastOf(cfg, ln, ops, ws, n, ws[n].lostChain[j]))
  }

  /** A track's first frame (and any frame after its 32-bit age came round to 0)
      continues the first waiting chain that was lost near enough and recently
      enough, which then waits no more; any other frame leaves its track in its
      chain, a new one if it has none. */
  ghost predicate Inherits(cfg: Config, w: World, op: Op, w': World, ps: seq<Past>, frames: nat, k: nat)
    requires op.Frame? && |ps| == |w.lostChain|
  {
    && op.id in w'.chain && k <= |ps|
    && (k < |ps| <==> frames % 0x1_0000_0000 == 0 && exists j :: 0 <= j < |ps| && Continues(cfg, ps[j], op))
    && (k < |ps| ==>
          && w'.chain[op.id] == w.lostChain[k] && w'.lostChain == w.lostChain[..k] + w.lostChain[k + 1..]
          && Continues(cfg, ps[k], op) && forall j | 0 <= j < k :: !Continues(cfg, ps[j], op))
    && (k == |ps| ==>
          w'.chain[op.id] == (if op.id in w.chain then w.chain[op.id] else w.next) && w'.lostChain == w.lostChain)
  }

  /** The records are where and when the calls say their chains were lost. */
  ghost predicate LostAt(w: World, ps: seq<Past>)
    requires Shape(w)
  {
    |ps| == |w.lostChain| &&
    forall j | 0 <= j < |ps| :: (w.ls.lost[j].ax, w.ls.lost[j].ay) == ps[j].place && w.ls.lost[j].t == ps[j].gone
  }

  lemma InheritsStep(cfg: Config, ln: Line, w: World, op: Op, ps: seq<Past>, frames: nat) returns (k: nat)
    requires Usable(cfg, ln) && Shape(w) && op.Frame? && LostAt(w, ps)
    requires Entry(w.ls, op.id).age == frames % 0x1_0000_0000
    ensures Inherits(cfg, w, op, Next(cfg, ln, w, op), ps, frames, k)
  {
    assert forall j | 0 <= j < |ps| :: Reborn(cfg, w.ls.lost[j], op.x, op.y, op.now) <==> Continues(cfg, ps[j], op);
    var heir := HeirOf(cfg, w, op);
    k := if heir.Some? then heir.value else |ps|;
  }

  lemma WaitingLostAt(cfg: Config, ln: Line, ops: seq<Op>, ws: seq<World>, n: nat)
    requires Runs(cfg, ln, ops, ws) && n <= |ops|
    ensures Shape(ws[n]) && LostAt(ws[n], Waiting(cfg, ln, ops, ws, n))
  {
    RunInv(cfg, ln, ops, ws, n);
    forall j | 0 <= j < |ws[n].lostChain|
      ensures var p := PastOf(cfg, ln, ops, ws, n, ws[n].lostChain[j]);
              (ws[n].ls.lost[j].ax, ws[n].ls.lost[j].ay) == p.place && ws[n].ls.lost[j].t == p.gone
    {
      ChainRun(cfg, ln, ops, ws, n, ws[n].lostChain[j]);
    }
  }

  /** Over every run, what a frame inherits is told from the calls. */
  lemma InheritsExactly(cfg: Config, ln: Line, ops: seq<Op>, ws: seq<World>, n: nat) returns (k: nat)
    requires Runs(cfg, ln, ops, ws) && n < |ops| && ops[n].Frame?
    ensures Inherits(cfg, ws[n], ops[n], ws[n + 1], Waiting(cfg, ln, ops, ws, n), FramesOf(ops, n, ops[n].id), k)
  {
    RunStep(cfg, ln, ops, ws, n);
    TrackRun(cfg, ln, ops, ws, n, ops[n].id);
    WaitingLostAt(cfg, ln, ops, ws, n);
    k := InheritsStep(cfg, ln, ws[n], ops[n], Waiting(cfg, ln, ops, ws, n), FramesOf(ops, n, ops[n].id));
  }

  /** What waits after a removal: the waiting chains without those at the front
      that are past the window, then the removed track's own chain exactly when
      a crossing was counted on it. */
  ghost predicate Waits(cfg: Config, w: World, op: Op, w': World, ps: seq<Past>, cut: nat)
    requires op.Removed? && op.gone in w.chain && |ps| == |w.lostChain|
  {
    && cut <= |ps| && op.gone !in w'.chain
    && w'.lostChain == w.lostChain[cut..] +
       (if History(w.log, w.chain[op.gone]) != [] then [w.chain[op.gone]] else [])
    && (forall k | 0 <= k < cut :: op.at - ps[k].gone > cfg.rebornWindow)
    && (cut < |ps| ==> op.at - ps[cut].gone <= cfg.rebornWindow)
  }

  lemma RetireWaits(cfg: Config, ln: Line, w: World, op: Op, ps: seq<Past>) returns (cut: nat)
    requires Usable(cfg, ln) && Shape(w) && op.Removed? && op.gone in w.chain && cfg.rebornWindow >= 0.0
    requires LostAt(w, ps)
    requires w.ls.st[op.gone].counted != 0 <==> History(w.log, w.chain[op.gone]) != []
    ensures Waits(cfg, w, op, Next(cfg, ln, w, op), ps, cut)
  {
    cut := RemovedParts(cfg, w, op.gone, op.at);
    var lost := LostWith(w, op.gone, op.at);
    assert |lost| > |w.ls.lost| ==> op.at - lost[|w.ls.lost|].t == 0.0;
    assert cut <= |w.ls.lost|;
    assert forall k | 0 <= k < |ps| :: lost[k].t == ps[k].gone;
    assert forall c :: (w.lostChain + [c])[cut..] == w.lostChain[cut..] + [c];
  }

  /** Over every run, what waits after a removal is told from the calls. */
  lemma WaitsExactly(cfg: Config, ln: Line, ops: seq<Op>, ws: seq<World>, n: nat) returns (cut: nat)
    requires Runs(cfg, ln, ops, ws) && n < |ops| && ops[n].Removed? && cfg.rebornWindow >= 0.0
    requires ops[n].gone in ws[n].chain
    ensures Waits(cfg, ws[n], ops[n], ws[n + 1], Waiting(cfg, ln, ops, ws, n), cut)
  {
    RunStep(cfg, ln, ops, ws, n);
    WaitingLostAt(cfg, ln, ops, ws, n);
    var h := History(ws[n].log, ws[n].chain[ops[n].gone]);
    assert Alternates(h) && ws[n].ls.st[ops[n].gone].counted == LineCrossRuns.Last(h);
    cut := RetireWaits(cfg, ln, ws[n], ops[n], Waiting(cfg, ln, ops, ws, n));
  }

  // ---- The calls of a frame ----

  /** The point judged for a track is the middle of its lower edge; while the
      track coasts it moves with the track's velocity from when it was seen, and
      is the foot of the box where the tracker looks for it. */
  lemma AnchorIsFoot(c: T.Config, tr: T.Track, now: real)
    ensures var (x, y) := AnchorOf(tr, now);
            && (tr.misses == 0 || now <= tr.lastSeen ==> x == tr.det.cx && y == T.Bottom(tr.det))
            && (tr.misses > 0 && now >= tr.lastSeen ==>
                  x - tr.det.cx == tr.vx * (now - tr.lastSeen) && y - T.Bottom(tr.det) == tr.vy * (now - tr.lastSeen))
            && (now >= tr.lastSeen && c.hypot(tr.vx, tr.vy) > 1.0 / 640.0 ==>
                  x == T.Predicted(c, tr, now).cx && y == T.Bottom(T.Predicted(c, tr, now)))
  {
    if now <= tr.lastSeen {
      var dts := 0.0;
      assert tr.vx * dts == 0.0 && tr.vy * dts == 0.0;
    }
  }

  /** The tracks of the classes that are counted, in order. */
  function Watched(cfg: Config, tracks: seq<T.Track>): seq<T.Track> {
    if tracks == [] then []
    else (if cfg.classes == [] || tracks[0].det.classId in cfg.classes then [tracks[0]] else []) +
         Watched(cfg, tracks[1..])
  }

  lemma {:induction false} WatchedGrows(cfg: Config, tracks: seq<T.Track>, tr: T.Track)
    ensures Watched(cfg, tracks + [tr]) ==
            Watched(cfg, tracks) + if cfg.classes == [] || tr.det.classId in cfg.classes then [tr] else []
  {
    if tracks == [] {
      assert [tr][1..] == [] && [] + [tr] == [tr];
    } else {
      assert (tracks + [tr])[1..] == tracks[1..] + [tr];
      WatchedGrows(cfg, tracks[1..], tr);
    }
  }

  /** A frame calls every line once for each watched track, in track order, with
      the source point of its foot. */
  lemma {:induction false} FrameOpsAre(cfg: Config, tracks: seq<T.Track>, now: real, toSource: Geometry)
    ensures var ops, ts := FrameOps(cfg, tracks, now, toSource), Watched(cfg, tracks);
            |ops| == |ts| && forall k | 0 <= k < |ts| ::
              var m := AnchorOf(ts[k], now);
              ops[k] == Frame(ts[k].id, toSource(m.0, m.1).0, toSource(m.0, m.1).1, now)
    decreases |tracks|
  {
    if tracks != [] {
      var front, tr := tracks[..|tracks| - 1], tracks[|tracks| - 1];
      FrameOpsAre(cfg, front, now, toSource);
      WatchedGrows(cfg, front, tr);
      assert tracks == front + [tr];
    }
  }
}
