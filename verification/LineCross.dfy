/** The line_cross analyzer (line_cross.cpp): a hysteresis counter per line
    that hands its state from a lost track to a reborn one. */
module LineCrossing {
  import opened Wrappers
  import opened Bytes
  import T = Trackers

  datatype Line = Line(x0: real, y0: real, x1: real, y1: real)

  datatype Config = Config(lines: seq<Line>, band: real, margin: real, minTravel: real, rebornWindow: real,
                           rebornDist: real, minFrames: I32, classes: seq<I32>, hypot: (real, real) -> real)

  /** side: last explicit side; counted: +1 forward, -1 backward, 0 never. */
  datatype PerTrack = PerTrack(side: int, counted: int, anchor: Option<(real, real)>, lx: real, ly: real, age: U32)

  datatype Lost = Lost(t: real, ax: real, ay: real, counted: int, side: int)

  datatype LineState = LineState(st: map<U32, PerTrack>, lost: seq<Lost>)

  datatype Event = Event(line: nat, trackId: U32, dir: int, x: real, y: real)

  const NEW := PerTrack(0, 0, None, 0.0, 0.0, 0)

  predicate Usable(cfg: Config, ln: Line) {
    cfg.hypot(ln.x1 - ln.x0, ln.y1 - ln.y0) >= 0.000000001
  }

  // ---- One step on one line ----

  predicate Reborn(cfg: Config, l: Lost, px: real, py: real, now: real) {
    now - l.t <= cfg.rebornWindow && cfg.hypot(px - l.ax, py - l.ay) <= cfg.rebornDist
  }

  /** Index of the first record the new track continues, or |lost|. */
  function Match(cfg: Config, lost: seq<Lost>, px: real, py: real, now: real): (i: nat)
    ensures i <= |lost| && (i < |lost| ==> Reborn(cfg, lost[i], px, py, now))
    ensures forall k | 0 <= k < i :: !Reborn(cfg, lost[k], px, py, now)
  {
    if lost == [] || Reborn(cfg, lost[0], px, py, now) then 0 else 1 + Match(cfg, lost[1..], px, py, now)
  }

  /** Which lost record the track with state s takes over, if any. */
  function Heir(cfg: Config, s: PerTrack, lost: seq<Lost>, px: real, py: real, now: real): Option<nat> {
    var i := Match(cfg, lost, px, py, now);
    if s.age == 0 && i < |lost| then Some(i) else None
  }

  function Inherited(s: PerTrack, lost: seq<Lost>, heir: Option<nat>): PerTrack
    requires heir.Some? ==> heir.value < |lost|
  {
    if heir.Some? then s.(counted := lost[heir.value].counted, side := lost[heir.value].side) else s
  }

  function Distance(cfg: Config, ln: Line, px: real, py: real): real
    requires Usable(cfg, ln)
  {
    var dx, dy := ln.x1 - ln.x0, ln.y1 - ln.y0;
    (dx * (py - ln.y0) - dy * (px - ln.x0)) / cfg.hypot(dx, dy)
  }

  function Projection(cfg: Config, ln: Line, px: real, py: real): real
    requires Usable(cfg, ln)
  {
    var dx, dy := ln.x1 - ln.x0, ln.y1 - ln.y0;
    var len := cfg.hypot(dx, dy);
    ((px - ln.x0) * dx + (py - ln.y0) * dy) / (len * len)
  }

  /** The explicit side of the anchor, 0 inside the band. */
  function SideOf(cfg: Config, d: real): int {
    if d > cfg.band then 1 else if d < -cfg.band then -1 else 0
  }

  /** `step` after inheritance and ageing; cur and tproj are the anchor's side
      and projection. The result may carry a counted direction. */
  function Cross(cfg: Config, s: PerTrack, cur: int, tproj: real, px: real, py: real): (PerTrack, Option<int>) {
    if cur == 0 then (s, None)
    else if s.side == 0 then (s.(side := cur), None)
    else if cur == s.side then (s, None)
    else if tproj < -cfg.margin || tproj > 1.0 + cfg.margin then (s.(side := cur), None)
    else if Signed(s.age) < cfg.minFrames then (s.(side := cur), None)
    else
      var dir := if s.side > 0 then 1 else -1;
      if s.counted == dir then (s.(side := cur), None)
      else if s.anchor.Some? && cfg.hypot(px - s.anchor.value.0, py - s.anchor.value.1) < cfg.minTravel then
        (s.(side := cur), None)
      else (s.(counted := dir, anchor := Some((px, py)), side := cur), Some(dir))
  }

  /** One call of step() or on_track_removed() for a line. */
  datatype Op = Frame(id: U32, x: real, y: real, now: real) | Removed(gone: U32, at: real)

  function Entry(ls: LineState, id: U32): PerTrack {
    if id in ls.st then ls.st[id] else NEW
  }

  function AfterFrame(cfg: Config, ln: Line, ls: LineState, id: U32, px: real, py: real, now: real)
      : (LineState, Option<int>)
    requires Usable(cfg, ln)
  {
    var s0 := Entry(ls, id);
    var heir := Heir(cfg, s0, ls.lost, px, py, now);
    var s1 := Inherited(s0, ls.lost, heir).(age := T.Inc(s0.age), lx := px, ly := py);
    var (s2, dir) := Cross(cfg, s1, SideOf(cfg, Distance(cfg, ln, px, py)), Projection(cfg, ln, px, py), px, py);
    (LineState(ls.st[id := s2], if heir.Some? then T.Erased(ls.lost, heir.value) else ls.lost), dir)
  }

  function Pruned(cfg: Config, lost: seq<Lost>, t: real): seq<Lost> {
    if lost != [] && t - lost[0].t > cfg.rebornWindow then Pruned(cfg, lost[1..], t) else lost
  }

  function AfterRemoved(cfg: Config, ls: LineState, id: U32, t: real): LineState {
    if id !in ls.st then ls
    else
      var s := ls.st[id];
      var lost := if s.counted != 0 then ls.lost + [Lost(t, s.lx, s.ly, s.counted, s.side)] else ls.lost;
      LineState(ls.st - {id}, Pruned(cfg, lost, t))
  }

  function After(cfg: Config, ln: Line, ls: LineState, op: Op): (LineState, Option<int>)
    requires Usable(cfg, ln)
  {
    match op
    case Frame(id, x, y, now) => AfterFrame(cfg, ln, ls, id, x, y, now)
    case Removed(id, t) => (AfterRemoved(cfg, ls, id, t), None)
  }

  // ---- The analyzer ----

  predicate ClassOk(cfg: Config, c: I32) {
    cfg.classes == [] || c in cfg.classes
  }

  /** The bottom-centre anchor, extrapolated while coasting. */
  function AnchorOf(tr: T.Track, now: real): (real, real) {
    var my := tr.det.cy + tr.det.h * 0.5;
    if tr.misses > 0 then
      var dts := if now - tr.lastSeen < 0.0 then 0.0 else now - tr.lastSeen;
      (tr.det.cx + tr.vx * dts, my + tr.vy * dts)
    else (tr.det.cx, my)
  }

  lemma FrameOpsGrow(cfg: Config, tracks: seq<T.Track>, i: nat, now: real, toSource: Geometry)
    requires i < |tracks|
    ensures var m := AnchorOf(tracks[i], now);
            var p := toSource(m.0, m.1);
            FrameOps(cfg, tracks[..i + 1], now, toSource) ==
            if ClassOk(cfg, tracks[i].det.classId) then
              FrameOps(cfg, tracks[..i], now, toSource) + [Frame(tracks[i].id, p.0, p.1, now)]
            else FrameOps(cfg, tracks[..i], now, toSource)
  {
    assert tracks[..i + 1][..i] == tracks[..i];
  }

  type Geometry = (real, real) -> (real, real)

  /** The calls a frame makes for every line. */
  function FrameOps(cfg: Config, tracks: seq<T.Track>, now: real, toSource: Geometry): seq<Op> {
    if tracks == [] then []
    else
      var tr := tracks[|tracks| - 1];
      var (mx, my) := AnchorOf(tr, now);
      var p := toSource(mx, my);
      FrameOps(cfg, tracks[..|tracks| - 1], now, toSource) +
      if ClassOk(cfg, tr.det.classId) then [Frame(tr.id, p.0, p.1, now)] else []
  }

  function LineRun(cfg: Config, ln: Line, ls: LineState, ops: seq<Op>): LineState
    requires Usable(cfg, ln)
  {
    if ops == [] then ls else After(cfg, ln, LineRun(cfg, ln, ls, ops[..|ops| - 1]), ops[|ops| - 1]).0
  }

  /** The events of a run on line li, in order. */
  function LineEvents(cfg: Config, li: nat, ls: LineState, ops: seq<Op>): seq<Event>
    requires li < |cfg.lines| && Usable(cfg, cfg.lines[li])
  {
    if ops == [] then []
    else
      var op, before := ops[|ops| - 1], ops[..|ops| - 1];
      var dir := After(cfg, cfg.lines[li], LineRun(cfg, cfg.lines[li], ls, before), op).1;
      LineEvents(cfg, li, ls, before) +
      if dir.Some? && op.Frame? then [Event(li, op.id, dir.value, op.x, op.y)] else []
  }

  function OnLine(events: seq<Event>, li: nat): seq<Event> {
    if events == [] then []
    else
      OnLine(events[..|events| - 1], li) + if events[|events| - 1].line == li then [events[|events| - 1]] else []
  }

  lemma OnLineGrows(events: seq<Event>, more: seq<Event>, li: nat)
    requires |more| <= 1
    ensures OnLine(events + more, li) == OnLine(events, li) + if more != [] && more[0].line == li then more else []
  {
    if more != [] {
      assert (events + more)[..|events|] == events;
    } else {
      assert events + more == events;
    }
  }

  class Analyzer {
    var cfg: Config
    var lst: seq<LineState>

    ghost predicate Valid()
      reads this
    {
      |lst| == |cfg.lines| && forall li | 0 <= li < |cfg.lines| :: Usable(cfg, cfg.lines[li])
    }

    constructor (hypot: (real, real) -> real)
      ensures Valid() && lst == []
    {
      cfg := Config.Config([], 0.0, 0.05, 0.02, 1.5, 0.05, 3, [], hypot);
      lst := [];
    }

    /** A degenerate line refuses the whole configuration. */
    method Configure(c: Config) returns (ok: bool)
      requires Valid()
      modifies this
      ensures Valid() && (ok <==> forall li | 0 <= li < |c.lines| :: Usable(c, c.lines[li]))
      ensures if ok then cfg == c && forall li | 0 <= li < |c.lines| :: lst[li] == LineState(map[], [])
              else cfg == old(cfg) && lst == old(lst)
    {
      var li := 0;
      while li < |c.lines|
        invariant li <= |c.lines| && forall k | 0 <= k < li :: Usable(c, c.lines[k])
      {
        if c.hypot(c.lines[li].x1 - c.lines[li].x0, c.lines[li].y1 - c.lines[li].y0) < 0.000000001 {
          assert !Usable(c, c.lines[li]);
          return false;
        }
        li := li + 1;
      }
      cfg := c;
      lst := seq(|c.lines|, _ => LineState(map[], []));
      ok := true;
    }

    /** step(): one track on one line. */
    method Step(li: nat, id: U32, px: real, py: real, now: real) returns (out: seq<Event>)
      requires Valid() && li < |lst|
      modifies this`lst
      ensures Valid() && lst == old(lst)[li := AfterFrame(cfg, cfg.lines[li], old(lst)[li], id, px, py, now).0]
      ensures var dir := AfterFrame(cfg, cfg.lines[li], old(lst)[li], id, px, py, now).1;
              out == if dir.Some? then [Event(li, id, dir.value, px, py)] else []
    {
      var ls := lst[li];
      var s := if id in ls.st then ls.st[id] else NEW;
      var lost := ls.lost;
      if s.age == 0 {
        var i := FindLost(lost, px, py, now);
        if i < |lost| {
          s := s.(counted := lost[i].counted, side := lost[i].side);
          lost := lost[..i] + lost[i + 1..];
        }
      }
      s := s.(age := T.Inc(s.age), lx := px, ly := py);
      var (s', dir) := Cross(cfg, s, SideOf(cfg, Distance(cfg, cfg.lines[li], px, py)),
                             Projection(cfg, cfg.lines[li], px, py), px, py);
      out := if dir.Some? then [Event(li, id, dir.value, px, py)] else [];
      lst := lst[li := LineState(ls.st[id := s'], lost)];
    }

    method FindLost(lost: seq<Lost>, px: real, py: real, now: real) returns (i: nat)
      ensures i == Match(cfg, lost, px, py, now)
    {
      i := 0;
      while i < |lost| && !Reborn(cfg, lost[i], px, py, now)
        invariant i <= |lost| && forall k | 0 <= k < i :: !Reborn(cfg, lost[k], px, py, now)
      {
        i := i + 1;
      }
    }

    /** on_frame(): every line sees the same calls, in track order, and its
        events are those of its own run. */
    method OnFrame(tracks: seq<T.Track>, now: real, toSource: Geometry) returns (out: seq<Event>)
      requires Valid()
      modifies this`lst
      ensures Valid()
      ensures forall li | 0 <= li < |lst| ::
                && lst[li] == LineRun(cfg, cfg.lines[li], old(lst)[li], FrameOps(cfg, tracks, now, toSource))
                && OnLine(out, li) == LineEvents(cfg, li, old(lst)[li], FrameOps(cfg, tracks, now, toSource))
    {
      out := [];
      var i := 0;
      while i < |tracks|
        invariant i <= |tracks| && Valid() && |lst| == |old(lst)|
        invariant forall li | 0 <= li < |lst| ::
                    Reached(cfg, li, old(lst)[li], FrameOps(cfg, tracks[..i], now, toSource), lst[li], OnLine(out, li))
      {
        var tr := tracks[i];
        FrameOpsGrow(cfg, tracks, i, now, toSource);
        if ClassOk(cfg, tr.det.classId) {
          var (mx, my) := AnchorOf(tr, now);
          var (px, py) := toSource(mx, my);
          out := StepLines(tr.id, px, py, now, out, old(lst), FrameOps(cfg, tracks[..i], now, toSource));
        }
        i := i + 1;
      }
      assert tracks[..i] == tracks;
    }

    method StepLines(id: U32, px: real, py: real, now: real, given: seq<Event>, ghost start: seq<LineState>,
        ghost ops: seq<Op>)
        returns (out: seq<Event>)
      requires Valid() && |start| == |lst|
      requires forall li | 0 <= li < |lst| :: Reached(cfg, li, start[li], ops, lst[li], OnLine(given, li))
      modifies this`lst
      ensures Valid() && |lst| == |start|
      ensures forall li | 0 <= li < |lst| ::
                Reached(cfg, li, start[li], ops + [Frame(id, px, py, now)], lst[li], OnLine(out, li))
    {
      out := given;
      ghost var done := ops + [Frame(id, px, py, now)];
      var li := 0;
      while li < |cfg.lines|
        invariant li <= |cfg.lines| && Valid() && |lst| == |start|
        invariant forall k | 0 <= k < li :: Reached(cfg, k, start[k], done, lst[k], OnLine(out, k))
        invariant forall k | li <= k < |lst| :: Reached(cfg, k, start[k], ops, lst[k], OnLine(out, k))
      {
        ghost var was := lst;
        var more := Step(li, id, px, py, now);
        LinesStep(cfg, start, ops, was, lst, out, more, li, Frame(id, px, py, now));
        out := out + more;
        li := li + 1;
      }
    }

    method OnTrackRemoved(id: U32, t: real)
      requires Valid()
      modifies this`lst
      ensures Valid() && forall li | 0 <= li < |lst| :: lst[li] == AfterRemoved(cfg, old(lst)[li], id, t)
    {
      var li := 0;
      while li < |cfg.lines|
        invariant li <= |cfg.lines| && Valid() && |lst| == |old(lst)|
        invariant forall k | 0 <= k < li :: lst[k] == AfterRemoved(cfg, old(lst)[k], id, t)
        invariant forall k | li <= k < |lst| :: lst[k] == old(lst)[k]
      {
        var ls := lst[li];
        if id in ls.st {
          var s := ls.st[id];
          var lost := ls.lost;
          if s.counted != 0 {
            lost := lost + [Lost(t, s.lx, s.ly, s.counted, s.side)];
          }
          lost := Prune(lost, t);
          lst := lst[li := LineState(ls.st - {id}, lost)];
        }
        li := li + 1;
      }
    }

    method Prune(given: seq<Lost>, t: real) returns (lost: seq<Lost>)
      ensures lost == Pruned(cfg, given, t)
    {
      lost := given;
      while lost != [] && t - lost[0].t > cfg.rebornWindow
        invariant Pruned(cfg, lost, t) == Pruned(cfg, given, t)
        decreases |lost|
      {
        lost := lost[1..];
      }
    }
  }

  /** Line li after the calls ops, with its events so far. */
  ghost predicate Reached(cfg: Config, li: nat, start: LineState, ops: seq<Op>, ls: LineState, events: seq<Event>) {
    li < |cfg.lines| && Usable(cfg, cfg.lines[li]) &&
    ls == LineRun(cfg, cfg.lines[li], start, ops) && events == LineEvents(cfg, li, start, ops)
  }

  /** The loop over the lines at line li: those before it have seen op. */
  lemma LinesStep(cfg: Config, start: seq<LineState>, ops: seq<Op>, was: seq<LineState>, lst: seq<LineState>,
                  out: seq<Event>, more: seq<Event>, li: nat, op: Op)
    requires li < |was| == |start| == |cfg.lines| && op.Frame? && Usable(cfg, cfg.lines[li])
    requires lst == was[li := AfterFrame(cfg, cfg.lines[li], was[li], op.id, op.x, op.y, op.now).0]
    requires var dir := AfterFrame(cfg, cfg.lines[li], was[li], op.id, op.x, op.y, op.now).1;
             more == if dir.Some? then [Event(li, op.id, dir.value, op.x, op.y)] else []
    requires forall k | 0 <= k < li :: Reached(cfg, k, start[k], ops + [op], was[k], OnLine(out, k))
    requires forall k | li <= k < |was| :: Reached(cfg, k, start[k], ops, was[k], OnLine(out, k))
    ensures forall k | 0 <= k <= li :: Reached(cfg, k, start[k], ops + [op], lst[k], OnLine(out + more, k))
    ensures forall k | li < k < |lst| :: Reached(cfg, k, start[k], ops, lst[k], OnLine(out + more, k))
  {
    SeenStep(cfg, li, start[li], ops, was[li], OnLine(out, li), op.id, op.x, op.y, op.now);
    OnLineGrows(out, more, li);
    forall k | 0 <= k < |lst| && k != li
      ensures lst[k] == was[k] && OnLine(out + more, k) == OnLine(out, k)
    {
      OnLineGrows(out, more, k);
    }
  }

  lemma SeenStep(cfg: Config, li: nat, start: LineState, ops: seq<Op>, ls: LineState, events: seq<Event>,
                 id: U32, px: real, py: real, now: real)
    requires Reached(cfg, li, start, ops, ls, events)
    ensures var (ls', dir) := AfterFrame(cfg, cfg.lines[li], ls, id, px, py, now);
            Reached(cfg, li, start, ops + [Frame(id, px, py, now)], ls',
                 events + if dir.Some? then [Event(li, id, dir.value, px, py)] else [])
  {
    var op := Frame(id, px, py, now);
    assert (ops + [op])[..|ops|] == ops && (ops + [op])[|ops|] == op;
  }
}
