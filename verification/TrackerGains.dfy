/** What the tracker's measures mean: the overlap of two boxes told from the
    points inside them, where a coasting track is looked for, how fast a track
    is taken to move, and what follows for a detection that is where its track
    is expected. */
module TrackerGains {
  import opened Wrappers
  import opened Bytes
  import opened GreedyMatching
  import opened Trackers
  import opened TrackerRuns

  // ---- Overlap ----

  ghost predicate Between(l: real, r: real, x: real) {
    l < x < r
  }

  /** The point lies in the interior of the box. */
  ghost predicate Inside(d: Det, x: real, y: real) {
    Between(d.cx - d.w / 2.0, d.cx + d.w / 2.0, x) && Between(d.cy - d.h / 2.0, d.cy + d.h / 2.0, y)
  }

  ghost predicate Proper(d: Det) {
    d.w > 0.0 && d.h > 0.0
  }

  lemma MulMonotone(a: real, b: real, c: real, d: real)
    requires 0.0 <= a <= c && 0.0 <= b <= d
    ensures 0.0 <= a * b <= c * d
    ensures c > 0.0 && d > 0.0 && a * b == c * d ==> a == c && b == d
  {
    var x, y := a * (d - b), (c - a) * d;
    assert x >= 0.0 && x == a * d - a * b;
    assert y >= 0.0 && y == c * d - a * d;
    if c > 0.0 && d > 0.0 && a * b == c * d {
      assert (c - a) * d == 0.0;
      assert a * (d - b) == 0.0;
    }
  }

  /** The sides of the common part. */
  lemma Sides(a: Det, b: Det) returns (iw: real, ih: real)
    requires Proper(a) && Proper(b)
    ensures iw == Shared(Left(a), Right(a), Left(b), Right(b)) && ih == Shared(Top(a), Bottom(a), Top(b), Bottom(b))
    ensures 0.0 <= iw <= a.w && iw <= b.w && 0.0 <= ih <= a.h && ih <= b.h
  {
    iw := Shared(Left(a), Right(a), Left(b), Right(b));
    ih := Shared(Top(a), Bottom(a), Top(b), Bottom(b));
  }

  lemma PartOf(a: Det, iw: real, ih: real)
    requires Proper(a) && 0.0 <= iw <= a.w && 0.0 <= ih <= a.h
    ensures 0.0 <= iw * ih <= Area(a) && Area(a) > 0.0
  {
    MulMonotone(iw, ih, a.w, a.h);
    AreaPositive(a);
  }

  lemma OverlapBounds(a: Det, b: Det)
    requires Proper(a) && Proper(b)
    ensures 0.0 <= Overlap(a, b) <= Area(a) && Overlap(a, b) <= Area(b)
    ensures Area(a) > 0.0 && Area(b) > 0.0
  {
    var iw, ih := Sides(a, b);
    PartOf(a, iw, ih);
    PartOf(b, iw, ih);
  }

  lemma AreaPositive(a: Det)
    requires Proper(a)
    ensures Area(a) > 0.0
  {
  }

  lemma ShareOf(x: real, y: real)
    requires 0.0 <= x && 0.0 < y
    ensures Share(x, y) * y == x && 0.0 <= Share(x, y)
    ensures Share(x, y) == 0.0 <==> x == 0.0
    ensures (Share(x, y) <= 1.0 <==> x <= y) && (Share(x, y) == 1.0 <==> x == y)
  {
    var q := x / y;
    assert q * y == x;
    if q > 1.0 {
      assert (q - 1.0) * y > 0.0;
    } else {
      assert (1.0 - q) * y >= 0.0;
      assert q < 1.0 ==> (1.0 - q) * y > 0.0;
    }
  }

  lemma IouShare(a: Det, b: Det)
    requires Proper(a) && Proper(b)
    ensures Iou(a, b) * (Area(a) + Area(b) - Overlap(a, b)) == Overlap(a, b) && 0.0 <= Iou(a, b) <= 1.0
    ensures Iou(a, b) == 0.0 <==> Overlap(a, b) == 0.0
    ensures Iou(a, b) == 1.0 <==> Overlap(a, b) == Area(a) == Area(b)
  {
    OverlapBounds(a, b);
    ShareOf(Overlap(a, b), Area(a) + Area(b) - Overlap(a, b));
  }

  /** An interval made of the points common to two others has their inner ends. */
  lemma CommonEnds(l: real, r: real, l1: real, r1: real, l2: real, r2: real)
    requires l < r && l1 < r1 && l2 < r2
    requires forall x :: Between(l, r, x) <==> Between(l1, r1, x) && Between(l2, r2, x)
    ensures l == Max(l1, l2) && r == Min(r1, r2)
  {
    var lo, hi, mid := Max(l1, l2), Min(r1, r2), (l + r) / 2.0;
    assert Between(l, r, mid);
    if l < lo {
      assert Between(l, r, (l + Min(lo, r)) / 2.0);
    } else if l > lo {
      assert Between(l1, r1, (lo + l) / 2.0) && Between(l2, r2, (lo + l) / 2.0);
    }
    if r > hi {
      assert Between(l, r, (r + Max(hi, l)) / 2.0);
    } else if r < hi {
      assert Between(l1, r1, (r + hi) / 2.0) && Between(l2, r2, (r + hi) / 2.0);
    }
  }

  /** The box o holds exactly the points common to a and b. */
  ghost predicate Common(a: Det, b: Det, o: Det) {
    forall x, y :: Inside(o, x, y) <==> Inside(a, x, y) && Inside(b, x, y)
  }

  lemma CommonSides(a: Det, b: Det, o: Det)
    requires Proper(a) && Proper(b) && Proper(o) && Common(a, b, o)
    ensures o.w == Shared(Left(a), Right(a), Left(b), Right(b))
    ensures o.h == Shared(Top(a), Bottom(a), Top(b), Bottom(b))
  {
    assert Inside(o, o.cx, o.cy);
    assert Inside(a, o.cx, o.cy) && Inside(b, o.cx, o.cy);
    forall x
      ensures Between(Left(o), Right(o), x) <==> Between(Left(a), Right(a), x) && Between(Left(b), Right(b), x)
    {
      assert Inside(o, x, o.cy) <==> Inside(a, x, o.cy) && Inside(b, x, o.cy);
    }
    forall y
      ensures Between(Top(o), Bottom(o), y) <==> Between(Top(a), Bottom(a), y) && Between(Top(b), Bottom(b), y)
    {
      assert Inside(o, o.cx, y) <==> Inside(a, o.cx, y) && Inside(b, o.cx, y);
    }
    CommonEnds(Left(o), Right(o), Left(a), Right(a), Left(b), Right(b));
    CommonEnds(Top(o), Bottom(o), Top(a), Bottom(a), Top(b), Bottom(b));
  }

  /** The overlap is the area of the common points over the area of the points
      of either box. */
  lemma IouIsShare(a: Det, b: Det, o: Det)
    requires Proper(a) && Proper(b) && Proper(o) && Common(a, b, o)
    ensures Iou(a, b) * (Area(a) + Area(b) - Area(o)) == Area(o)
  {
    CommonSides(a, b, o);
    assert Overlap(a, b) == Area(o);
    IouShare(a, b);
  }

  /** The overlap is 0 exactly when the boxes have no inner point in common. */
  lemma IouZeroIff(a: Det, b: Det)
    requires Proper(a) && Proper(b)
    ensures Iou(a, b) == 0.0 <==> forall x, y :: !(Inside(a, x, y) && Inside(b, x, y))
  {
    var iw, ih := Sides(a, b);
    IouShare(a, b);
    if iw > 0.0 && ih > 0.0 {
      var x := (Max(Left(a), Left(b)) + Min(Right(a), Right(b))) / 2.0;
      var y := (Max(Top(a), Top(b)) + Min(Bottom(a), Bottom(b))) / 2.0;
      assert Inside(a, x, y) && Inside(b, x, y);
      assert iw * ih > 0.0;
    } else {
      assert iw * ih == 0.0;
    }
  }

  ghost predicate SameBox(a: Det, b: Det) {
    a.cx == b.cx && a.cy == b.cy && a.w == b.w && a.h == b.h
  }

  lemma SharedWhole(l1: real, r1: real, l2: real, r2: real)
    requires l1 < r1 && l2 < r2 && Shared(l1, r1, l2, r2) == r1 - l1 == r2 - l2
    ensures l1 == l2 && r1 == r2
  {
  }

  /** Between 0 and 1, the same both ways, and 1 exactly for one and the same
      box. */
  lemma IouRange(a: Det, b: Det)
    requires Proper(a) && Proper(b)
    ensures 0.0 <= Iou(a, b) <= 1.0 && Iou(a, b) == Iou(b, a)
    ensures Iou(a, b) == 1.0 <==> SameBox(a, b)
  {
    IouShare(a, b);
    OverlapSymmetric(a, b);
    if SameBox(a, b) {
      var iw, ih := Sides(a, b);
      assert iw == a.w && ih == a.h;
    }
    if Iou(a, b) == 1.0 {
      WholeOverlap(a, b);
    }
  }

  lemma OverlapSymmetric(a: Det, b: Det)
    ensures Overlap(a, b) == Overlap(b, a)
  {
    var iw, ih := Shared(Left(a), Right(a), Left(b), Right(b)), Shared(Top(a), Bottom(a), Top(b), Bottom(b));
    assert Shared(Left(b), Right(b), Left(a), Right(a)) == iw && Shared(Top(b), Bottom(b), Top(a), Bottom(a)) == ih;
  }

  lemma WholeSides(a: Det, b: Det, iw: real, ih: real)
    requires Proper(a) && Proper(b) && 0.0 <= iw <= a.w && iw <= b.w && 0.0 <= ih <= a.h && ih <= b.h
    requires iw * ih == Area(a) == Area(b)
    ensures iw == a.w == b.w && ih == a.h == b.h
  {
    MulMonotone(iw, ih, a.w, a.h);
    MulMonotone(iw, ih, b.w, b.h);
  }

  lemma WholeOverlap(a: Det, b: Det)
    requires Proper(a) && Proper(b) && Overlap(a, b) == Area(a) == Area(b)
    ensures SameBox(a, b)
  {
    var iw, ih := Sides(a, b);
    WholeSides(a, b, iw, ih);
    SharedWhole(Left(a), Right(a), Left(b), Right(b));
    SharedWhole(Top(a), Bottom(a), Top(b), Bottom(b));
  }

  /** A box inside another overlaps it by its share of the area. */
  lemma IouInside(a: Det, b: Det)
    requires Proper(a) && Proper(b)
    requires Left(a) <= Left(b) && Right(b) <= Right(a) && Top(a) <= Top(b) && Bottom(b) <= Bottom(a)
    ensures Iou(a, b) * Area(a) == Area(b)
  {
    var iw, ih := Sides(a, b);
    assert iw == b.w && ih == b.h;
    IouShare(a, b);
  }

  /** A box without area overlaps nothing. */
  lemma IouImproper(a: Det, b: Det)
    requires !Proper(b)
    ensures Iou(a, b) == 0.0
  {
    if b.w <= 0.0 {
      assert Shared(Left(a), Right(a), Left(b), Right(b)) == 0.0;
    } else {
      assert Shared(Top(a), Bottom(a), Top(b), Bottom(b)) == 0.0;
    }
    assert Overlap(a, b) == 0.0;
  }

  // ---- Where a track is looked for ----

  /** At rest or just seen: at its box. Coasting: at its box moved by its
      velocity for the time since it was seen. */
  lemma LookedForAt(cfg: Config, tr: Track, t: real)
    ensures var p := Predicted(cfg, tr, t);
            && p.w == tr.det.w && p.h == tr.det.h
            && (tr.misses == 0 || cfg.hypot(tr.vx, tr.vy) <= 1.0 / 640.0 || t == tr.lastSeen ==> SameBox(p, tr.det))
    ensures forall u :: tr.misses > 0 && cfg.hypot(tr.vx, tr.vy) > 1.0 / 640.0 ==>
              var p, q := Predicted(cfg, tr, t), Predicted(cfg, tr, u);
              q.cx - p.cx == tr.vx * (u - t) && q.cy - p.cy == tr.vy * (u - t)
  {
    if t == tr.lastSeen {
      assert tr.vx * (t - tr.lastSeen) == 0.0 && tr.vy * (t - tr.lastSeen) == 0.0;
    }
    forall u | tr.misses > 0 && cfg.hypot(tr.vx, tr.vy) > 1.0 / 640.0
      ensures var p, q := Predicted(cfg, tr, t), Predicted(cfg, tr, u);
              q.cx - p.cx == tr.vx * (u - t) && q.cy - p.cy == tr.vy * (u - t)
    {
      MoveOn(tr.vx, tr.lastSeen, t, u);
      MoveOn(tr.vy, tr.lastSeen, t, u);
    }
  }

  lemma MoveOn(v: real, from: real, t: real, u: real)
    ensures v * (u - from) - v * (t - from) == v * (u - t)
  {
  }

  ghost predicate ClassesAgree(cfg: Config, tr: Track, d: Det) {
    cfg.classAware ==> tr.det.classId == d.classId
  }

  /** Whatever the pass, a class-aware tracker matches within classes. */
  lemma ClassesKept(cfg: Config, ts: seq<Track>, dets: seq<Det>, t: real, i: nat)
    requires i < |ts|
    ensures var b := Matching(cfg, ts, dets, t).of[i];
            b >= 0 ==> ClassesAgree(cfg, ts[i], dets[b])
  {
    MatchesAllowed(cfg, ts, dets, t, i);
  }

  /** A detection on the very box where a track is looked for is lost only to a
      track served before, or to a detection on the same box. */
  lemma FoundWhereLookedFor(cfg: Config, ts: seq<Track>, dets: seq<Det>, t: real, i: nat, d: nat)
    requires i < |ts| && d < |dets| && ClassesAgree(cfg, ts[i], dets[d]) && cfg.iouThreshold < 1.0
    requires Proper(dets[d]) && SameBox(dets[d], Predicted(cfg, ts[i], t))
    ensures var of := FirstPass(cfg, ts, dets, t).of;
            || (of[i] >= 0 && SameBox(dets[of[i]], dets[d]))
            || exists j: nat :: j < |ts| && of[j] == d && Before(ts, j, i)
  {
    var p, b := Predicted(cfg, ts[i], t), FirstPass(cfg, ts, dets, t).of[i];
    IouRange(p, dets[d]);
    if b < 0 {
      var j := FirstPassStable(cfg, ts, dets, t, i, d);
    } else if Proper(dets[b]) {
      IouRange(p, dets[b]);
      if !SameBox(p, dets[b]) {
        var j := FirstPassStable(cfg, ts, dets, t, i, d);
      }
    } else {
      IouImproper(p, dets[b]);
      var j := FirstPassStable(cfg, ts, dets, t, i, d);
    }
  }

  /** A track alone takes a detection on the box where it is looked for, at
      every threshold below 1, and passes its id on. */
  lemma LoneTrackFound(cfg: Config, w: World, inp: Input, d: nat) returns (b: nat)
    requires |w.st.tracks| == 1 && d < |inp.dets| && ClassesAgree(cfg, w.st.tracks[0], inp.dets[d])
    requires cfg.iouThreshold < 1.0 && Proper(inp.dets[d])
    requires SameBox(inp.dets[d], Predicted(cfg, w.st.tracks[0], inp.t))
    ensures b < |inp.dets| && SameBox(inp.dets[b], inp.dets[d])
    ensures Matching(cfg, w.st.tracks, inp.dets, inp.t).of[0] == b
    ensures Labels(cfg, w, inp)[b].trackId == w.st.tracks[0].id
  {
    var ts := w.st.tracks;
    FoundWhereLookedFor(cfg, ts, inp.dets, inp.t, 0, d);
    MatchesAllowed(cfg, ts, inp.dets, inp.t, 0);
    b := FirstPass(cfg, ts, inp.dets, inp.t).of[0];
    LabelIs(cfg, w, inp, b);
  }

  /** Seen in the last frame: a detection on the same box keeps the id. */
  lemma StandingTrackKeepsId(cfg: Config, w: World, inp: Input, d: nat) returns (b: nat)
    requires |w.st.tracks| == 1 && d < |inp.dets| && ClassesAgree(cfg, w.st.tracks[0], inp.dets[d])
    requires cfg.iouThreshold < 1.0 && Proper(inp.dets[d])
    requires w.st.tracks[0].misses == 0 && SameBox(inp.dets[d], w.st.tracks[0].det)
    ensures b < |inp.dets| && SameBox(inp.dets[b], inp.dets[d])
    ensures Labels(cfg, w, inp)[b].trackId == w.st.tracks[0].id
  {
    LookedForAt(cfg, w.st.tracks[0], inp.t);
    b := LoneTrackFound(cfg, w, inp, d);
  }

  /** Lost while on the move: a detection of its size that is where it would
      have got to keeps the id. */
  lemma MovingTrackKeepsId(cfg: Config, w: World, inp: Input, d: nat) returns (b: nat)
    requires |w.st.tracks| == 1 && d < |inp.dets| && ClassesAgree(cfg, w.st.tracks[0], inp.dets[d])
    requires cfg.iouThreshold < 1.0 && Proper(inp.dets[d])
    requires var tr, e := w.st.tracks[0], inp.dets[d];
             && tr.misses > 0 && cfg.hypot(tr.vx, tr.vy) > 1.0 / 640.0 && e.w == tr.det.w && e.h == tr.det.h
             && e.cx - tr.det.cx == tr.vx * (inp.t - tr.lastSeen) && e.cy - tr.det.cy == tr.vy * (inp.t - tr.lastSeen)
    ensures b < |inp.dets| && SameBox(inp.dets[b], inp.dets[d])
    ensures Labels(cfg, w, inp)[b].trackId == w.st.tracks[0].id
  {
    LookedForAt(cfg, w.st.tracks[0], w.st.tracks[0].lastSeen);
    b := LoneTrackFound(cfg, w, inp, d);
  }

  /** Pass 2's distance is that of the boxes' centres, or of the middles of
      their lower edges: 0 exactly when these fall together. */
  lemma AnchorsMeetIff(cfg: Config, tr: Track, d: Det, t: real)
    requires forall x, y :: cfg.hypot(x, y) == 0.0 <==> x == 0.0 && y == 0.0
    ensures var p := Predicted(cfg, tr, t);
            AnchorDistance(cfg, tr, d, t) == 0.0 <==>
            d.cx == p.cx && if cfg.anchor.Center? then d.cy == p.cy else d.cy + d.h / 2.0 == p.cy + p.h / 2.0
  {
  }

  // ---- How fast a track is taken to move ----

  /** A track that goes on as before keeps its velocity. */
  lemma SteadyVelocity(cfg: Config, tr: Track, d: Det, dt: real)
    requires dt > 0.001 && cfg.hypot(tr.vx, tr.vy) >= 3.0 / 640.0
    requires d.cx - tr.det.cx == tr.vx * dt && d.cy - tr.det.cy == tr.vy * dt
    ensures Velocity(cfg, tr, d, dt) == (tr.vx, tr.vy)
  {
    VelocityMovesOn(cfg, tr, d, dt, tr.vx, tr.vy);
  }

  lemma Divided(v: real, dt: real)
    requires dt > 0.001
    ensures v * dt / dt == v
  {
  }

  /** The share of the difference to the measured velocity that is kept. */
  function KeptShare(prev: real, inst: real): real {
    if (prev > 10.0 / 640.0 && inst < prev / 2.0) || (prev < 5.0 / 640.0 && inst > 50.0 / 640.0) then 0.4 else 0.92
  }

  /** The velocity moves towards the measured one: by 60% on a sudden stop or
      start, by 8% otherwise; a speed below 3 pixels a second is none. */
  lemma VelocityMovesOn(cfg: Config, tr: Track, d: Det, dt: real, ivx: real, ivy: real)
    requires d.cx - tr.det.cx == ivx * dt && d.cy - tr.det.cy == ivy * dt
    ensures var v, inst := Velocity(cfg, tr, d, dt), cfg.hypot(ivx, ivy);
            var keep := KeptShare(cfg.hypot(tr.vx, tr.vy), inst);
            if dt <= 0.001 then v == (tr.vx, tr.vy)
            else if inst < 3.0 / 640.0 then v == (0.0, 0.0)
            else v.0 - ivx == keep * (tr.vx - ivx) && v.1 - ivy == keep * (tr.vy - ivy)
  {
    if dt > 0.001 {
      Divided(ivx, dt);
      Divided(ivy, dt);
      var prev, inst := cfg.hypot(tr.vx, tr.vy), cfg.hypot(ivx, ivy);
      if prev > 0.0 {
        HalfOf(prev, inst);
      }
    }
  }

  lemma HalfOf(prev: real, inst: real)
    requires prev > 0.0
    ensures (prev - inst) / prev > 0.5 <==> inst < prev / 2.0
  {
    OverHalf((prev - inst) / prev, prev);
    assert (prev - inst) / prev * prev == prev - inst;
  }

  lemma OverHalf(q: real, y: real)
    requires y > 0.0
    ensures q > 0.5 <==> q * y > 0.5 * y
  {
    if q > 0.5 {
      assert (q - 0.5) * y > 0.0;
    } else {
      assert (0.5 - q) * y >= 0.0;
    }
  }

  // ---- One update ----

  ghost predicate CarriesKpts(tr: Track, d: Det, kpts: seq<Kpt>) {
    tr.kpts == if d.kptCount == 0 || d.kptOffset + d.kptCount > |kpts| then []
               else kpts[d.kptOffset..][..d.kptCount]
  }

  /** tr' is tr after it was seen as d, dt after the update before. */
  ghost predicate TookOver(cfg: Config, tr: Track, tr': Track, d: Det, kpts: seq<Kpt>, t: real, dt: real) {
    && (tr'.vx, tr'.vy) == Velocity(cfg, tr, d, dt)
    && tr'.id == tr.id && tr'.det == d && tr'.firstSeen == tr.firstSeen && tr'.lastSeen == t
    && tr'.misses == 0 && tr'.hits == (if tr.hits == LAST_ID then 0 else tr.hits + 1) && CarriesKpts(tr', d, kpts)
  }

  /** An unmatched track may be kept: neither limit is passed. */
  ghost predicate MayStay(cfg: Config, tr: Track, t: real) {
    && Signed(if tr.misses == LAST_ID then 0 else tr.misses + 1) <= cfg.maxMisses
    && (cfg.maxLost > 0.0 ==> t - tr.lastSeen <= cfg.maxLost)
  }

  /** tr' began with the detection d. */
  ghost predicate BeganWith(tr': Track, d: Det, kpts: seq<Kpt>, t: real) {
    && tr'.det == d && tr'.firstSeen == t == tr'.lastSeen && tr'.vx == 0.0 == tr'.vy
    && tr'.misses == 0 && tr'.hits == 1 && CarriesKpts(tr', d, kpts)
  }

  lemma {:induction false} RefreshedAt(cfg: Config, ts: seq<Track>, of: seq<int>, dets: seq<Det>, kpts: seq<Kpt>,
                                       t: real, dt: real, n: nat, i: nat)
    requires n <= |of| == |ts| && i < |ts| && forall x | 0 <= x < |ts| :: of[x] < |dets|
    ensures Refreshed(cfg, ts, of, dets, kpts, t, dt, n)[i] ==
            if i < n && of[i] >= 0 then Seen(cfg, ts[i], dets[of[i]], kpts, t, dt) else ts[i]
  {
    if n > 0 {
      RefreshedAt(cfg, ts, of, dets, kpts, t, dt, n - 1, i);
    }
  }

  lemma {:induction false} SurviveCount(cfg: Config, ts: seq<Track>, of: seq<int>, t: real)
    requires |of| == |ts|
    ensures |Survive(cfg, ts, of, t).0| + |Survive(cfg, ts, of, t).1| == |ts|
    decreases |ts|
  {
    if ts != [] {
      SurviveCount(cfg, ts[1..], of[1..], t);
    }
  }

  lemma {:induction false} BornOf(dets: seq<Det>, used: seq<bool>, next: U32, kpts: seq<Kpt>, t: real, n: nat,
                                  d: nat)
    requires d < n <= |dets| == |used| && !used[d]
    ensures Newborn(dets[d], IdAfter(next, Free(used, d)), kpts, t) in Births(dets, used, next, kpts, t, n)
  {
    if d < n - 1 {
      BornOf(dets, used, next, kpts, t, n - 1, d);
    }
  }

  lemma SeenTookOver(cfg: Config, tr: Track, d: Det, kpts: seq<Kpt>, t: real, dt: real)
    ensures TookOver(cfg, tr, Seen(cfg, tr, d, kpts, t, dt), d, kpts, t, dt)
  {
    KptsCarried(d, kpts);
  }

  lemma KptsCarried(d: Det, kpts: seq<Kpt>)
    ensures KptsOf(d, kpts) == if d.kptCount == 0 || d.kptOffset + d.kptCount > |kpts| then []
                               else kpts[d.kptOffset..][..d.kptCount]
  {
  }

  lemma ExpiredIff(cfg: Config, tr: Track, t: real)
    ensures Expired(cfg, Aged(tr), t) <==> !MayStay(cfg, tr, t)
    ensures Aged(tr) == tr.(misses := (tr.misses + 1) % 0x1_0000_0000)
  {
  }

  /** What becomes of track i in an update with the matching m: seen, kept with
      one more miss, or reported removed. */
  lemma TrackAfter(cfg: Config, st: State, m: Match, inp: Input, i: nat, tr: Track)
    requires |m.of| == |st.tracks| && |m.used| == |inp.dets| && i < |st.tracks|
    requires forall x | 0 <= x < |m.of| :: m.of[x] < |inp.dets|
    requires tr == if m.of[i] >= 0 then Seen(cfg, st.tracks[i], inp.dets[m.of[i]], inp.kpts, inp.t, Elapsed(st, inp.t))
                   else st.tracks[i].(misses := (st.tracks[i].misses + 1) % 0x1_0000_0000)
    ensures var (kept, left) := Kept(cfg, st, m, inp.dets, inp.kpts, inp.t);
            if m.of[i] >= 0 || MayStay(cfg, st.tracks[i], inp.t) then tr in kept else st.tracks[i].id in left
  {
    var dt := Elapsed(st, inp.t);
    RefreshedAt(cfg, st.tracks, m.of, inp.dets, inp.kpts, inp.t, dt, |m.of|, i);
    SurviveExact(cfg, Refreshed(cfg, st.tracks, m.of, inp.dets, inp.kpts, inp.t, dt, |m.of|), m.of, inp.t, i);
    ExpiredIff(cfg, st.tracks[i], inp.t);
  }

  /** w' is w after an update with the matching m: a matched track takes over
      its detection; an unmatched one is missed once more, or removed when that
      passes a limit; a detection left over begins a track; and there are no
      other tracks. */
  ghost predicate Updated(cfg: Config, w: World, m: Match, inp: Input, w': World)
    requires TrackerRuns.Fits(w, m, inp)
  {
    var dt := if w.st.lastT.Some? then inp.t - w.st.lastT.value else 0.0;
    && w.gone <= w'.gone && w'.st.lastT == Some(inp.t)
    && (forall i | 0 <= i < |w.st.tracks| && m.of[i] >= 0 ::
          exists tr :: tr in w'.st.tracks &&
            TookOver(cfg, w.st.tracks[i], tr, inp.dets[m.of[i]], inp.kpts, inp.t, dt))
    && (forall i | 0 <= i < |w.st.tracks| && m.of[i] < 0 ::
          var missed := w.st.tracks[i].(misses := (w.st.tracks[i].misses + 1) % 0x1_0000_0000);
          if MayStay(cfg, w.st.tracks[i], inp.t) then missed in w'.st.tracks
          else w.st.tracks[i].id in w'.gone[|w.gone|..])
    && (forall d | 0 <= d < |inp.dets| && !m.used[d] ::
          exists tr :: tr in w'.st.tracks && BeganWith(tr, inp.dets[d], inp.kpts, inp.t))
    && |w'.st.tracks| + |w'.gone| - |w.gone| == |w.st.tracks| + Free(m.used, |inp.dets|)
  }

  lemma UpdateExact(cfg: Config, w: World, inp: Input)
    ensures Updated(cfg, w, Matching(cfg, w.st.tracks, inp.dets, inp.t), inp, Step(cfg, w, inp))
  {
    UpdateWith(cfg, w, Matching(cfg, w.st.tracks, inp.dets, inp.t), inp);
  }

  lemma UpdateWith(cfg: Config, w: World, m: Match, inp: Input)
    requires TrackerRuns.Fits(w, m, inp)
    ensures Updated(cfg, w, m, inp, StepWith(cfg, w, m, inp))
  {
    var w' := StepWith(cfg, w, m, inp);
    var dt := if w.st.lastT.Some? then inp.t - w.st.lastT.value else 0.0;
    var (kept, left) := Kept(cfg, w.st, m, inp.dets, inp.kpts, inp.t);
    assert w'.gone[|w.gone|..] == left;
    forall i | 0 <= i < |w.st.tracks| && m.of[i] >= 0
      ensures exists tr :: tr in w'.st.tracks &&
                TookOver(cfg, w.st.tracks[i], tr, inp.dets[m.of[i]], inp.kpts, inp.t, dt)
    {
      var d := inp.dets[m.of[i]];
      SeenTookOver(cfg, w.st.tracks[i], d, inp.kpts, inp.t, dt);
      TrackAfter(cfg, w.st, m, inp, i, Seen(cfg, w.st.tracks[i], d, inp.kpts, inp.t, dt));
    }
    forall i | 0 <= i < |w.st.tracks| && m.of[i] < 0
      ensures var aged := w.st.tracks[i].(misses := (w.st.tracks[i].misses + 1) % 0x1_0000_0000);
              if MayStay(cfg, w.st.tracks[i], inp.t) then aged in w'.st.tracks else w.st.tracks[i].id in left
    {
      var aged := w.st.tracks[i].(misses := (w.st.tracks[i].misses + 1) % 0x1_0000_0000);
      TrackAfter(cfg, w.st, m, inp, i, aged);
    }
    forall d | 0 <= d < |inp.dets| && !m.used[d]
      ensures exists tr :: tr in w'.st.tracks && BeganWith(tr, inp.dets[d], inp.kpts, inp.t)
    {
      NewbornBegan(inp.dets[d], IdAfter(w.st.nextId, Free(m.used, d)), inp.kpts, inp.t);
      BornOf(inp.dets, m.used, w.st.nextId, inp.kpts, inp.t, |inp.dets|, d);
    }
    SurviveCount(cfg, Refreshed(cfg, w.st.tracks, m.of, inp.dets, inp.kpts, inp.t, Elapsed(w.st, inp.t), |m.of|),
                 m.of, inp.t);
  }

  lemma NewbornBegan(d: Det, id: U32, kpts: seq<Kpt>, t: real)
    ensures BeganWith(Newborn(d, id, kpts, t), d, kpts, t)
  {
    KptsCarried(d, kpts);
  }

  // ---- The alive list ----

  lemma {:induction false} AliveTimes(cfg: Config, ts: seq<Track>, tr: Track)
    ensures multiset(AliveOf(cfg, ts))[tr] == if Signed(tr.hits) >= cfg.minHits then multiset(ts)[tr] else 0
    decreases |ts|
  {
    if ts != [] {
      AliveTimes(cfg, ts[..|ts| - 1], tr);
      assert ts == ts[..|ts| - 1] + [ts[|ts| - 1]];
    }
  }

  lemma {:induction false} AliveAscends(cfg: Config, ts: seq<Track>)
    requires Ascending(Ids(ts))
    ensures Ascending(Ids(AliveOf(cfg, ts)))
    ensures forall x <- Ids(AliveOf(cfg, ts)) :: x in Ids(ts)
    decreases |ts|
  {
    if ts != [] {
      var front, last := ts[..|ts| - 1], ts[|ts| - 1];
      assert Ids(ts) == Ids(front) + [last.id];
      AliveAscends(cfg, front);
      assert Ids(AliveOf(cfg, front) + [last]) == Ids(AliveOf(cfg, front)) + [last.id];
      forall i | 0 <= i < |AliveOf(cfg, front)|
        ensures Ids(AliveOf(cfg, front))[i] < last.id
      {
        assert Ids(AliveOf(cfg, front))[i] in Ids(front);
      }
    }
  }

  /** The alive list holds exactly the tracks with enough hits, each as often
      and in the same order as the track list. */
  lemma AliveIff(cfg: Config, inputs: seq<Input>, tr: Track)
    requires inputs != []
    ensures var st := Run(cfg, inputs).st;
            multiset(st.alive)[tr] == if Signed(tr.hits) >= cfg.minHits then multiset(st.tracks)[tr] else 0
    ensures Run(cfg, inputs).issued <= LAST_ID ==> Ascending(Ids(Run(cfg, inputs).st.alive))
  {
    RunInv(cfg, inputs);
    var st := Run(cfg, inputs).st;
    AliveTimes(cfg, st.tracks, tr);
    if Run(cfg, inputs).issued <= LAST_ID {
      AliveAscends(cfg, st.tracks);
    }
  }
}
