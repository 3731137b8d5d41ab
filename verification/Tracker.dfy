/** The multi-object tracker (tracker.cpp). Coordinates and times are reals;
    `hypot` is the platform's distance function. */
module Trackers {
  import opened Wrappers
  import opened Bytes
  import opened GreedyMatching

  datatype Kpt = Kpt(x: real, y: real, conf: real)

  datatype Det = Det(cx: real, cy: real, w: real, h: real, score: real, classId: I32, trackId: U32,
                     kptOffset: nat, kptCount: nat)

  datatype Track = Track(id: U32, det: Det, kpts: seq<Kpt>, vx: real, vy: real, hits: U32, misses: U32,
                         firstSeen: real, lastSeen: real)

  datatype Anchor = Center | BottomCenter

  datatype Config = Config(iouThreshold: real, distThreshold: real, maxMisses: I32, maxLost: real, minHits: I32,
                           classAware: bool, anchor: Anchor, hypot: (real, real) -> real)

  function Inc(u: U32): U32 {
    (u + 1) % 0x1_0000_0000
  }

  // ---- Gains ----

  function Max(a: real, b: real): real { if a < b then b else a }

  function Min(a: real, b: real): real { if b < a then b else a }

  function Left(d: Det): real { d.cx - d.w / 2.0 }

  function Right(d: Det): real { d.cx + d.w / 2.0 }

  function Top(d: Det): real { d.cy - d.h / 2.0 }

  function Bottom(d: Det): real { d.cy + d.h / 2.0 }

  function Area(d: Det): real { d.w * d.h }

  /** The length two intervals share. */
  function Shared(l1: real, r1: real, l2: real, r2: real): real {
    Max(0.0, Min(r1, r2) - Max(l1, l2))
  }

  function Overlap(a: Det, b: Det): real {
    Shared(Left(a), Right(a), Left(b), Right(b)) * Shared(Top(a), Bottom(a), Top(b), Bottom(b))
  }

  function Share(part: real, whole: real): real {
    if whole > 0.0 then part / whole else 0.0
  }

  function Iou(a: Det, b: Det): real {
    Share(Overlap(a, b), Area(a) + Area(b) - Overlap(a, b))
  }

  /** A coasting track is looked for where its velocity takes it. */
  function Predicted(cfg: Config, tr: Track, t: real): Det {
    if tr.misses > 0 && cfg.hypot(tr.vx, tr.vy) > 1.0 / 640.0 then
      var dts := t - tr.lastSeen;
      tr.det.(cx := tr.det.cx + tr.vx * dts, cy := tr.det.cy + tr.vy * dts)
    else tr.det
  }

  predicate ClassOk(cfg: Config, a: Det, b: Det) {
    !cfg.classAware || a.classId == b.classId
  }

  function AnchorY(cfg: Config, d: Det): real {
    if cfg.anchor.BottomCenter? then d.cy + d.h / 2.0 else d.cy
  }

  /** Pass 1: the overlap with the predicted box. */
  function IouGain(cfg: Config, tr: Track, d: Det, t: real): Option<real> {
    if ClassOk(cfg, tr.det, d) then Some(Iou(Predicted(cfg, tr, t), d)) else None
  }

  /** Pass 2: the nearer the anchors, the larger the gain. */
  function NearGain(cfg: Config, tr: Track, d: Det, t: real): Option<real> {
    var p := Predicted(cfg, tr, t);
    if ClassOk(cfg, tr.det, d) then Some(-cfg.hypot(d.cx - p.cx, AnchorY(cfg, d) - AnchorY(cfg, p))) else None
  }

  function IouRows(cfg: Config, ts: seq<Track>, dets: seq<Det>, t: real): (rows: seq<Row>)
    ensures |rows| == |ts| && forall i | 0 <= i < |ts| :: |rows[i]| == |dets|
  {
    seq(|ts|, i requires 0 <= i < |ts| => seq(|dets|, d requires 0 <= d < |dets| => IouGain(cfg, ts[i], dets[d], t)))
  }

  function NearRows(cfg: Config, ts: seq<Track>, dets: seq<Det>, t: real): (rows: seq<Row>)
    ensures |rows| == |ts| && forall i | 0 <= i < |ts| :: |rows[i]| == |dets|
  {
    seq(|ts|, i requires 0 <= i < |ts| => seq(|dets|, d requires 0 <= d < |dets| => NearGain(cfg, ts[i], dets[d], t)))
  }

  // ---- The order of the passes ----

  function Insert(ts: seq<Track>, order: seq<nat>, i: nat): (r: seq<nat>)
    requires i < |ts| && forall q | 0 <= q < |order| :: order[q] < |ts|
    ensures |r| == |order| + 1 && forall q | 0 <= q < |r| :: r[q] < |ts|
  {
    if order == [] then [i]
    else
      var last := order[|order| - 1];
      if ts[last].hits >= ts[i].hits then order + [i] else Insert(ts, order[..|order| - 1], i) + [last]
  }

  /** std::stable_sort of the indices below n by descending hits. */
  function ByHits(ts: seq<Track>, n: nat): (order: seq<nat>)
    requires n <= |ts|
    ensures |order| == n && forall q | 0 <= q < n :: order[q] < |ts|
  {
    if n == 0 then [] else Insert(ts, ByHits(ts, n - 1), n - 1)
  }

  /** a comes before b: more hits, or the same and the smaller index. */
  predicate Before(ts: seq<Track>, a: nat, b: nat)
    requires a < |ts| && b < |ts|
  {
    ts[a].hits > ts[b].hits || (ts[a].hits == ts[b].hits && a < b)
  }

  ghost predicate Ordered(ts: seq<Track>, order: seq<nat>, n: nat) {
    && n <= |ts| && (forall q | 0 <= q < |order| :: order[q] < n)
    && forall p, q | 0 <= p < q < |order| :: Before(ts, order[p], order[q])
  }

  ghost predicate Adds(r: seq<nat>, s: seq<nat>, i: nat) {
    forall x: nat :: x in r <==> x in s || x == i
  }

  lemma {:induction false} InsertOrdered(ts: seq<Track>, order: seq<nat>, i: nat)
    requires Ordered(ts, order, i) && i < |ts|
    ensures Ordered(ts, Insert(ts, order, i), i + 1)
    ensures Adds(Insert(ts, order, i), order, i)
    decreases |order|
  {
    if order != [] {
      var front := order[..|order| - 1];
      if ts[order[|order| - 1]].hits < ts[i].hits {
        InsertOrdered(ts, front, i);
        InsertedFirst(ts, order, i);
      }
    }
  }

  lemma InsertedFirst(ts: seq<Track>, order: seq<nat>, i: nat)
    requires order != [] && Ordered(ts, order, i) && i < |ts| && ts[order[|order| - 1]].hits < ts[i].hits
    requires Ordered(ts, Insert(ts, order[..|order| - 1], i), i + 1)
    requires Adds(Insert(ts, order[..|order| - 1], i), order[..|order| - 1], i)
    ensures Ordered(ts, Insert(ts, order, i), i + 1)
    ensures Adds(Insert(ts, order, i), order, i)
  {
    var inner, last := Insert(ts, order[..|order| - 1], i), order[|order| - 1];
    var r := inner + [last];
    assert r == Insert(ts, order, i);
    forall p | 0 <= p < |inner|
      ensures Before(ts, inner[p], last)
    {
      assert inner[p] in inner;
    }
    assert order == order[..|order| - 1] + [last];
  }

  /** The order is a permutation of the indices, sorted by falling hits, and
      equal hits keep their order. */
  lemma {:induction false} ByHitsOrdered(ts: seq<Track>, n: nat)
    requires n <= |ts|
    ensures Ordered(ts, ByHits(ts, n), n)
    ensures forall x: nat :: x in ByHits(ts, n) <==> x < n
  {
    if n > 0 {
      ByHitsOrdered(ts, n - 1);
      InsertOrdered(ts, ByHits(ts, n - 1), n - 1);
    }
  }

  // ---- Matching ----

  /** The tracks pass 1 left, if lost for at most five frames, in its order. */
  function Fallback(ts: seq<Track>, order: seq<nat>, of: seq<int>): (r: seq<nat>)
    requires |of| == |ts| && forall q | 0 <= q < |order| :: order[q] < |ts|
    ensures forall q | 0 <= q < |r| :: r[q] < |ts|
  {
    if order == [] then []
    else
      var i := order[|order| - 1];
      Fallback(ts, order[..|order| - 1], of) + if of[i] == -1 && Signed(ts[i].misses) <= 5 then [i] else []
  }

  function NoMatch(tracks: nat, dets: nat): Match {
    Match(seq(tracks, _ => -1), seq(dets, _ => false))
  }

  function Pass1(rows: seq<Row>, ts: seq<Track>, k: nat, thr: real): (m: Match)
    requires Fit(rows, NoMatch(|ts|, k))
    ensures Fit(rows, m) && |m.used| == k
  {
    Greedy(rows, ByHits(ts, |ts|), thr, NoMatch(|ts|, k))
  }

  function Pass2(rows: seq<Row>, ts: seq<Track>, m1: Match, thr: real): (m: Match)
    requires Fit(rows, m1) && |rows| == |ts|
    ensures Fit(rows, m) && |m.used| == |m1.used|
  {
    Greedy(rows, Fallback(ts, ByHits(ts, |ts|), m1.of), thr, m1)
  }

  function FirstPass(cfg: Config, ts: seq<Track>, dets: seq<Det>, t: real): (m: Match)
    ensures |m.of| == |ts| && |m.used| == |dets| && forall i | 0 <= i < |ts| :: -1 <= m.of[i] < |dets|
  {
    Pass1(IouRows(cfg, ts, dets, t), ts, |dets|, cfg.iouThreshold)
  }

  function Matching(cfg: Config, ts: seq<Track>, dets: seq<Det>, t: real): (m: Match)
    ensures |m.of| == |ts| && |m.used| == |dets| && forall i | 0 <= i < |ts| :: -1 <= m.of[i] < |dets|
  {
    Pass2(NearRows(cfg, ts, dets, t), ts, FirstPass(cfg, ts, dets, t), -cfg.distThreshold)
  }

  // ---- After matching ----

  function KptsOf(d: Det, kpts: seq<Kpt>): seq<Kpt> {
    if d.kptCount > 0 && d.kptOffset + d.kptCount <= |kpts| then kpts[d.kptOffset..d.kptOffset + d.kptCount] else []
  }

  function Velocity(cfg: Config, tr: Track, d: Det, dt: real): (real, real) {
    if dt <= 0.001 then (tr.vx, tr.vy)
    else
      var ivx, ivy := (d.cx - tr.det.cx) / dt, (d.cy - tr.det.cy) / dt;
      var inst, prev := cfg.hypot(ivx, ivy), cfg.hypot(tr.vx, tr.vy);
      if inst < 3.0 / 640.0 then (0.0, 0.0)
      else
        var suddenStop := prev > 10.0 / 640.0 && (prev - inst) / prev > 0.5;
        var suddenStart := prev < 5.0 / 640.0 && inst > 50.0 / 640.0;
        var alpha := if suddenStop || suddenStart then 0.6 else 0.08;
        ((1.0 - alpha) * tr.vx + alpha * ivx, (1.0 - alpha) * tr.vy + alpha * ivy)
  }

  /** A matched track. */
  function Seen(cfg: Config, tr: Track, d: Det, kpts: seq<Kpt>, t: real, dt: real): Track {
    var (vx, vy) := Velocity(cfg, tr, d, dt);
    Track(tr.id, d, KptsOf(d, kpts), vx, vy, Inc(tr.hits), 0, tr.firstSeen, t)
  }

  /** The tracks after the first n of them took over their detections. */
  function Refreshed(cfg: Config, ts: seq<Track>, of: seq<int>, dets: seq<Det>, kpts: seq<Kpt>, t: real, dt: real,
      n: nat)
      : (r: seq<Track>)
    requires n <= |of| == |ts| && forall i | 0 <= i < |ts| :: of[i] < |dets|
    ensures |r| == |ts|
  {
    if n == 0 then ts
    else
      var r := Refreshed(cfg, ts, of, dets, kpts, t, dt, n - 1);
      if of[n - 1] >= 0 then r[n - 1 := Seen(cfg, r[n - 1], dets[of[n - 1]], kpts, t, dt)] else r
  }

  function Aged(tr: Track): Track {
    tr.(misses := Inc(tr.misses))
  }

  predicate Expired(cfg: Config, tr: Track, t: real) {
    Signed(tr.misses) > cfg.maxMisses || (cfg.maxLost > 0.0 && t - tr.lastSeen > cfg.maxLost)
  }

  /** The tracks that stay, and the ids of those that leave. */
  function Survive(cfg: Config, ts: seq<Track>, of: seq<int>, t: real): (seq<Track>, seq<U32>)
    requires |of| == |ts|
  {
    if ts == [] then ([], [])
    else
      var (rest, gone) := Survive(cfg, ts[1..], of[1..], t);
      if of[0] >= 0 then ([ts[0]] + rest, gone)
      else if Expired(cfg, Aged(ts[0]), t) then (rest, [ts[0].id] + gone)
      else ([Aged(ts[0])] + rest, gone)
  }

  /** Detections without a track below index n. */
  function Free(used: seq<bool>, n: nat): nat
    requires n <= |used|
  {
    if n == 0 then 0 else Free(used, n - 1) + if used[n - 1] then 0 else 1
  }

  function IdAfter(next: U32, k: nat): U32 {
    (next + k) % 0x1_0000_0000
  }

  function Newborn(d: Det, id: U32, kpts: seq<Kpt>, t: real): Track {
    Track(id, d, KptsOf(d, kpts), 0.0, 0.0, 1, 0, t, t)
  }

  function Births(dets: seq<Det>, used: seq<bool>, next: U32, kpts: seq<Kpt>, t: real, n: nat): (born: seq<Track>)
    requires n <= |dets| == |used|
    ensures |born| == Free(used, n)
  {
    if n == 0 then []
    else Births(dets, used, next, kpts, t, n - 1) +
         if used[n - 1] then [] else [Newborn(dets[n - 1], IdAfter(next, Free(used, n - 1)), kpts, t)]
  }

  /** dets[d].track_id = tr.track_id for the tracks below index n. */
  function MatchLabels(dets: seq<Det>, ts: seq<Track>, of: seq<int>, n: nat): (r: seq<Det>)
    requires n <= |ts| == |of| && forall i | 0 <= i < |of| :: of[i] < |dets|
    ensures |r| == |dets|
  {
    if n == 0 then dets
    else
      var r := MatchLabels(dets, ts, of, n - 1);
      if of[n - 1] >= 0 then r[of[n - 1] := r[of[n - 1]].(trackId := ts[n - 1].id)] else r
  }

  /** The new ids of the unused detections below index n. */
  function BirthLabels(dets: seq<Det>, used: seq<bool>, next: U32, n: nat): (r: seq<Det>)
    requires n <= |dets| == |used|
    ensures |r| == |dets|
  {
    if n == 0 then dets
    else
      var r := BirthLabels(dets, used, next, n - 1);
      if used[n - 1] then r else r[n - 1 := r[n - 1].(trackId := IdAfter(next, Free(used, n - 1)))]
  }

  function Labelled(ts: seq<Track>, dets: seq<Det>, m: Match, next: U32): (r: seq<Det>)
    requires |m.of| == |ts| && |m.used| == |dets| && forall i | 0 <= i < |ts| :: m.of[i] < |dets|
    ensures |r| == |dets|
  {
    BirthLabels(MatchLabels(dets, ts, m.of, |ts|), m.used, next, |dets|)
  }

  function AliveOf(cfg: Config, ts: seq<Track>): seq<Track> {
    if ts == [] then []
    else AliveOf(cfg, ts[..|ts| - 1]) + if Signed(ts[|ts| - 1].hits) >= cfg.minHits then [ts[|ts| - 1]] else []
  }

  datatype State = State(tracks: seq<Track>, alive: seq<Track>, nextId: U32, lastT: Option<real>)

  function Elapsed(st: State, t: real): real {
    if st.lastT.Some? then t - st.lastT.value else 0.0
  }

  /** The tracks kept and the ids removed under the matching m. */
  function Kept(cfg: Config, st: State, m: Match, dets: seq<Det>, kpts: seq<Kpt>, t: real): (seq<Track>, seq<U32>)
    requires |m.of| == |st.tracks| && forall i | 0 <= i < |m.of| :: m.of[i] < |dets|
  {
    Survive(cfg, Refreshed(cfg, st.tracks, m.of, dets, kpts, t, Elapsed(st, t), |m.of|), m.of, t)
  }

  function After(cfg: Config, st: State, m: Match, dets: seq<Det>, kpts: seq<Kpt>, t: real): State
    requires |m.of| == |st.tracks| && |m.used| == |dets| && forall i | 0 <= i < |m.of| :: m.of[i] < |dets|
  {
    var tracks := Kept(cfg, st, m, dets, kpts, t).0 + Births(dets, m.used, st.nextId, kpts, t, |dets|);
    State(tracks, AliveOf(cfg, tracks), IdAfter(st.nextId, Free(m.used, |dets|)), Some(t))
  }

  class Tracker {
    const cfg: Config
    var tracks: seq<Track>
    var alive: seq<Track>
    var nextId: U32
    var lastT: Option<real>  // last_t_ and has_t_

    ghost function View(): State
      reads this
    {
      State(tracks, alive, nextId, lastT)
    }

    constructor (cfg: Config)
      ensures this.cfg == cfg && View() == State([], [], 1, None)
    {
      this.cfg := cfg;
      tracks, alive, nextId, lastT := [], [], 1, None;
    }

    method Reset()
      modifies this
      ensures View() == State([], [], 1, None)
    {
      tracks, alive, nextId, lastT := [], [], 1, None;
    }

    method Update(dets: seq<Det>, kpts: seq<Kpt>, t: real) returns (dets': seq<Det>, removed: seq<U32>)
      modifies this
      ensures var m := Matching(cfg, old(tracks), dets, t);
              && View() == After(cfg, old(View()), m, dets, kpts, t)
              && removed == Kept(cfg, old(View()), m, dets, kpts, t).1
              && dets' == Labelled(old(tracks), dets, m, old(nextId))
    {
      var m := RunMatching(dets, t);
      dets', removed := Apply(m, dets, kpts, t);
    }

    method Apply(m: Match, dets: seq<Det>, kpts: seq<Kpt>, t: real) returns (dets': seq<Det>, removed: seq<U32>)
      requires |m.of| == |tracks| && |m.used| == |dets| && forall i | 0 <= i < |m.of| :: m.of[i] < |dets|
      modifies this
      ensures View() == After(cfg, old(View()), m, dets, kpts, t)
      ensures removed == Kept(cfg, old(View()), m, dets, kpts, t).1
      ensures dets' == Labelled(old(tracks), dets, m, old(nextId))
    {
      var dt := if lastT.Some? then t - lastT.value else 0.0;
      lastT := Some(t);
      dets' := Refresh(m.of, dets, kpts, t, dt);
      removed := AgeAndErase(m.of, t);
      dets' := AddBirths(m.used, dets, dets', kpts, t);
      FilterAlive();
    }

    method RunMatching(dets: seq<Det>, t: real) returns (m: Match)
      ensures m == Matching(cfg, tracks, dets, t)
    {
      m := RunIouPass(dets, t);
      m := RunDistancePass(dets, t, m);
    }

    method RunIouPass(dets: seq<Det>, t: real) returns (m: Match)
      ensures m == FirstPass(cfg, tracks, dets, t)
    {
      m := RunPass(IouRows(cfg, tracks, dets, t), ByHits(tracks, |tracks|), cfg.iouThreshold,
          NoMatch(|tracks|, |dets|));
    }

    method RunDistancePass(dets: seq<Det>, t: real, m1: Match) returns (m: Match)
      requires Fit(NearRows(cfg, tracks, dets, t), m1)
      ensures m == Pass2(NearRows(cfg, tracks, dets, t), tracks, m1, -cfg.distThreshold)
    {
      var unmatched := Fallback(tracks, ByHits(tracks, |tracks|), m1.of);
      m := RunPass(NearRows(cfg, tracks, dets, t), unmatched, -cfg.distThreshold, m1);
    }

    method Refresh(of: seq<int>, dets: seq<Det>, kpts: seq<Kpt>, t: real, dt: real) returns (dets': seq<Det>)
      requires |of| == |tracks| && forall i | 0 <= i < |of| :: of[i] < |dets|
      modifies this`tracks
      ensures tracks == Refreshed(cfg, old(tracks), of, dets, kpts, t, dt, |of|)
      ensures dets' == MatchLabels(dets, old(tracks), of, |of|)
    {
      dets' := dets;
      var i := 0;
      while i < |tracks|
        invariant i <= |tracks| == |of| && |dets'| == |dets|
        invariant tracks == Refreshed(cfg, old(tracks), of, dets, kpts, t, dt, i)
        invariant forall x | 0 <= x < |tracks| :: tracks[x].id == old(tracks)[x].id
        invariant dets' == MatchLabels(dets, old(tracks), of, i)
      {
        var d := of[i];
        if d >= 0 {
          Observe(i, dets[d], kpts, t, dt);
          dets' := dets'[d := dets'[d].(trackId := tracks[i].id)];
        }
        i := i + 1;
      }
    }

    method Observe(i: nat, d: Det, kpts: seq<Kpt>, t: real, dt: real)
      requires i < |tracks|
      modifies this`tracks
      ensures tracks == old(tracks)[i := Seen(cfg, old(tracks)[i], d, kpts, t, dt)]
    {
      var tr := tracks[i];
      var (vx, vy) := Velocity(cfg, tr, d, dt);
      tracks := tracks[i := tr.(det := d, kpts := KptsOf(d, kpts), vx := vx, vy := vy, hits := Inc(tr.hits),
          misses := 0,
                                lastSeen := t)];
    }

    /** Age the unmatched tracks; tracks and matches are erased together. */
    method AgeAndErase(of: seq<int>, t: real) returns (removed: seq<U32>)
      requires |of| == |tracks|
      modifies this`tracks
      ensures (tracks, removed) == Survive(cfg, old(tracks), of, t)
    {
      var trackMatch, i := of, 0;
      removed := [];
      RestAll(cfg, tracks, of, t);
      while i < |tracks|
        invariant i <= |tracks| == |trackMatch|
        invariant Rest(cfg, tracks, trackMatch, t, i, removed) == Survive(cfg, old(tracks), of, t)
        decreases |tracks| - i
      {
        RestStep(cfg, tracks, trackMatch, t, i, removed);
        if trackMatch[i] >= 0 {
          i := i + 1;
        } else {
          tracks := tracks[i := Aged(tracks[i])];
          if Expired(cfg, tracks[i], t) {
            removed := removed + [tracks[i].id];
            tracks := Erased(tracks, i);
            trackMatch := Erased(trackMatch, i);
          } else {
            i := i + 1;
          }
        }
      }
      RestNone(cfg, tracks, trackMatch, t, removed);
    }

    method AddBirths(used: seq<bool>, dets: seq<Det>, given: seq<Det>, kpts: seq<Kpt>, t: real)
        returns (dets': seq<Det>)
      requires |used| == |dets| == |given|
      modifies this`tracks, this`nextId
      ensures tracks == old(tracks) + Births(dets, used, old(nextId), kpts, t, |dets|)
      ensures nextId == IdAfter(old(nextId), Free(used, |dets|))
      ensures dets' == BirthLabels(given, used, old(nextId), |dets|)
    {
      dets' := given;
      var d := 0;
      while d < |dets|
        invariant d <= |dets| == |dets'|
        invariant tracks == old(tracks) + Births(dets, used, old(nextId), kpts, t, d)
        invariant nextId == IdAfter(old(nextId), Free(used, d))
        invariant dets' == BirthLabels(given, used, old(nextId), d)
      {
        IdStep(old(nextId), Free(used, d));
        if !used[d] {
          tracks := tracks + [Newborn(dets[d], nextId, kpts, t)];
          dets' := dets'[d := dets'[d].(trackId := nextId)];
          nextId := Inc(nextId);
        }
        d := d + 1;
      }
    }

    method FilterAlive()
      modifies this`alive
      ensures alive == AliveOf(cfg, tracks)
    {
      alive := [];
      var i := 0;
      while i < |tracks|
        invariant i <= |tracks| && alive == AliveOf(cfg, tracks[..i])
      {
        if Signed(tracks[i].hits) >= cfg.minHits {
          alive := alive + [tracks[i]];
        }
        assert tracks[..i + 1][..i] == tracks[..i];
        i := i + 1;
      }
      assert tracks[..i] == tracks;
    }
  }

  function Erased<T>(s: seq<T>, i: nat): (r: seq<T>)
    requires i < |s|
    ensures |r| == |s| - 1
  {
    s[..i] + s[i + 1..]
  }

  /** The outcome when the ageing loop is at index i. */
  function Rest(cfg: Config, ts: seq<Track>, of: seq<int>, t: real, i: nat, removed: seq<U32>): (seq<Track>, seq<U32>)
    requires i <= |ts| == |of|
  {
    var later := Survive(cfg, ts[i..], of[i..], t);
    (ts[..i] + later.0, removed + later.1)
  }

  lemma RestAll(cfg: Config, ts: seq<Track>, of: seq<int>, t: real)
    requires |ts| == |of|
    ensures Rest(cfg, ts, of, t, 0, []) == Survive(cfg, ts, of, t)
  {
    assert ts[0..] == ts && of[0..] == of;
    var later := Survive(cfg, ts, of, t);
    assert ts[..0] + later.0 == later.0 && [] + later.1 == later.1;
  }

  lemma RestNone(cfg: Config, ts: seq<Track>, of: seq<int>, t: real, removed: seq<U32>)
    requires |ts| == |of|
    ensures Rest(cfg, ts, of, t, |ts|, removed) == (ts, removed)
  {
    assert ts[..|ts|] + [] == ts && removed + [] == removed;
  }

  /** One turn of the ageing loop: a matched track is passed over; an unmatched
      one is aged, and erased from both vectors when it has expired. */
  lemma RestStep(cfg: Config, ts: seq<Track>, of: seq<int>, t: real, i: nat, removed: seq<U32>)
    requires i < |ts| == |of|
    ensures var aged := ts[i := Aged(ts[i])];
            Rest(cfg, ts, of, t, i, removed) ==
            if of[i] >= 0 then Rest(cfg, ts, of, t, i + 1, removed)
            else if Expired(cfg, aged[i], t) then Rest(cfg, Erased(aged, i), Erased(of, i), t, i, removed + [ts[i].id])
            else Rest(cfg, aged, of, t, i + 1, removed)
  {
    var aged, later := ts[i := Aged(ts[i])], Survive(cfg, ts[i + 1..], of[i + 1..], t);
    assert ts[i..][1..] == ts[i + 1..] == aged[i + 1..] && of[i..][1..] == of[i + 1..];
    if of[i] >= 0 {
      Shift(ts[..i], ts[i], later.0);
      assert ts[..i] + [ts[i]] == ts[..i + 1];
    } else if Expired(cfg, aged[i], t) {
      assert Erased(aged, i)[i..] == ts[i + 1..] && Erased(of, i)[i..] == of[i + 1..] &&
          Erased(aged, i)[..i] == ts[..i];
      Shift(removed, ts[i].id, later.1);
    } else {
      Shift(ts[..i], aged[i], later.0);
      assert ts[..i] + [aged[i]] == aged[..i + 1];
    }
  }

  lemma IdStep(next: U32, k: nat)
    ensures Inc(IdAfter(next, k)) == IdAfter(next, k + 1)
  {
    ModStep(next + k, 0x1_0000_0000);
  }

  lemma ModStep(x: nat, m: nat)
    requires m > 1
    ensures (x % m + 1) % m == (x + 1) % m
  {
    var q, r := x / m, x % m;
    if r + 1 < m {
      ModUnique(x + 1, m, q, r + 1);
    } else {
      assert x + 1 == m * (q + 1) by {
        assert m * (q + 1) == m * q + m;
      }
      ModUnique(x + 1, m, q + 1, 0);
    }
  }

  lemma Shift<T>(a: seq<T>, x: T, b: seq<T>)
    ensures a + ([x] + b) == (a + [x]) + b
  {
  }

  // ---- What the matching promises ----

  lemma {:induction false} FallbackMembers(ts: seq<Track>, order: seq<nat>, of: seq<int>)
    requires |of| == |ts| && forall q | 0 <= q < |order| :: order[q] < |ts|
    ensures forall x: nat :: x in Fallback(ts, order, of) <==> x in order && of[x] == -1 && Signed(ts[x].misses) <= 5
    decreases |order|
  {
    if order != [] {
      FallbackMembers(ts, order[..|order| - 1], of);
      assert order == order[..|order| - 1] + [order[|order| - 1]];
    }
  }

  lemma {:induction false} FallbackOrdered(ts: seq<Track>, order: seq<nat>, of: seq<int>, n: nat)
    requires |of| == |ts| && Ordered(ts, order, n)
    ensures Ordered(ts, Fallback(ts, order, of), n)
    decreases |order|
  {
    if order != [] {
      var front, i := order[..|order| - 1], order[|order| - 1];
      FallbackOrdered(ts, front, of, n);
      FallbackMembers(ts, front, of);
      var r := Fallback(ts, front, of);
      forall p | 0 <= p < |r|
        ensures Before(ts, r[p], i)
      {
        assert r[p] in r;
      }
    }
  }

  lemma OrderedTurns(ts: seq<Track>, ranked: seq<nat>, of: seq<int>)
    requires Ordered(ts, ranked, |ts|) && |of| == |ts| && forall q | 0 <= q < |ranked| :: of[ranked[q]] == -1
    ensures Turns(ranked, |ts|, of)
  {
    forall p, q | 0 <= p < q < |ranked|
      ensures ranked[p] != ranked[q]
    {
      assert Before(ts, ranked[p], ranked[q]);
    }
  }

  lemma FirstOrder(ts: seq<Track>, k: nat)
    ensures var order := ByHits(ts, |ts|);
            Ordered(ts, order, |ts|) && Turns(order, |ts|, NoMatch(|ts|, k).of) &&
            forall i: nat :: i in order <==> i < |ts|
    ensures OneToOne(NoMatch(|ts|, k))
  {
    ByHitsOrdered(ts, |ts|);
    OrderedTurns(ts, ByHits(ts, |ts|), NoMatch(|ts|, k).of);
  }

  lemma LateMembers(ts: seq<Track>, of: seq<int>, order: seq<nat>, late: seq<nat>)
    requires |of| == |ts| && Ordered(ts, order, |ts|) && (forall i: nat :: i in order <==> i < |ts|)
    requires late == Fallback(ts, order, of)
    ensures forall i: nat :: i in late <==> i < |ts| && of[i] == -1 && Signed(ts[i].misses) <= 5
    ensures forall q | 0 <= q < |late| :: late[q] < |ts| && of[late[q]] == -1
  {
    FallbackMembers(ts, order, of);
    forall q | 0 <= q < |late|
      ensures late[q] < |ts| && of[late[q]] == -1
    {
      assert late[q] in late;
    }
  }

  lemma LateOrder(ts: seq<Track>, of: seq<int>)
    requires |of| == |ts|
    ensures var late := Fallback(ts, ByHits(ts, |ts|), of);
            && Ordered(ts, late, |ts|) && Turns(late, |ts|, of)
            && forall i: nat :: i in late <==> i < |ts| && of[i] == -1 && Signed(ts[i].misses) <= 5
  {
    var order := ByHits(ts, |ts|);
    var late := Fallback(ts, order, of);
    ByHitsOrdered(ts, |ts|);
    FallbackOrdered(ts, order, of, |ts|);
    LateMembers(ts, of, order, late);
    OrderedTurns(ts, late, of);
  }

  lemma Pass1Kept(rows: seq<Row>, ts: seq<Track>, k: nat, thr: real)
    requires Fit(rows, NoMatch(|ts|, k))
    ensures OneToOne(Pass1(rows, ts, k, thr))
  {
    FirstOrder(ts, k);
    GreedyOneToOne(rows, ByHits(ts, |ts|), thr, NoMatch(|ts|, k));
  }

  lemma Pass2Kept(rows: seq<Row>, ts: seq<Track>, m1: Match, thr: real)
    requires Fit(rows, m1) && |rows| == |ts| && OneToOne(m1)
    ensures OneToOne(Pass2(rows, ts, m1, thr))
  {
    LateOrder(ts, m1.of);
    GreedyOneToOne(rows, Fallback(ts, ByHits(ts, |ts|), m1.of), thr, m1);
  }

  lemma FirstOneToOne(cfg: Config, ts: seq<Track>, dets: seq<Det>, t: real)
    ensures OneToOne(FirstPass(cfg, ts, dets, t))
  {
    Pass1Kept(IouRows(cfg, ts, dets, t), ts, |dets|, cfg.iouThreshold);
  }

  lemma SecondOneToOne(cfg: Config, ts: seq<Track>, dets: seq<Det>, t: real, m1: Match)
    requires |m1.of| == |ts| && |m1.used| == |dets| && OneToOne(m1)
    ensures OneToOne(Pass2(NearRows(cfg, ts, dets, t), ts, m1, -cfg.distThreshold))
  {
    Pass2Kept(NearRows(cfg, ts, dets, t), ts, m1, -cfg.distThreshold);
  }

  /** No detection goes to two tracks, and `det_used` marks the matched ones. */
  lemma MatchingOneToOne(cfg: Config, ts: seq<Track>, dets: seq<Det>, t: real)
    ensures OneToOne(Matching(cfg, ts, dets, t))
  {
    FirstOneToOne(cfg, ts, dets, t);
    SecondOneToOne(cfg, ts, dets, t, FirstPass(cfg, ts, dets, t));
  }

  lemma Pass1Outbid(rows: seq<Row>, ts: seq<Track>, k: nat, thr: real, i: nat, d: nat) returns (j: nat)
    requires Fit(rows, NoMatch(|ts|, k)) && i < |ts| && d < k && rows[i][d].Some?
    requires var m := Pass1(rows, ts, k, thr);
             && (m.of[i] < 0 ==> rows[i][d].value > thr)
             && (m.of[i] >= 0 && rows[i][m.of[i]].Some? ==> rows[i][d].value > rows[i][m.of[i]].value)
    ensures j < |ts| && Pass1(rows, ts, k, thr).of[j] == d && Before(ts, j, i)
  {
    FirstOrder(ts, k);
    var order := ByHits(ts, |ts|);
    var q, r := Outbid(rows, order, thr, NoMatch(|ts|, k), Pass1(rows, ts, k, thr), i, d);
    j := order[q];
    assert Before(ts, order[q], order[r]);
  }

  lemma Pass2Outbid(rows: seq<Row>, ts: seq<Track>, m1: Match, thr: real, i: nat, d: nat) returns (j: nat)
    requires Fit(rows, m1) && |rows| == |ts| && i < |ts| && d < |m1.used| && rows[i][d].Some?
    requires m1.of[i] == -1 && Signed(ts[i].misses) <= 5 && !m1.used[d]
    requires var m := Pass2(rows, ts, m1, thr);
             && (m.of[i] < 0 ==> rows[i][d].value > thr)
             && (m.of[i] >= 0 && rows[i][m.of[i]].Some? ==> rows[i][d].value > rows[i][m.of[i]].value)
    ensures j < |ts| && Pass2(rows, ts, m1, thr).of[j] == d && Before(ts, j, i)
  {
    LateOrder(ts, m1.of);
    var late := Fallback(ts, ByHits(ts, |ts|), m1.of);
    var q, r := Outbid(rows, late, thr, m1, Pass2(rows, ts, m1, thr), i, d);
    j := late[q];
    assert Before(ts, late[q], late[r]);
  }

  /** Pass 1 serves the tracks by falling hits: whoever would overlap strictly
      better with another detection lost it to a track served before. */
  lemma FirstPassStable(cfg: Config, ts: seq<Track>, dets: seq<Det>, t: real, i: nat, d: nat) returns (j: nat)
    requires i < |ts| && d < |dets| && ClassOk(cfg, ts[i].det, dets[d])
    requires var m := FirstPass(cfg, ts, dets, t);
             var v := Iou(Predicted(cfg, ts[i], t), dets[d]);
             if m.of[i] < 0 then v > cfg.iouThreshold
             else v > Iou(Predicted(cfg, ts[i], t), dets[m.of[i]])
    ensures j < |ts| && FirstPass(cfg, ts, dets, t).of[j] == d && Before(ts, j, i)
  {
    j := Pass1Outbid(IouRows(cfg, ts, dets, t), ts, |dets|, cfg.iouThreshold, i, d);
  }

  function AnchorDistance(cfg: Config, tr: Track, d: Det, t: real): real {
    var p := Predicted(cfg, tr, t);
    cfg.hypot(d.cx - p.cx, AnchorY(cfg, d) - AnchorY(cfg, p))
  }

  lemma OutbidByDistance(cfg: Config, ts: seq<Track>, dets: seq<Det>, t: real, m1: Match, i: nat, d: nat)
      returns (j: nat)
    requires i < |ts| && d < |dets| && ClassOk(cfg, ts[i].det, dets[d])
    requires |m1.of| == |ts| && |m1.used| == |dets| && forall x | 0 <= x < |ts| :: -1 <= m1.of[x] < |dets|
    requires m1.of[i] == -1 && Signed(ts[i].misses) <= 5 && !m1.used[d]
    requires var m := Pass2(NearRows(cfg, ts, dets, t), ts, m1, -cfg.distThreshold);
             var v := AnchorDistance(cfg, ts[i], dets[d], t);
             if m.of[i] < 0 then v < cfg.distThreshold
             else v < AnchorDistance(cfg, ts[i], dets[m.of[i]], t)
    ensures j < |ts| && Pass2(NearRows(cfg, ts, dets, t), ts, m1, -cfg.distThreshold).of[j] == d && Before(ts, j, i)
  {
    var rows := NearRows(cfg, ts, dets, t);
    assert rows[i][d] == Some(-AnchorDistance(cfg, ts[i], dets[d], t));
    var b := Pass2(rows, ts, m1, -cfg.distThreshold).of[i];
    assert b >= 0 && rows[i][b].Some? ==> rows[i][b].value == -AnchorDistance(cfg, ts[i], dets[b], t);
    j := Pass2Outbid(rows, ts, m1, -cfg.distThreshold, i, d);
  }

  /** Pass 2 does the same by anchor distance, over what pass 1 left, for the
      tracks lost for at most five frames. */
  lemma SecondPassStable(cfg: Config, ts: seq<Track>, dets: seq<Det>, t: real, i: nat, d: nat) returns (j: nat)
    requires i < |ts| && d < |dets| && ClassOk(cfg, ts[i].det, dets[d])
    requires var m1 := FirstPass(cfg, ts, dets, t);
             m1.of[i] == -1 && Signed(ts[i].misses) <= 5 && !m1.used[d]
    requires var m := Matching(cfg, ts, dets, t);
             var v := AnchorDistance(cfg, ts[i], dets[d], t);
             if m.of[i] < 0 then v < cfg.distThreshold
             else v < AnchorDistance(cfg, ts[i], dets[m.of[i]], t)
    ensures j < |ts| && Matching(cfg, ts, dets, t).of[j] == d && Before(ts, j, i)
  {
    j := OutbidByDistance(cfg, ts, dets, t, FirstPass(cfg, ts, dets, t), i, d);
  }

  lemma Pass1Served(rows: seq<Row>, ts: seq<Track>, k: nat, thr: real, i: nat)
    requires Fit(rows, NoMatch(|ts|, k)) && i < |ts|
    ensures var b := Pass1(rows, ts, k, thr).of[i];
            b >= 0 ==> rows[i][b].Some? && rows[i][b].value > thr
  {
    FirstOrder(ts, k);
    Served(rows, ByHits(ts, |ts|), thr, NoMatch(|ts|, k), Pass1(rows, ts, k, thr), i);
  }

  lemma Pass2Served(rows: seq<Row>, ts: seq<Track>, m1: Match, thr: real, i: nat)
    requires Fit(rows, m1) && |rows| == |ts| && i < |ts|
    ensures var b := Pass2(rows, ts, m1, thr).of[i];
            && (m1.of[i] >= 0 ==> b == m1.of[i])
            && (m1.of[i] < 0 && b >= 0 ==>
                  Signed(ts[i].misses) <= 5 && !m1.used[b] && rows[i][b].Some? && rows[i][b].value > thr)
  {
    LateOrder(ts, m1.of);
    Served(rows, Fallback(ts, ByHits(ts, |ts|), m1.of), thr, m1, Pass2(rows, ts, m1, thr), i);
  }

  /** The two ways a track may be matched with a detection. */
  ghost predicate OverlapMatch(cfg: Config, tr: Track, d: Det, t: real) {
    ClassOk(cfg, tr.det, d) && Iou(Predicted(cfg, tr, t), d) > cfg.iouThreshold
  }

  ghost predicate LateMatch(cfg: Config, tr: Track, d: Det, t: real) {
    ClassOk(cfg, tr.det, d) && Signed(tr.misses) <= 5 && AnchorDistance(cfg, tr, d, t) < cfg.distThreshold
  }

  lemma ServedByDistance(cfg: Config, ts: seq<Track>, dets: seq<Det>, t: real, m1: Match, i: nat)
    requires i < |ts| == |m1.of| && |m1.used| == |dets| && forall x | 0 <= x < |ts| :: -1 <= m1.of[x] < |dets|
    ensures var b := Pass2(NearRows(cfg, ts, dets, t), ts, m1, -cfg.distThreshold).of[i];
            && (m1.of[i] >= 0 ==> b == m1.of[i])
            && (m1.of[i] < 0 && b >= 0 ==> LateMatch(cfg, ts[i], dets[b], t) && !m1.used[b])
  {
    Pass2Served(NearRows(cfg, ts, dets, t), ts, m1, -cfg.distThreshold, i);
  }

  /** Pass 1 only matches above its threshold; pass 2 keeps pass 1's matches
      and adds only tracks it may serve, within the distance threshold. */
  lemma MatchesAllowed(cfg: Config, ts: seq<Track>, dets: seq<Det>, t: real, i: nat)
    requires i < |ts|
    ensures var b1, b := FirstPass(cfg, ts, dets, t).of[i], Matching(cfg, ts, dets, t).of[i];
            && (b1 >= 0 ==> b == b1 && OverlapMatch(cfg, ts[i], dets[b], t))
            && (b1 < 0 && b >= 0 ==> LateMatch(cfg, ts[i], dets[b], t) && !FirstPass(cfg, ts, dets, t).used[b])
  {
    Pass1Served(IouRows(cfg, ts, dets, t), ts, |dets|, cfg.iouThreshold, i);
    ServedByDistance(cfg, ts, dets, t, FirstPass(cfg, ts, dets, t), i);
  }
}
