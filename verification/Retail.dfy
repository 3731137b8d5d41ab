/** Retail counting: the sliding window of ZoneMetrics (zone_metrics.cpp) and
    the entry and exit counters of PersonTracker (person_tracker.cpp) without
    an entry line and with a removal callback. Times and sums are reals. */
module Retail {
  // ---- Sliding window ----

  datatype Record = Record(dwell: real, engagement: real, speed: real, time: real)

  datatype Sums = Sums(dwell: real, engagement: real, speed: real, count: int)

  function Plus(s: Sums, r: Record): Sums {
    Sums(s.dwell + r.dwell, s.engagement + r.engagement, s.speed + r.speed, s.count + 1)
  }

  function Minus(s: Sums, r: Record): Sums {
    Sums(s.dwell - r.dwell, s.engagement - r.engagement, s.speed - r.speed, s.count - 1)
  }

  function Totals(rs: seq<Record>): Sums {
    if rs == [] then Sums(0.0, 0.0, 0.0, 0) else Plus(Totals(rs[..|rs| - 1]), rs[|rs| - 1])
  }

  /** The records no older than the cutoff. */
  function Since(rs: seq<Record>, cutoff: real): seq<Record> {
    if rs == [] then []
    else Since(rs[..|rs| - 1], cutoff) + if rs[|rs| - 1].time >= cutoff then [rs[|rs| - 1]] else []
  }

  /** Pruning pops from the front only: it stops at the first record that is
      not older than the cutoff. */
  function Pruned(rs: seq<Record>, cutoff: real): seq<Record> {
    if rs != [] && rs[0].time < cutoff then Pruned(rs[1..], cutoff) else rs
  }

  function SumOf(rs: seq<Record>, part: Record -> real): real {
    if rs == [] then 0.0 else part(rs[0]) + SumOf(rs[1..], part)
  }

  lemma {:induction false} SumOfLast(rs: seq<Record>, r: Record, part: Record -> real)
    ensures SumOf(rs + [r], part) == SumOf(rs, part) + part(r)
  {
    if rs == [] {
      assert [r][1..] == [] && [] + [r] == [r];
    } else {
      assert (rs + [r])[1..] == rs[1..] + [r];
      SumOfLast(rs[1..], r, part);
    }
  }

  /** The totals are the sums of each part over the records, and their number. */
  lemma {:induction false} TotalsAre(rs: seq<Record>)
    ensures Totals(rs) == Sums(SumOf(rs, (r: Record) => r.dwell), SumOf(rs, (r: Record) => r.engagement),
                               SumOf(rs, (r: Record) => r.speed), |rs|)
    decreases |rs|
  {
    if rs != [] {
      var front, last := rs[..|rs| - 1], rs[|rs| - 1];
      assert rs == front + [last];
      TotalsAre(front);
      SumOfLast(front, last, (r: Record) => r.dwell);
      SumOfLast(front, last, (r: Record) => r.engagement);
      SumOfLast(front, last, (r: Record) => r.speed);
    }
  }

  lemma {:induction false} TotalsFront(rs: seq<Record>)
    requires rs != []
    ensures Totals(rs[1..]) == Minus(Totals(rs), rs[0])
  {
    var n := |rs| - 1;
    if n > 0 {
      TotalsFront(rs[..n]);
      assert rs[1..][..n - 1] == rs[..n][1..] && rs[1..][n - 1] == rs[n];
    } else {
      assert rs[..n] == [] && rs[1..] == [];
    }
  }

  class ZoneMetrics {
    const window: real
    var removed: seq<Record>
    var sums: Sums  // sum_dwell_time_, sum_engagement_time_, sum_avg_speed_, removed_count_

    ghost predicate Valid()
      reads this
    {
      sums == Totals(removed)
    }

    constructor (window: real)
      ensures Valid() && removed == [] && this.window == window
    {
      this.window := window;
      removed, sums := [], Sums(0.0, 0.0, 0.0, 0);
    }

    method OnTrackRemoved(r: Record)
      requires Valid()
      modifies this
      ensures Valid() && removed == old(removed) + [r]
    {
      assert (removed + [r])[..|removed|] == removed;
      removed := removed + [r];
      sums := Plus(sums, r);
    }

    method PruneWindow(now: real)
      requires Valid()
      modifies this
      ensures Valid() && removed == Pruned(old(removed), now - window)
    {
      var cutoff := now - window;
      while removed != [] && removed[0].time < cutoff
        invariant Valid() && Pruned(removed, cutoff) == Pruned(old(removed), cutoff)
        decreases |removed|
      {
        TotalsFront(removed);
        sums := Minus(sums, removed[0]);
        removed := removed[1..];
      }
    }
  }

  datatype Event = Gone(r: Record) | Tick(now: real)

  function TimeOf(e: Event): real {
    if e.Gone? then e.r.time else e.now
  }

  /** The deque after the events. */
  function Deque(es: seq<Event>, window: real): seq<Record> {
    if es == [] then []
    else
      var before, e := Deque(es[..|es| - 1], window), es[|es| - 1];
      if e.Gone? then before + [e.r] else Pruned(before, e.now - window)
  }

  function AllGone(es: seq<Event>): seq<Record> {
    if es == [] then [] else AllGone(es[..|es| - 1]) + if es[|es| - 1].Gone? then [es[|es| - 1].r] else []
  }

  // ---- When the deque is the last window ----

  /** rs splits at s into records older than the cutoff and others. */
  ghost predicate SplitsAt(rs: seq<Record>, s: nat, cutoff: real) {
    s <= |rs| && (forall i | 0 <= i < s :: rs[i].time < cutoff) && forall i | s <= i < |rs| :: rs[i].time >= cutoff
  }

  lemma {:induction false} SinceMembers(rs: seq<Record>, cutoff: real)
    ensures |Since(rs, cutoff)| <= |rs|
    ensures forall i | 0 <= i < |Since(rs, cutoff)| :: Since(rs, cutoff)[i].time >= cutoff
  {
    if rs != [] {
      SinceMembers(rs[..|rs| - 1], cutoff);
    }
  }

  lemma {:induction false} SinceOfSplit(rs: seq<Record>, s: nat, cutoff: real)
    requires SplitsAt(rs, s, cutoff)
    ensures Since(rs, cutoff) == rs[s..]
    decreases |rs|
  {
    if rs != [] {
      var n := |rs| - 1;
      if s < |rs| {
        SinceOfSplit(rs[..n], s, cutoff);
        assert rs[s..] == rs[..n][s..] + [rs[n]];
      } else {
        SinceOfSplit(rs[..n], n, cutoff);
        assert rs[..n][n..] == [] == rs[s..];
      }
    }
  }

  /** A suffix that is what the window holds splits the records by age. */
  lemma {:induction false} SplitOfSince(rs: seq<Record>, s: nat, cutoff: real)
    requires s <= |rs| && Since(rs, cutoff) == rs[s..]
    ensures SplitsAt(rs, s, cutoff)
    decreases |rs|
  {
    SinceMembers(rs, cutoff);
    forall i | s <= i < |rs|
      ensures rs[i].time >= cutoff
    {
      assert Since(rs, cutoff)[i - s] == rs[i];
    }
    if rs != [] {
      var n := |rs| - 1;
      if s < |rs| {
        assert Since(rs[..n], cutoff) == rs[..n][s..] by {
          assert rs[s..] == rs[..n][s..] + [rs[n]];
          assert rs[s..][..n - s] == rs[..n][s..] && Since(rs, cutoff)[..n - s] == Since(rs[..n], cutoff);
        }
        SplitOfSince(rs[..n], s, cutoff);
      } else {
        assert Since(rs[..n], cutoff) == [] == rs[..n][n..];
        SplitOfSince(rs[..n], n, cutoff);
      }
    }
  }

  lemma {:induction false} PrunedIs(rs: seq<Record>, cutoff: real) returns (p: nat)
    ensures p <= |rs| && Pruned(rs, cutoff) == rs[p..]
    ensures (forall i | 0 <= i < p :: rs[i].time < cutoff) && (p < |rs| ==> rs[p].time >= cutoff)
    decreases |rs|
  {
    if rs != [] && rs[0].time < cutoff {
      p := PrunedIs(rs[1..], cutoff);
      forall i | 0 <= i < p + 1
        ensures rs[i].time < cutoff
      {
        assert i > 0 ==> rs[1..][i - 1].time < cutoff;
      }
      p := p + 1;
    } else {
      p := 0;
    }
  }

  /** How many records have left the deque. */
  function Left(es: seq<Event>, window: real): int {
    |AllGone(es)| - |Deque(es, window)|
  }

  lemma PrunedSuffix(all: seq<Record>, l: nat, cutoff: real) returns (s: nat)
    requires l <= |all|
    ensures l <= s <= |all| && Pruned(all[l..], cutoff) == all[s..]
    ensures (forall i | l <= i < s :: all[i].time < cutoff) && (s < |all| ==> all[s].time >= cutoff)
  {
    var p := PrunedIs(all[l..], cutoff);
    s := l + p;
    assert all[l..][p..] == all[s..];
    forall i | l <= i < s
      ensures all[i].time < cutoff
    {
      assert all[l..][i - l] == all[i];
    }
  }

  /** The deque is what has not left. */
  ghost predicate IsSuffix(es: seq<Event>, window: real) {
    0 <= Left(es, window) && Deque(es, window) == AllGone(es)[Left(es, window)..]
  }

  /** A tick pops what is older than its cutoff, up to the first that is not. */
  ghost predicate PopsFront(all: seq<Record>, before: int, after: int, cutoff: real) {
    && 0 <= before <= after <= |all| && (forall i | before <= i < after :: all[i].time < cutoff)
    && (after < |all| ==> all[after].time >= cutoff)
  }

  lemma OneMore(es: seq<Event>, e: Event, window: real)
    ensures AllGone(es + [e]) == AllGone(es) + if e.Gone? then [e.r] else []
    ensures Deque(es + [e], window) == if e.Gone? then Deque(es, window) + [e.r]
            else Pruned(Deque(es, window), e.now - window)
  {
    assert (es + [e])[..|es|] == es;
  }

  lemma AfterGone(es: seq<Event>, r: Record, window: real)
    requires IsSuffix(es, window)
    ensures IsSuffix(es + [Gone(r)], window) && Left(es + [Gone(r)], window) == Left(es, window)
  {
    OneMore(es, Gone(r), window);
    var all, l := AllGone(es), Left(es, window);
    assert (all + [r])[l..] == all[l..] + [r];
  }

  lemma AfterTick(es: seq<Event>, now: real, window: real)
    requires IsSuffix(es, window)
    ensures IsSuffix(es + [Tick(now)], window) && AllGone(es + [Tick(now)]) == AllGone(es)
    ensures PopsFront(AllGone(es), Left(es, window), Left(es + [Tick(now)], window), now - window)
  {
    OneMore(es, Tick(now), window);
    var s := PrunedSuffix(AllGone(es), Left(es, window), now - window);
  }

  /** What one event does to the deque and to what has left it. */
  ghost predicate Does(front: seq<Event>, e: Event, es: seq<Event>, window: real) {
    if e.Gone? then Left(es, window) == Left(front, window)
    else AllGone(es) == AllGone(front) && PopsFront(AllGone(es), Left(front, window), Left(es, window), e.now - window)
  }

  lemma AfterEvent(front: seq<Event>, e: Event, es: seq<Event>, window: real)
    requires IsSuffix(front, window) && es == front + [e]
    ensures IsSuffix(es, window) && Does(front, e, es, window)
  {
    if e.Gone? {
      AfterGone(front, e.r, window);
    } else {
      AfterTick(front, e.now, window);
    }
  }

  lemma {:induction false} DequeIsSuffix(es: seq<Event>, window: real)
    ensures IsSuffix(es, window)
    decreases |es|
  {
    if es != [] {
      DequeIsSuffix(es[..|es| - 1], window);
      AfterEvent(es[..|es| - 1], es[|es| - 1], es, window);
    }
  }

  /** Event n - 1, the last of the first n. */
  lemma EventAt(es: seq<Event>, window: real, n: nat)
    requires 0 < n <= |es|
    ensures IsSuffix(es[..n - 1], window) && IsSuffix(es[..n], window)
    ensures Does(es[..n - 1], es[n - 1], es[..n], window)
  {
    DequeIsSuffix(es[..n - 1], window);
    AfterEvent(es[..n - 1], es[n - 1], es[..n], window);
  }

  lemma {:induction false} LeftGrows(es: seq<Event>, window: real, m: nat, n: nat)
    requires m <= n <= |es|
    ensures Left(es[..m], window) <= Left(es[..n], window) && AllGone(es[..m]) <= AllGone(es[..n])
    decreases n
  {
    if m < n {
      LeftGrows(es, window, m, n - 1);
      assert es[..n][..n - 1] == es[..n - 1];
      EventAt(es, window, n);
    }
  }

  /** After the tick at index k the deque holds exactly the records of the last
      window, in order. */
  ghost predicate ExactAt(es: seq<Event>, window: real, k: nat)
    requires k < |es| && es[k].Tick?
  {
    Deque(es[..k + 1], window) == Since(AllGone(es[..k]), es[k].now - window)
  }

  ghost predicate ExactAtTicks(es: seq<Event>, window: real) {
    forall k | 0 <= k < |es| && es[k].Tick? :: ExactAt(es, window, k)
  }

  /** No record inside the window of a tick stands before one outside it. */
  ghost predicate NoneHidden(es: seq<Event>, window: real) {
    forall k | 0 <= k < |es| && es[k].Tick? :: OldestFirst(AllGone(es[..k]), es[k].now - window)
  }

  ghost predicate OldestFirst(rs: seq<Record>, cutoff: real) {
    forall i, j | 0 <= i < j < |rs| && rs[i].time >= cutoff :: rs[j].time >= cutoff
  }

  /** No record outside the window of a tick is inside that of a later one. */
  ghost predicate NoneComesBack(es: seq<Event>, window: real) {
    forall k, l | 0 <= k < l < |es| && es[k].Tick? && es[l].Tick? ::
      StaysOut(AllGone(es[..k]), es[k].now - window, es[l].now - window)
  }

  ghost predicate StaysOut(rs: seq<Record>, cutoff: real, later: real) {
    forall i | 0 <= i < |rs| && rs[i].time < cutoff :: rs[i].time < later
  }

  lemma ExactSplits(es: seq<Event>, window: real, k: nat)
    requires k < |es| && es[k].Tick?
    ensures ExactAt(es, window, k) <==>
            Left(es[..k + 1], window) >= 0 && SplitsAt(AllGone(es[..k]), Left(es[..k + 1], window), es[k].now - window)
  {
    EventAt(es, window, k + 1);
    var all, s, cutoff := AllGone(es[..k]), Left(es[..k + 1], window), es[k].now - window;
    if SplitsAt(all, s, cutoff) {
      SinceOfSplit(all, s, cutoff);
    }
    if ExactAt(es, window, k) {
      SplitOfSince(all, s, cutoff);
    }
  }

  /** What has left by index n is outside the window of every tick from n on. */
  lemma {:induction false} LeftStaysOut(es: seq<Event>, window: real, n: nat, l: nat)
    requires NoneComesBack(es, window) && n <= l < |es| && es[l].Tick?
    ensures forall i | 0 <= i < Left(es[..n], window) :: AllGone(es[..n])[i].time < es[l].now - window
    decreases n
  {
    if n > 0 {
      LeftStaysOut(es, window, n - 1, l);
      EventAt(es, window, n);
      assert es[..n][..n - 1] == es[..n - 1];
      var all, all' := AllGone(es[..n - 1]), AllGone(es[..n]);
      forall i | 0 <= i < Left(es[..n], window)
        ensures all'[i].time < es[l].now - window
      {
        assert all <= all';
        if es[n - 1].Tick? && i >= Left(es[..n - 1], window) {
          assert StaysOut(all, es[n - 1].now - window, es[l].now - window);
        }
      }
    }
  }

  lemma TickExact(es: seq<Event>, window: real, k: nat)
    requires NoneHidden(es, window) && NoneComesBack(es, window) && k < |es| && es[k].Tick?
    ensures ExactAt(es, window, k)
  {
    var all, cutoff := AllGone(es[..k]), es[k].now - window;
    EventAt(es, window, k + 1);
    LeftStaysOut(es, window, k, k);
    assert OldestFirst(all, cutoff);
    ExactSplits(es, window, k);
  }

  lemma ExactNoneComesBack(es: seq<Event>, window: real, k: nat, l: nat)
    requires ExactAtTicks(es, window) && k < l < |es| && es[k].Tick? && es[l].Tick?
    ensures StaysOut(AllGone(es[..k]), es[k].now - window, es[l].now - window)
  {
    ExactSplits(es, window, k);
    ExactSplits(es, window, l);
    LeftGrows(es, window, k + 1, l + 1);
    LeftGrows(es, window, k, l);
  }

  /** Exactly when each update leaves the records of the last window: the event
      times hide no old record behind a newer one, and no window reaches back to
      a record that an earlier one had left. */
  lemma WindowExactIff(es: seq<Event>, window: real)
    ensures ExactAtTicks(es, window) <==> NoneHidden(es, window) && NoneComesBack(es, window)
  {
    if NoneHidden(es, window) && NoneComesBack(es, window) {
      forall k | 0 <= k < |es| && es[k].Tick?
        ensures ExactAt(es, window, k)
      {
        TickExact(es, window, k);
      }
    }
    if ExactAtTicks(es, window) {
      forall k | 0 <= k < |es| && es[k].Tick?
        ensures OldestFirst(AllGone(es[..k]), es[k].now - window)
      {
        ExactSplits(es, window, k);
      }
      forall k, l | 0 <= k < l < |es| && es[k].Tick? && es[l].Tick?
        ensures StaysOut(AllGone(es[..k]), es[k].now - window, es[l].now - window)
      {
        ExactNoneComesBack(es, window, k, l);
      }
    }
  }

  // ---- A clock that never steps back ----

  ghost predicate Clock(es: seq<Event>) {
    forall i, j | 0 <= i < j < |es| :: TimeOf(es[i]) <= TimeOf(es[j])
  }

  ghost predicate InTimeOrder(rs: seq<Record>, latest: real) {
    (forall i, j | 0 <= i < j < |rs| :: rs[i].time <= rs[j].time) && forall i | 0 <= i < |rs| :: rs[i].time <= latest
  }

  lemma {:induction false} GoneInOrder(es: seq<Event>, k: nat, latest: real)
    requires Clock(es) && k <= |es| && forall i | 0 <= i < k :: TimeOf(es[i]) <= latest
    ensures InTimeOrder(AllGone(es[..k]), latest)
    decreases k
  {
    if k > 0 {
      assert es[..k][..k - 1] == es[..k - 1];
      forall i | 0 <= i < k - 1
        ensures TimeOf(es[i]) <= TimeOf(es[k - 1])
      {
      }
      GoneInOrder(es, k - 1, TimeOf(es[k - 1]));
    }
  }

  /** With such a clock each update leaves exactly the last window. */
  lemma WindowExact(es: seq<Event>, window: real)
    requires Clock(es)
    ensures ExactAtTicks(es, window)
  {
    forall k | 0 <= k < |es| && es[k].Tick?
      ensures OldestFirst(AllGone(es[..k]), es[k].now - window)
    {
      GoneInOrder(es, k, TimeOf(es[k]));
    }
    forall k, l | 0 <= k < l < |es| && es[k].Tick? && es[l].Tick?
      ensures StaysOut(AllGone(es[..k]), es[k].now - window, es[l].now - window)
    {
      assert TimeOf(es[k]) <= TimeOf(es[l]);
    }
    WindowExactIff(es, window);
  }

  /** A tick that jumps ahead loses a record that a later window covers. */
  lemma BackwardClockLosesRecord(r: Record, window: real)
    requires window > 0.0
    ensures var es := [Gone(r), Tick(r.time + 2.0 * window), Tick(r.time)];
            NoneHidden(es, window) && Deque(es, window) == [] && Since(AllGone(es), r.time - window) == [r]
  {
    var e1, e2 := [Gone(r)], [Gone(r), Tick(r.time + 2.0 * window)];
    var es := [Gone(r), Tick(r.time + 2.0 * window), Tick(r.time)];
    assert es == e2 + [Tick(r.time)] && e1 == [] + [Gone(r)] && e2 == e1 + [Tick(r.time + 2.0 * window)] &&
        es[..1] == e1 && es[..2] == e2;
    OneMore([], Gone(r), window);
    OneMore(e1, Tick(r.time + 2.0 * window), window);
    OneMore(e2, Tick(r.time), window);
    assert [r][1..] == [] && [r][..0] == [];
  }

  /** A record handed over with an older time than one before it outlives its
      window behind that one. */
  lemma OldRecordStays(newer: Record, older: Record, now: real, window: real)
    requires older.time < now - window <= newer.time
    ensures var es := [Gone(newer), Gone(older), Tick(now)];
            NoneComesBack(es, window) && Deque(es, window) == [newer, older] &&
                Since(AllGone(es), now - window) == [newer]
  {
    var e1, e2 := [Gone(newer)], [Gone(newer), Gone(older)];
    assert [Gone(newer), Gone(older), Tick(now)] == e2 + [Tick(now)] && e1 == [] + [Gone(newer)] &&
        e2 == e1 + [Gone(older)];
    OneMore([], Gone(newer), window);
    OneMore(e1, Gone(older), window);
    OneMore(e2, Tick(now), window);
    assert [newer, older][..1] == [newer] && [newer][..0] == [] && Since([newer], now - window) == [newer];
  }

  // ---- Entry and exit counts ----

  /** A tracked person; motion stands for its velocity and dwell data. */
  datatype Person = Person(id: nat, frames: nat, lost: nat, box: int, motion: int)

  /** The edge tests and the motion update are functions of what they look at. */
  datatype Config = Config(minFrames: int, maxLostEdge: int, maxLostCenter: int,
                           edgeLoss: Person -> bool, nearEdge: int -> bool, moved: (Person, int, real) -> int)

  datatype Detection = Detection(box: int, target: int)

  /** One update: the detections, what matchDetections returned, and the time. */
  datatype Frame = Frame(detections: seq<Detection>, matches: seq<(nat, nat)>, time: real)

  datatype State = State(tracks: map<nat, Person>, nextId: nat, entryCount: nat, exitCount: nat,
                         emitted: seq<Person>, lastTime: real)

  const EMPTY := State(map[], 0, 0, 0, [], 0.0)

  /** Only persons are tracked (target 0). */
  function Boxes(ds: seq<Detection>): seq<int> {
    if ds == [] then []
    else Boxes(ds[..|ds| - 1]) + if ds[|ds| - 1].target == 0 then [ds[|ds| - 1].box] else []
  }

  /** The matching is one to one, between live tracks and persons. */
  ghost predicate Matching(st: State, f: Frame) {
    && (forall k | 0 <= k < |f.matches| :: f.matches[k].0 in st.tracks && f.matches[k].1 < |Boxes(f.detections)|)
    && forall k, l | 0 <= k < l < |f.matches| :: f.matches[k].0 != f.matches[l].0 && f.matches[k].1 != f.matches[l].1
  }

  function MatchedIds(ms: seq<(nat, nat)>): set<nat> {
    set k | 0 <= k < |ms| :: ms[k].0
  }

  function MatchedBoxes(ms: seq<(nat, nat)>): set<nat> {
    set k | 0 <= k < |ms| :: ms[k].1
  }

  function Seen(cfg: Config, p: Person, box: int, dt: real): Person {
    Person(p.id, p.frames + 1, 0, box, cfg.moved(p, box, dt))
  }

  /** The tracks after the first n matches. */
  function Refreshed(cfg: Config, tracks: map<nat, Person>, boxes: seq<int>, ms: seq<(nat, nat)>, dt: real, n: nat)
      : (r: map<nat, Person>)
    requires n <= |ms| && forall k | 0 <= k < |ms| :: ms[k].0 in tracks && ms[k].1 < |boxes|
    ensures r.Keys == tracks.Keys
  {
    if n == 0 then tracks
    else
      var r := Refreshed(cfg, tracks, boxes, ms, dt, n - 1);
      r[ms[n - 1].0 := Seen(cfg, r[ms[n - 1].0], boxes[ms[n - 1].1], dt)]
  }

  function Unseen(p: Person): Person {
    p.(lost := p.lost + 1)
  }

  predicate Overdue(cfg: Config, p: Person) {
    p.lost > if cfg.edgeLoss(p) then cfg.maxLostEdge else cfg.maxLostCenter
  }

  /** Unmatched tracks with ids below n are aged. */
  function Aged(tracks: map<nat, Person>, matched: set<nat>, n: nat): (r: map<nat, Person>)
    ensures r.Keys == tracks.Keys
  {
    map id | id in tracks :: if id < n && id !in matched then Unseen(tracks[id]) else tracks[id]
  }

  /** Those that are overdue then, in the order of the map. */
  function ToRemove(cfg: Config, tracks: map<nat, Person>, matched: set<nat>, n: nat): seq<nat> {
    if n == 0 then []
    else
      var id := n - 1;
      ToRemove(cfg, tracks, matched, id) +
      if id in tracks && id !in matched && Overdue(cfg, Unseen(tracks[id])) then [id] else []
  }

  predicate CountsAsExit(cfg: Config, p: Person) {
    p.frames >= cfg.minFrames && (cfg.edgeLoss(p) || cfg.nearEdge(p.box))
  }

  function Dropped(cfg: Config, st: State, id: nat): State {
    if id !in st.tracks then st
    else
      var p := st.tracks[id];
      st.(tracks := st.tracks - {id}, emitted := st.emitted + [p],
          exitCount := st.exitCount + if CountsAsExit(cfg, p) then 1 else 0)
  }

  function DroppedAll(cfg: Config, st: State, ids: seq<nat>): State {
    if ids == [] then st else Dropped(cfg, DroppedAll(cfg, st, ids[..|ids| - 1]), ids[|ids| - 1])
  }

  function Born(st: State, box: int): State {
    st.(tracks := st.tracks[st.nextId := Person(st.nextId, 1, 0, box, 0)], nextId := st.nextId + 1,
        entryCount := st.entryCount + 1)
  }

  /** New tracks for the unmatched boxes below n. */
  function BornAll(st: State, boxes: seq<int>, taken: set<nat>, n: nat): State
    requires n <= |boxes|
  {
    if n == 0 then st
    else
      var before := BornAll(st, boxes, taken, n - 1);
      if n - 1 in taken then before else Born(before, boxes[n - 1])
  }

  function Elapsed(st: State, time: real): real {
    if st.lastTime > 0.0 then time - st.lastTime else 0.0
  }

  /** After the matched tracks were refreshed and the others aged. */
  function AfterAgeing(cfg: Config, st: State, f: Frame): State
    requires Matching(st, f)
  {
    var seen := Refreshed(cfg, st.tracks, Boxes(f.detections), f.matches, Elapsed(st, f.time), |f.matches|);
    st.(tracks := Aged(seen, MatchedIds(f.matches), st.nextId), lastTime := f.time)
  }

  function Leaving(cfg: Config, st: State, f: Frame): seq<nat>
    requires Matching(st, f)
  {
    var seen := Refreshed(cfg, st.tracks, Boxes(f.detections), f.matches, Elapsed(st, f.time), |f.matches|);
    ToRemove(cfg, seen, MatchedIds(f.matches), st.nextId)
  }

  function AfterFrame(cfg: Config, st: State, f: Frame): State
    requires Matching(st, f)
  {
    var boxes := Boxes(f.detections);
    BornAll(DroppedAll(cfg, AfterAgeing(cfg, st, f), Leaving(cfg, st, f)), boxes, MatchedBoxes(f.matches), |boxes|)
  }

  class PersonTracker {
    const cfg: Config
    var tracks: map<nat, Person>
    var nextId: nat
    var entryCount: nat
    var exitCount: nat
    var emitted: seq<Person>  // the tracks reported to the callback
    var lastTime: real

    ghost function View(): State
      reads this
    {
      State(tracks, nextId, entryCount, exitCount, emitted, lastTime)
    }

    constructor (cfg: Config)
      ensures View() == EMPTY && this.cfg == cfg
    {
      this.cfg := cfg;
      tracks, nextId, entryCount, exitCount, emitted, lastTime := map[], 0, 0, 0, [], 0.0;
    }

    method RemoveTrack(id: nat)
      modifies this
      ensures View() == Dropped(cfg, old(View()), id)
    {
      if id !in tracks {
        return;
      }
      var p := tracks[id];
      if p.frames >= cfg.minFrames {
        if cfg.edgeLoss(p) {
          exitCount := exitCount + 1;
        } else if cfg.nearEdge(p.box) {
          exitCount := exitCount + 1;
        }
      }
      emitted := emitted + [p];
      tracks := tracks - {id};
    }

    /** The loop over the matches. */
    method Refresh(boxes: seq<int>, ms: seq<(nat, nat)>, dt: real)
      requires forall k | 0 <= k < |ms| :: ms[k].0 in tracks && ms[k].1 < |boxes|
      modifies this`tracks
      ensures tracks == Refreshed(cfg, old(tracks), boxes, ms, dt, |ms|)
    {
      var k := 0;
      while k < |ms|
        invariant k <= |ms| && tracks == Refreshed(cfg, old(tracks), boxes, ms, dt, k)
      {
        var (id, d) := ms[k];
        tracks := tracks[id := Seen(cfg, tracks[id], boxes[d], dt)];
        k := k + 1;
      }
    }

    /** The loop over the map, whose keys are ids issued, in ascending order. */
    method Age(matched: set<nat>) returns (toRemove: seq<nat>)
      modifies this`tracks
      ensures tracks == Aged(old(tracks), matched, nextId)
      ensures toRemove == ToRemove(cfg, old(tracks), matched, nextId)
    {
      var id := 0;
      toRemove := [];
      while id < nextId
        invariant id <= nextId && tracks == Aged(old(tracks), matched, id)
        invariant toRemove == ToRemove(cfg, old(tracks), matched, id)
      {
        if id in tracks && id !in matched {
          var p := tracks[id].(lost := tracks[id].lost + 1);
          tracks := tracks[id := p];
          if p.lost > if cfg.edgeLoss(p) then cfg.maxLostEdge else cfg.maxLostCenter {
            toRemove := toRemove + [id];
          }
        }
        id := id + 1;
      }
    }

    method RemoveAll(ids: seq<nat>)
      modifies this
      ensures View() == DroppedAll(cfg, old(View()), ids)
    {
      var k := 0;
      assert ids[..0] == [];
      while k < |ids|
        invariant k <= |ids| && View() == DroppedAll(cfg, old(View()), ids[..k])
      {
        RemoveTrack(ids[k]);
        assert ids[..k + 1][..k] == ids[..k];
        k := k + 1;
      }
      assert ids[..k] == ids;
    }

    method Create(boxes: seq<int>, taken: set<nat>)
      modifies this
      ensures View() == BornAll(old(View()), boxes, taken, |boxes|)
    {
      var i := 0;
      while i < |boxes|
        invariant i <= |boxes| && View() == BornAll(old(View()), boxes, taken, i)
      {
        if i !in taken {
          tracks := tracks[nextId := Person(nextId, 1, 0, boxes[i], 0)];
          nextId := nextId + 1;
          entryCount := entryCount + 1;
        }
        i := i + 1;
      }
    }

    method RefreshAndAge(f: Frame) returns (toRemove: seq<nat>)
      requires Matching(View(), f)
      modifies this
      ensures View() == AfterAgeing(cfg, old(View()), f) && toRemove == Leaving(cfg, old(View()), f)
    {
      ghost var st := View();
      var dt := if lastTime > 0.0 then f.time - lastTime else 0.0;
      lastTime := f.time;
      Refresh(Boxes(f.detections), f.matches, dt);
      assert tracks == Refreshed(cfg, st.tracks, Boxes(f.detections), f.matches, Elapsed(st, f.time), |f.matches|);
      toRemove := Age(MatchedIds(f.matches));
    }

    method Update(f: Frame)
      requires Matching(View(), f)
      modifies this
      ensures View() == AfterFrame(cfg, old(View()), f)
    {
      var toRemove := RefreshAndAge(f);
      RemoveAll(toRemove);
      Create(Boxes(f.detections), MatchedBoxes(f.matches));
    }
  }

  // ---- Runs of the counters ----

  /** The reported tracks that lived long enough and were lost at an edge. */
  function Exits(cfg: Config, gone: seq<Person>): nat {
    if gone == [] then 0
    else
      var p := gone[|gone| - 1];
      var atEdge := cfg.edgeLoss(p) || cfg.nearEdge(p.box);
      Exits(cfg, gone[..|gone| - 1]) + if p.frames >= cfg.minFrames && atEdge then 1 else 0
  }

  lemma {:induction false} ExitsBounded(cfg: Config, gone: seq<Person>)
    ensures Exits(cfg, gone) <= |gone|
  {
    if gone != [] {
      ExitsBounded(cfg, gone[..|gone| - 1]);
    }
  }

  /** Live ids and reported ids are issued ones, and no id is both. */
  ghost predicate IdsApart(st: State) {
    && (forall id | id in st.tracks :: id < st.nextId && st.tracks[id].id == id)
    && (forall k | 0 <= k < |st.emitted| :: st.emitted[k].id < st.nextId && st.emitted[k].id !in st.tracks)
    && (forall k, l | 0 <= k < l < |st.emitted| :: st.emitted[k].id != st.emitted[l].id)
  }

  /** Every person counted in is being tracked or was reported, and the exit
      count is the number of reported tracks that left at an edge. */
  ghost predicate Balanced(cfg: Config, st: State) {
    st.entryCount == st.nextId == |st.tracks| + |st.emitted| && st.exitCount == Exits(cfg, st.emitted) && IdsApart(st)
  }

  lemma DroppedBalanced(cfg: Config, st: State, id: nat)
    requires Balanced(cfg, st)
    ensures Balanced(cfg, Dropped(cfg, st, id))
  {
    if id in st.tracks {
      var p := st.tracks[id];
      assert (st.tracks - {id}).Keys == st.tracks.Keys - {id};
      assert (st.emitted + [p])[..|st.emitted|] == st.emitted;
    }
  }

  lemma {:induction false} DroppedAllBalanced(cfg: Config, st: State, ids: seq<nat>)
    requires Balanced(cfg, st)
    ensures var after := DroppedAll(cfg, st, ids);
            Balanced(cfg, after) && after.nextId == st.nextId && st.emitted <= after.emitted
    ensures var after := DroppedAll(cfg, st, ids);
            forall e | |st.emitted| <= e < |after.emitted| :: after.emitted[e].id in ids
  {
    if ids != [] {
      var front, before := ids[..|ids| - 1], DroppedAll(cfg, st, ids[..|ids| - 1]);
      DroppedAllBalanced(cfg, st, front);
      DroppedBalanced(cfg, before, ids[|ids| - 1]);
    }
  }

  lemma BornBalanced(cfg: Config, st: State, box: int)
    requires Balanced(cfg, st)
    ensures Balanced(cfg, Born(st, box))
  {
    assert Born(st, box).tracks.Keys == st.tracks.Keys + {st.nextId};
  }

  function TakenBelow(taken: set<nat>, n: nat): set<nat> {
    set d | d in taken && d < n
  }

  lemma TakenNext(taken: set<nat>, n: nat)
    ensures |TakenBelow(taken, n + 1)| == |TakenBelow(taken, n)| + if n in taken then 1 else 0
  {
    assert TakenBelow(taken, n + 1) == TakenBelow(taken, n) + if n in taken then {n} else {};
  }

  lemma {:induction false} BornAllBalanced(cfg: Config, st: State, boxes: seq<int>, taken: set<nat>, n: nat)
    requires Balanced(cfg, st) && n <= |boxes|
    ensures var after := BornAll(st, boxes, taken, n);
            Balanced(cfg, after) && after.emitted == st.emitted
  {
    if n > 0 {
      BornAllBalanced(cfg, st, boxes, taken, n - 1);
      if n - 1 !in taken {
        BornBalanced(cfg, BornAll(st, boxes, taken, n - 1), boxes[n - 1]);
      }
    }
  }

  lemma {:induction false} BornAllCounted(st: State, boxes: seq<int>, taken: set<nat>, n: nat)
    requires n <= |boxes|
    ensures BornAll(st, boxes, taken, n).nextId + |TakenBelow(taken, n)| == st.nextId + n
  {
    if n == 0 {
      assert TakenBelow(taken, 0) == {};
    } else {
      BornAllCounted(st, boxes, taken, n - 1);
      TakenNext(taken, n - 1);
    }
  }

  lemma {:induction false} RefreshedIds(cfg: Config, st: State, boxes: seq<int>, ms: seq<(nat, nat)>, dt: real, n: nat)
    requires n <= |ms| && forall k | 0 <= k < |ms| :: ms[k].0 in st.tracks && ms[k].1 < |boxes|
    ensures var r := Refreshed(cfg, st.tracks, boxes, ms, dt, n);
            forall id | id in st.tracks :: r[id].id == st.tracks[id].id
  {
    if n > 0 {
      RefreshedIds(cfg, st, boxes, ms, dt, n - 1);
    }
  }

  lemma AgeingBalanced(cfg: Config, st: State, f: Frame)
    requires Balanced(cfg, st) && Matching(st, f)
    ensures Balanced(cfg, AfterAgeing(cfg, st, f))
  {
    RefreshedIds(cfg, st, Boxes(f.detections), f.matches, Elapsed(st, f.time), |f.matches|);
    assert AfterAgeing(cfg, st, f).tracks.Keys == st.tracks.Keys;
  }

  lemma {:induction false} ToRemoveMembers(cfg: Config, tracks: map<nat, Person>, matched: set<nat>, n: nat)
    ensures forall id: nat :: id in ToRemove(cfg, tracks, matched, n) <==>
                              id < n && id in tracks && id !in matched && Overdue(cfg, Unseen(tracks[id]))
  {
    if n > 0 {
      ToRemoveMembers(cfg, tracks, matched, n - 1);
    }
  }

  lemma {:induction false} DistinctBoxes(ms: seq<(nat, nat)>)
    requires forall k, l | 0 <= k < l < |ms| :: ms[k].1 != ms[l].1
    ensures |MatchedBoxes(ms)| == |ms|
    decreases |ms|
  {
    if ms != [] {
      var n := |ms| - 1;
      DistinctBoxes(ms[..n]);
      assert MatchedBoxes(ms) == MatchedBoxes(ms[..n]) + {ms[n].1};
    }
  }

  /** One frame keeps the balance; the ids issued are as many as the persons
      without a match, and no matched person is reported. */
  lemma FrameBalanced(cfg: Config, st: State, f: Frame)
    requires Balanced(cfg, st) && Matching(st, f)
    ensures var after := AfterFrame(cfg, st, f);
            && Balanced(cfg, after) && after.nextId == st.nextId + |Boxes(f.detections)| - |f.matches|
            && st.emitted <= after.emitted
            && forall k, e | 0 <= k < |f.matches| && |st.emitted| <= e < |after.emitted| ::
                 after.emitted[e].id != f.matches[k].0
  {
    var boxes, aged, ids := Boxes(f.detections), AfterAgeing(cfg, st, f), Leaving(cfg, st, f);
    AgeingBalanced(cfg, st, f);
    DroppedAllBalanced(cfg, aged, ids);
    BornAllBalanced(cfg, DroppedAll(cfg, aged, ids), boxes, MatchedBoxes(f.matches), |boxes|);
    BornAllCounted(DroppedAll(cfg, aged, ids), boxes, MatchedBoxes(f.matches), |boxes|);
    assert TakenBelow(MatchedBoxes(f.matches), |boxes|) == MatchedBoxes(f.matches);
    DistinctBoxes(f.matches);
    MatchedStay(cfg, st, f);
  }

  lemma MatchedStay(cfg: Config, st: State, f: Frame)
    requires Matching(st, f)
    ensures forall k | 0 <= k < |f.matches| :: f.matches[k].0 !in Leaving(cfg, st, f)
  {
    var seen := Refreshed(cfg, st.tracks, Boxes(f.detections), f.matches, Elapsed(st, f.time), |f.matches|);
    ToRemoveMembers(cfg, seen, MatchedIds(f.matches), st.nextId);
    forall k | 0 <= k < |f.matches|
      ensures f.matches[k].0 in MatchedIds(f.matches)
    {
    }
  }

  ghost predicate Runs(cfg: Config, frames: seq<Frame>, sts: seq<State>) {
    && |sts| == |frames| + 1 && sts[0] == EMPTY
    && forall k | 0 <= k < |frames| :: Matching(sts[k], frames[k]) && sts[k + 1] == AfterFrame(cfg, sts[k], frames[k])
  }

  lemma {:induction false} RunBalanced(cfg: Config, frames: seq<Frame>, sts: seq<State>, k: nat)
    requires Runs(cfg, frames, sts) && k <= |frames|
    ensures Balanced(cfg, sts[k])
  {
    if k > 0 {
      RunBalanced(cfg, frames, sts, k - 1);
      FrameBalanced(cfg, sts[k - 1], frames[k - 1]);
    }
  }

  /** Persons without a match, over the first k frames. */
  function Newcomers(frames: seq<Frame>, k: nat): int
    requires k <= |frames|
  {
    if k == 0 then 0
    else Newcomers(frames, k - 1) + |Boxes(frames[k - 1].detections)| - |frames[k - 1].matches|
  }

  lemma FrameIssues(cfg: Config, st: State, f: Frame, st': State)
    requires Balanced(cfg, st) && Matching(st, f) && st' == AfterFrame(cfg, st, f)
    ensures st'.nextId == st.nextId + |Boxes(f.detections)| - |f.matches|
  {
    FrameBalanced(cfg, st, f);
  }

  lemma {:induction false} NewcomersCounted(cfg: Config, frames: seq<Frame>, sts: seq<State>, k: nat)
    requires Runs(cfg, frames, sts) && k <= |frames|
    ensures sts[k].nextId == Newcomers(frames, k)
  {
    if k > 0 {
      NewcomersCounted(cfg, frames, sts, k - 1);
      RunBalanced(cfg, frames, sts, k - 1);
      FrameIssues(cfg, sts[k - 1], frames[k - 1], sts[k]);
    }
  }

  /** Whatever the frames and one-to-one matchings: the entry count is the
      number of unmatched persons seen so far, and of those live or reported;
      the exit count is the number of reported ones that left at an edge. */
  lemma CountersBalance(cfg: Config, frames: seq<Frame>, sts: seq<State>, k: nat)
    requires Runs(cfg, frames, sts) && k <= |frames|
    ensures var st := sts[k];
            && st.entryCount == st.nextId == |st.tracks| + |st.emitted| == Newcomers(frames, k)
            && st.exitCount == Exits(cfg, st.emitted) <= |st.emitted|
  {
    RunBalanced(cfg, frames, sts, k);
    NewcomersCounted(cfg, frames, sts, k);
    ExitsBounded(cfg, sts[k].emitted);
  }

  function IdsOf(people: seq<Person>): set<nat> {
    set e | 0 <= e < |people| :: people[e].id
  }

  lemma {:induction false} DistinctIds(people: seq<Person>)
    requires forall k, l | 0 <= k < l < |people| :: people[k].id != people[l].id
    ensures |IdsOf(people)| == |people|
    decreases |people|
  {
    if people != [] {
      var n := |people| - 1;
      DistinctIds(people[..n]);
      assert IdsOf(people) == IdsOf(people[..n]) + {people[n].id};
    }
  }

  /** n numbers below n are all of them. */
  lemma {:induction false} Pigeonhole(s: set<nat>, n: nat)
    requires forall x | x in s :: x < n
    ensures |s| <= n && (|s| == n ==> forall x: nat | x < n :: x in s)
    decreases n
  {
    if n == 0 {
      assert s == {};
    } else {
      var t := s - {n - 1};
      Pigeonhole(t, n - 1);
      assert |s| == |t| + if n - 1 in s then 1 else 0;
      if |s| == n {
        forall x: nat | x < n
          ensures x in s
        {
          assert x == n - 1 || x in t;
        }
      }
    }
  }

  /** Each issued id is live or was reported. */
  lemma EachPersonOnce(cfg: Config, frames: seq<Frame>, sts: seq<State>, k: nat, id: nat)
    requires Runs(cfg, frames, sts) && k <= |frames|
    ensures var st := sts[k];
            id < st.nextId <==> id in st.tracks || exists e :: 0 <= e < |st.emitted| && st.emitted[e].id == id
  {
    RunBalanced(cfg, frames, sts, k);
    var st := sts[k];
    var reported := IdsOf(st.emitted);
    DistinctIds(st.emitted);
    assert st.tracks.Keys !! reported && |st.tracks.Keys + reported| == st.nextId;
    Pigeonhole(st.tracks.Keys + reported, st.nextId);
  }

  // ---- What one frame does to each track ----

  /** The boxes tracked are those of the detections of persons, in order: at[k]
      is the detection of box k. */
  lemma {:induction false} PersonsOnly(ds: seq<Detection>) returns (at: seq<nat>)
    ensures |at| == |Boxes(ds)|
    ensures forall k | 0 <= k < |at| :: at[k] < |ds| && ds[at[k]].target == 0 && ds[at[k]].box == Boxes(ds)[k]
    ensures forall k, l | 0 <= k < l < |at| :: at[k] < at[l]
    ensures forall i: nat | i < |ds| && ds[i].target == 0 :: i in at
  {
    at := [];
    if ds != [] {
      var n := |ds| - 1;
      var front := PersonsOnly(ds[..n]);
      at := front + if ds[n].target == 0 then [n] else [];
      forall i: nat | i < |ds| && ds[i].target == 0
        ensures i in at
      {
        assert i < n ==> ds[..n][i] == ds[i] && i in front;
      }
    }
  }

  lemma {:induction false} RefreshedAt(cfg: Config, tracks: map<nat, Person>, boxes: seq<int>, ms: seq<(nat, nat)>,
                                       dt: real, n: nat, id: nat)
    requires n <= |ms| && forall k | 0 <= k < |ms| :: ms[k].0 in tracks && ms[k].1 < |boxes|
    requires forall k, l | 0 <= k < l < |ms| :: ms[k].0 != ms[l].0
    requires id in tracks
    ensures var r := Refreshed(cfg, tracks, boxes, ms, dt, n);
            && (forall k | 0 <= k < n && ms[k].0 == id :: r[id] == Seen(cfg, tracks[id], boxes[ms[k].1], dt))
            && ((forall k | 0 <= k < n :: ms[k].0 != id) ==> r[id] == tracks[id])
  {
    if n > 0 {
      RefreshedAt(cfg, tracks, boxes, ms, dt, n - 1, id);
    }
  }

  /** Dropping leaves every other track alone and reports those it drops. */
  lemma {:induction false} DroppedAllAt(cfg: Config, st: State, ids: seq<nat>, id: nat)
    requires id in st.tracks
    ensures var after := DroppedAll(cfg, st, ids);
            && st.emitted <= after.emitted && after.nextId == st.nextId && after.lastTime == st.lastTime
            && (id !in ids ==> id in after.tracks && after.tracks[id] == st.tracks[id])
            && (id in ids ==> id !in after.tracks && st.tracks[id] in after.emitted[|st.emitted|..])
            && (id in after.tracks ==> after.tracks[id] == st.tracks[id])
    decreases |ids|
  {
    if ids != [] {
      var front, last := ids[..|ids| - 1], ids[|ids| - 1];
      DroppedAllAt(cfg, st, front, id);
      assert ids == front + [last];
      var before, after := DroppedAll(cfg, st, front), DroppedAll(cfg, st, ids);
      if last in before.tracks {
        assert after.emitted[|st.emitted|..] == before.emitted[|st.emitted|..] + [before.tracks[last]];
      }
    }
  }

  lemma {:induction false} BornAllAt(st: State, boxes: seq<int>, taken: set<nat>, n: nat)
    requires n <= |boxes| && forall id | id in st.tracks :: id < st.nextId
    ensures var after := BornAll(st, boxes, taken, n);
            && after.emitted == st.emitted && after.lastTime == st.lastTime && st.nextId <= after.nextId
            && (forall id | id < st.nextId ::
                  (id in after.tracks <==> id in st.tracks) && (id in st.tracks ==> after.tracks[id] == st.tracks[id]))
            && (forall id | id in after.tracks :: id < after.nextId)
  {
    if n > 0 {
      BornAllAt(st, boxes, taken, n - 1);
    }
  }

  /** The unmatched boxes below n. */
  function FreeBelow(taken: set<nat>, n: nat): nat {
    if n == 0 then 0 else FreeBelow(taken, n - 1) + if n - 1 in taken then 0 else 1
  }

  lemma {:induction false} BornOf(st: State, boxes: seq<int>, taken: set<nat>, n: nat, d: nat)
    requires d < n <= |boxes| && d !in taken && forall id | id in st.tracks :: id < st.nextId
    ensures var after, id := BornAll(st, boxes, taken, n), st.nextId + FreeBelow(taken, d);
            && id < after.nextId == st.nextId + FreeBelow(taken, n)
            && id in after.tracks && after.tracks[id] == Person(id, 1, 0, boxes[d], 0)
  {
    if d < n - 1 {
      BornOf(st, boxes, taken, n - 1, d);
    } else {
      BornNext(st, boxes, taken, d);
    }
  }

  lemma {:induction false} BornNext(st: State, boxes: seq<int>, taken: set<nat>, n: nat)
    requires n <= |boxes|
    ensures BornAll(st, boxes, taken, n).nextId == st.nextId + FreeBelow(taken, n)
  {
    if n > 0 {
      BornNext(st, boxes, taken, n - 1);
    }
  }

  /** What refreshing and ageing make of a track, and whether it is to leave. */
  ghost predicate AgedIs(cfg: Config, st: State, f: Frame, aged: State, ids: seq<nat>, id: nat)
    requires Matching(st, f) && id in st.tracks
  {
    var p, dt := st.tracks[id], Elapsed(st, f.time);
    && id in aged.tracks && aged.nextId == st.nextId && aged.emitted == st.emitted && aged.lastTime == f.time
    && (forall k | 0 <= k < |f.matches| && f.matches[k].0 == id ::
          id !in ids && aged.tracks[id] == Seen(cfg, p, Boxes(f.detections)[f.matches[k].1], dt))
    && ((forall k | 0 <= k < |f.matches| :: f.matches[k].0 != id) ==>
          aged.tracks[id] == Unseen(p) && (id in ids <==> Overdue(cfg, Unseen(p))))
  }

  lemma AgedAt(cfg: Config, st: State, f: Frame, id: nat)
    requires Matching(st, f) && id in st.tracks && id < st.nextId
    ensures AgedIs(cfg, st, f, AfterAgeing(cfg, st, f), Leaving(cfg, st, f), id)
  {
    var boxes, dt := Boxes(f.detections), Elapsed(st, f.time);
    var seen := Refreshed(cfg, st.tracks, boxes, f.matches, dt, |f.matches|);
    RefreshedAt(cfg, st.tracks, boxes, f.matches, dt, |f.matches|, id);
    ToRemoveMembers(cfg, seen, MatchedIds(f.matches), st.nextId);
    forall k | 0 <= k < |f.matches|
      ensures f.matches[k].0 in MatchedIds(f.matches)
    {
    }
  }

  ghost predicate IdsBelow(st: State) {
    forall id | id in st.tracks :: id < st.nextId
  }

  lemma {:induction false} DroppedAllIds(cfg: Config, st: State, ids: seq<nat>)
    requires IdsBelow(st)
    ensures IdsBelow(DroppedAll(cfg, st, ids)) && DroppedAll(cfg, st, ids).nextId == st.nextId
    decreases |ids|
  {
    if ids != [] {
      DroppedAllIds(cfg, st, ids[..|ids| - 1]);
    }
  }

  /** What dropping and the new tracks leave of a track. */
  ghost predicate DroppedIs(st: State, ids: seq<nat>, after: State, id: nat)
    requires id in st.tracks
  {
    && st.emitted <= after.emitted && after.lastTime == st.lastTime
    && (id !in ids ==> id in after.tracks && after.tracks[id] == st.tracks[id])
    && (id in ids ==> id !in after.tracks && st.tracks[id] in after.emitted[|st.emitted|..])
  }

  lemma DropsAndBirths(cfg: Config, st: State, ids: seq<nat>, boxes: seq<int>, taken: set<nat>, id: nat)
    requires IdsBelow(st) && id in st.tracks
    ensures DroppedIs(st, ids, BornAll(DroppedAll(cfg, st, ids), boxes, taken, |boxes|), id)
  {
    DroppedAllIds(cfg, st, ids);
    DroppedAllAt(cfg, st, ids, id);
    BornAllAt(DroppedAll(cfg, st, ids), boxes, taken, |boxes|);
  }

  /** What a frame f does to the track p: matched, it is one frame older, found,
      and on its box; unmatched, it is lost for one frame more, and reported and
      dropped exactly when that is over its limit: the one for edges when it was
      lost at an edge, the one for the middle otherwise. */
  ghost predicate Meets(cfg: Config, st: State, f: Frame, st': State, id: nat)
    requires Matching(st, f) && id in st.tracks && st.emitted <= st'.emitted
  {
    var p, dt := st.tracks[id], if st.lastTime > 0.0 then f.time - st.lastTime else 0.0;
    && (forall k | 0 <= k < |f.matches| && f.matches[k].0 == id ::
          var box := Boxes(f.detections)[f.matches[k].1];
          id in st'.tracks && st'.tracks[id] == Person(p.id, p.frames + 1, 0, box, cfg.moved(p, box, dt)))
    && ((forall k | 0 <= k < |f.matches| :: f.matches[k].0 != id) ==>
          var q := p.(lost := p.lost + 1);
          if (cfg.edgeLoss(q) && q.lost > cfg.maxLostEdge) || (!cfg.edgeLoss(q) && q.lost > cfg.maxLostCenter)
          then id !in st'.tracks && q in st'.emitted[|st.emitted|..]
          else id in st'.tracks && st'.tracks[id] == q)
  }

  lemma MeetsFrom(cfg: Config, st: State, f: Frame, aged: State, ids: seq<nat>, st': State, id: nat)
    requires Matching(st, f) && id in st.tracks && AgedIs(cfg, st, f, aged, ids, id) && DroppedIs(aged, ids, st', id)
    ensures st.emitted <= st'.emitted && st'.lastTime == f.time && Meets(cfg, st, f, st', id)
  {
  }

  lemma TrackExact(cfg: Config, st: State, f: Frame, id: nat)
    requires Balanced(cfg, st) && Matching(st, f) && id in st.tracks
    ensures var st' := AfterFrame(cfg, st, f);
            st.emitted <= st'.emitted && st'.lastTime == f.time && Meets(cfg, st, f, st', id)
  {
    var aged, ids := AfterAgeing(cfg, st, f), Leaving(cfg, st, f);
    AgedAt(cfg, st, f, id);
    assert IdsBelow(st) && aged.tracks.Keys == st.tracks.Keys;
    DropsAndBirths(cfg, aged, ids, Boxes(f.detections), MatchedBoxes(f.matches), id);
    MeetsFrom(cfg, st, f, aged, ids, AfterFrame(cfg, st, f), id);
  }

  /** Every unmatched person begins a track of its own, under the next ids in
      the order of the detections. */
  lemma NewcomerExact(cfg: Config, st: State, f: Frame, d: nat)
    requires Balanced(cfg, st) && Matching(st, f) && d < |Boxes(f.detections)|
    requires forall k | 0 <= k < |f.matches| :: f.matches[k].1 != d
    ensures var boxes, id := Boxes(f.detections), st.nextId + FreeBelow(MatchedBoxes(f.matches), d);
            id in AfterFrame(cfg, st, f).tracks && AfterFrame(cfg, st, f).tracks[id] == Person(id, 1, 0, boxes[d], 0)
  {
    var aged := AfterAgeing(cfg, st, f);
    assert IdsBelow(st) && aged.tracks.Keys == st.tracks.Keys;
    BirthAfterDrops(cfg, aged, Leaving(cfg, st, f), Boxes(f.detections), MatchedBoxes(f.matches), d);
  }

  lemma BirthAfterDrops(cfg: Config, st: State, ids: seq<nat>, boxes: seq<int>, taken: set<nat>, d: nat)
    requires IdsBelow(st) && d < |boxes| && d !in taken
    ensures var after, id := BornAll(DroppedAll(cfg, st, ids), boxes, taken, |boxes|), st.nextId + FreeBelow(taken, d);
            id in after.tracks && after.tracks[id] == Person(id, 1, 0, boxes[d], 0)
  {
    DroppedAllIds(cfg, st, ids);
    BornOf(DroppedAll(cfg, st, ids), boxes, taken, |boxes|, d);
  }

  ghost predicate WithinLimit(cfg: Config, p: Person) {
    p.lost == 0 || p.lost <= (if cfg.edgeLoss(p) then cfg.maxLostEdge else cfg.maxLostCenter)
  }

  /** In every run: a live track is found or within the limit of its kind. */
  lemma LostWithinLimit(cfg: Config, frames: seq<Frame>, sts: seq<State>, k: nat, id: nat)
    requires Runs(cfg, frames, sts) && k <= |frames| && id in sts[k].tracks
    ensures WithinLimit(cfg, sts[k].tracks[id])
  {
    if k > 0 {
      RunBalanced(cfg, frames, sts, k - 1);
      StepWithinLimit(cfg, sts[k - 1], frames[k - 1], sts[k], id);
    }
  }

  /** Whatever its count was before, the frame leaves it within its limit. */
  lemma StepWithinLimit(cfg: Config, st: State, f: Frame, st': State, id: nat)
    requires Balanced(cfg, st) && Matching(st, f) && st' == AfterFrame(cfg, st, f) && id in st'.tracks
    ensures WithinLimit(cfg, st'.tracks[id])
  {
    if id in st.tracks {
      TrackExact(cfg, st, f, id);
    } else {
      NewTrackLost(cfg, st, f, id);
    }
  }

  lemma NewTrackLost(cfg: Config, st: State, f: Frame, id: nat)
    requires Balanced(cfg, st) && Matching(st, f) && id !in st.tracks && id in AfterFrame(cfg, st, f).tracks
    ensures AfterFrame(cfg, st, f).tracks[id].lost == 0
  {
    var boxes, aged, ids := Boxes(f.detections), AfterAgeing(cfg, st, f), Leaving(cfg, st, f);
    DroppedNone(cfg, aged, ids, id);
    BornLost(DroppedAll(cfg, aged, ids), boxes, MatchedBoxes(f.matches), |boxes|, id);
  }

  lemma {:induction false} DroppedNone(cfg: Config, st: State, ids: seq<nat>, id: nat)
    requires id !in st.tracks
    ensures id !in DroppedAll(cfg, st, ids).tracks
    decreases |ids|
  {
    if ids != [] {
      DroppedNone(cfg, st, ids[..|ids| - 1], id);
    }
  }

  lemma {:induction false} BornLost(st: State, boxes: seq<int>, taken: set<nat>, n: nat, id: nat)
    requires n <= |boxes| && id !in st.tracks && id in BornAll(st, boxes, taken, n).tracks
    ensures BornAll(st, boxes, taken, n).tracks[id].lost == 0
  {
    if n > 0 && id in BornAll(st, boxes, taken, n - 1).tracks {
      BornLost(st, boxes, taken, n - 1, id);
    }
  }
}
