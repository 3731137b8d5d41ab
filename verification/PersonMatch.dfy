/** The matching of PersonTracker (matchDetections in person_tracker.cpp): two
    greedy passes over the tracks, older ones first. It yields a matching as the
    counters of Retail need it. */
module PersonMatching {
  import opened Wrappers
  import opened GreedyMatching
  import opened Retail

  /** How well a track, moved on by its velocity, fits a box. */
  datatype Gains = Gains(overlap: (Person, int) -> real, distance: (Person, int) -> real,
                         iouThreshold: real, distThreshold: real)

  function OverlapRows(g: Gains, people: seq<Person>, boxes: seq<int>): (rows: seq<Row>)
    ensures |rows| == |people| && forall i | 0 <= i < |rows| :: |rows[i]| == |boxes|
  {
    seq(|people|, i requires 0 <= i < |people| =>
      seq(|boxes|, d requires 0 <= d < |boxes| => Some(g.overlap(people[i], boxes[d]))))
  }

  function DistanceRows(g: Gains, people: seq<Person>, boxes: seq<int>): (rows: seq<Row>)
    ensures |rows| == |people| && forall i | 0 <= i < |rows| :: |rows[i]| == |boxes|
  {
    seq(|people|, i requires 0 <= i < |people| =>
      seq(|boxes|, d requires 0 <= d < |boxes| => Some(-g.distance(people[i], boxes[d]))))
  }

  function Start(tracks: nat, boxes: nat): Match {
    Match(seq(tracks, _ => -1), seq(boxes, _ => false))
  }

  function Everyone(n: nat): (r: seq<nat>)
    ensures |r| == n && forall i | 0 <= i < n :: r[i] == i
  {
    if n == 0 then [] else Everyone(n - 1) + [n - 1]
  }

  /** The tracks below n that pass 1 left, if lost for at most five frames. */
  function Late(people: seq<Person>, of: seq<int>, n: nat): (r: seq<nat>)
    requires n <= |people| == |of|
    ensures forall q | 0 <= q < |r| :: r[q] < n && of[r[q]] == -1 && people[r[q]].lost <= 5
    ensures forall p, q | 0 <= p < q < |r| :: r[p] < r[q]
  {
    if n == 0 then []
    else Late(people, of, n - 1) + if of[n - 1] == -1 && people[n - 1].lost <= 5 then [n - 1] else []
  }

  ghost predicate Sized(m: Match, people: seq<Person>, boxes: seq<int>) {
    |m.of| == |people| && |m.used| == |boxes| && forall i | 0 <= i < |people| :: -1 <= m.of[i] < |boxes|
  }

  function EarlyPass(rows: seq<Row>, boxes: nat, thr: real): (m: Match)
    requires forall i | 0 <= i < |rows| :: |rows[i]| == boxes
    ensures Fit(rows, m) && |m.used| == boxes
  {
    Greedy(rows, Everyone(|rows|), thr, Start(|rows|, boxes))
  }

  function FirstPass(g: Gains, people: seq<Person>, boxes: seq<int>): (m: Match)
    ensures Sized(m, people, boxes)
  {
    EarlyPass(OverlapRows(g, people, boxes), |boxes|, g.iouThreshold)
  }

  function LatePass(rows: seq<Row>, people: seq<Person>, m1: Match, thr: real): (m: Match)
    requires Fit(rows, m1) && |rows| == |people|
    ensures Fit(rows, m) && |m.used| == |m1.used|
  {
    Greedy(rows, Late(people, m1.of, |people|), thr, m1)
  }

  function BothPasses(g: Gains, people: seq<Person>, boxes: seq<int>): (m: Match)
    ensures Sized(m, people, boxes)
  {
    LatePass(DistanceRows(g, people, boxes), people, FirstPass(g, people, boxes), -g.distThreshold)
  }

  /** Those of the ranked tracks that the pass matched, in its order. */
  function Won(ranked: seq<nat>, before: seq<int>, after: seq<int>): (r: seq<nat>)
    requires |before| == |after| && forall q | 0 <= q < |ranked| :: ranked[q] < |after|
    ensures forall q | 0 <= q < |r| :: r[q] in ranked && before[r[q]] < 0 <= after[r[q]]
  {
    if ranked == [] then []
    else
      var i := ranked[|ranked| - 1];
      Won(ranked[..|ranked| - 1], before, after) + if before[i] < 0 <= after[i] then [i] else []
  }

  /** The tracks of the pairs pushed: those of pass 1, then those of pass 2. */
  function WonInTurn(all: seq<nat>, late: seq<nat>, none: seq<int>, of1: seq<int>, of2: seq<int>): (r: seq<nat>)
    requires |none| == |of1| == |of2|
    requires (forall q | 0 <= q < |all| :: all[q] < |of1|) && forall q | 0 <= q < |late| :: late[q] < |of2|
    ensures forall q | 0 <= q < |r| :: r[q] < |of2|
  {
    Won(all, none, of1) + Won(late, of1, of2)
  }

  function WinnersOf(people: seq<Person>, boxes: seq<int>, m1: Match, m2: Match): (r: seq<nat>)
    requires Sized(m1, people, boxes) && Sized(m2, people, boxes)
    ensures forall q | 0 <= q < |r| :: r[q] < |people|
  {
    WonInTurn(Everyone(|people|), Late(people, m1.of, |people|), Start(|people|, |boxes|).of, m1.of, m2.of)
  }

  function Winners(g: Gains, people: seq<Person>, boxes: seq<int>): (r: seq<nat>)
    ensures forall q | 0 <= q < |r| :: r[q] < |people|
  {
    WinnersOf(people, boxes, FirstPass(g, people, boxes), BothPasses(g, people, boxes))
  }

  function Pairs(people: seq<Person>, of: seq<int>, at: seq<nat>): (ms: seq<(nat, nat)>)
    requires |of| == |people| && forall q | 0 <= q < |at| :: at[q] < |people| && of[at[q]] >= 0
    ensures |ms| == |at| && forall q | 0 <= q < |at| :: ms[q] == (people[at[q]].id, of[at[q]])
  {
    seq(|at|, q requires 0 <= q < |at| => (people[at[q]].id, of[at[q]]))
  }

  ghost predicate Distinct(r: seq<nat>) {
    forall p, q | 0 <= p < q < |r| :: r[p] != r[q]
  }

  lemma {:induction false} WonDistinct(ranked: seq<nat>, before: seq<int>, after: seq<int>)
    requires |before| == |after| && (forall q | 0 <= q < |ranked| :: ranked[q] < |after|) && Distinct(ranked)
    ensures Distinct(Won(ranked, before, after))
    decreases |ranked|
  {
    if ranked != [] {
      WonDistinct(ranked[..|ranked| - 1], before, after);
    }
  }

  lemma EarlyServed(rows: seq<Row>, boxes: nat, thr: real, i: nat)
    requires i < |rows| && forall x | 0 <= x < |rows| :: |rows[x]| == boxes
    ensures var b := EarlyPass(rows, boxes, thr).of[i];
            b >= 0 ==> rows[i][b].Some? && rows[i][b].value > thr
  {
    assert Everyone(|rows|)[i] == i;
    Served(rows, Everyone(|rows|), thr, Start(|rows|, boxes), EarlyPass(rows, boxes, thr), i);
  }

  lemma FirstServed(g: Gains, people: seq<Person>, boxes: seq<int>, i: nat)
    requires i < |people|
    ensures var b := FirstPass(g, people, boxes).of[i];
            b >= 0 ==> g.overlap(people[i], boxes[b]) > g.iouThreshold
  {
    EarlyServed(OverlapRows(g, people, boxes), |boxes|, g.iouThreshold, i);
  }

  lemma LateServed(rows: seq<Row>, people: seq<Person>, m1: Match, thr: real, m2: Match, i: nat)
    requires Fit(rows, m1) && |rows| == |people| && i < |people| && m2 == LatePass(rows, people, m1, thr)
    ensures var b := m2.of[i];
            && (m1.of[i] >= 0 ==> b == m1.of[i])
            && (m1.of[i] < 0 && b >= 0 ==> people[i].lost <= 5 && rows[i][b].Some? && rows[i][b].value > thr)
  {
    Served(rows, Late(people, m1.of, |people|), thr, m1, m2, i);
  }

  lemma ServedByDistance(g: Gains, people: seq<Person>, boxes: seq<int>, m1: Match, i: nat)
    requires Sized(m1, people, boxes) && i < |people|
    ensures var b := LatePass(DistanceRows(g, people, boxes), people, m1, -g.distThreshold).of[i];
            && (m1.of[i] >= 0 ==> b == m1.of[i])
            && (m1.of[i] < 0 && b >= 0 ==> people[i].lost <= 5 && g.distance(people[i], boxes[b]) < g.distThreshold)
  {
    LateServed(DistanceRows(g, people, boxes), people, m1, -g.distThreshold,
               LatePass(DistanceRows(g, people, boxes), people, m1, -g.distThreshold), i);
  }

  /** A track gets a box in pass 1 only above the overlap threshold, in pass 2
      only within the distance threshold and if lost for at most five frames. */
  lemma MatchesAllowed(g: Gains, people: seq<Person>, boxes: seq<int>, i: nat)
    requires i < |people|
    ensures var b1, b := FirstPass(g, people, boxes).of[i], BothPasses(g, people, boxes).of[i];
            && (b1 >= 0 ==> b == b1 && g.overlap(people[i], boxes[b1]) > g.iouThreshold)
            && (b1 < 0 && b >= 0 ==> people[i].lost <= 5 && g.distance(people[i], boxes[b]) < g.distThreshold)
  {
    var m1 := FirstPass(g, people, boxes);
    assert BothPasses(g, people, boxes) == LatePass(DistanceRows(g, people, boxes), people, m1, -g.distThreshold);
    FirstServed(g, people, boxes, i);
    ServedByDistance(g, people, boxes, m1, i);
  }

  lemma EarlyOneToOne(rows: seq<Row>, boxes: nat, thr: real)
    requires forall x | 0 <= x < |rows| :: |rows[x]| == boxes
    ensures OneToOne(EarlyPass(rows, boxes, thr))
  {
    GreedyOneToOne(rows, Everyone(|rows|), thr, Start(|rows|, boxes));
  }

  lemma FirstPassOneToOne(g: Gains, people: seq<Person>, boxes: seq<int>)
    ensures OneToOne(FirstPass(g, people, boxes))
  {
    EarlyOneToOne(OverlapRows(g, people, boxes), |boxes|, g.iouThreshold);
  }

  lemma LateOneToOne(rows: seq<Row>, people: seq<Person>, m1: Match, thr: real, m2: Match)
    requires Fit(rows, m1) && OneToOne(m1) && |rows| == |people| && m2 == LatePass(rows, people, m1, thr)
    ensures OneToOne(m2) && forall i | 0 <= i < |people| && m1.of[i] >= 0 :: m2.of[i] == m1.of[i]
  {
    var late := Late(people, m1.of, |people|);
    GreedyOneToOne(rows, late, thr, m1);
    GreedyStable(rows, late, thr, m1);
  }

  /** m2 adds to m1, and neither matches a box or a track twice. */
  ghost predicate AddsTo(m1: Match, m2: Match) {
    |m2.of| == |m1.of| && OneToOne(m2) && forall i | 0 <= i < |m1.of| && m1.of[i] >= 0 :: m2.of[i] == m1.of[i]
  }

  lemma AddedByDistance(g: Gains, people: seq<Person>, boxes: seq<int>, m1: Match)
    requires Sized(m1, people, boxes) && OneToOne(m1)
    ensures AddsTo(m1, LatePass(DistanceRows(g, people, boxes), people, m1, -g.distThreshold))
  {
    LateOneToOne(DistanceRows(g, people, boxes), people, m1, -g.distThreshold,
                 LatePass(DistanceRows(g, people, boxes), people, m1, -g.distThreshold));
  }

  /** The second pass matches no box and no track twice, and keeps the first. */
  lemma BothPassesOneToOne(g: Gains, people: seq<Person>, boxes: seq<int>)
    ensures AddsTo(FirstPass(g, people, boxes), BothPasses(g, people, boxes))
  {
    FirstPassOneToOne(g, people, boxes);
    AddedByDistance(g, people, boxes, FirstPass(g, people, boxes));
  }

  lemma InTurnDistinct(all: seq<nat>, late: seq<nat>, none: seq<int>, of1: seq<int>, of2: seq<int>)
    requires |none| == |of1| == |of2| && Distinct(all) && Distinct(late)
    requires (forall q | 0 <= q < |all| :: all[q] < |of1|) && forall q | 0 <= q < |late| :: late[q] < |of2|
    requires forall i | 0 <= i < |of1| && of1[i] >= 0 :: of2[i] == of1[i]
    ensures var at := WonInTurn(all, late, none, of1, of2);
            Distinct(at) && forall q | 0 <= q < |at| :: of2[at[q]] >= 0
  {
    WonDistinct(all, none, of1);
    WonDistinct(late, of1, of2);
  }

  lemma WinnersAre(g: Gains, people: seq<Person>, boxes: seq<int>)
    ensures var at, of := Winners(g, people, boxes), BothPasses(g, people, boxes).of;
            Distinct(at) && forall q | 0 <= q < |at| :: of[at[q]] >= 0
  {
    var m1 := FirstPass(g, people, boxes);
    BothPassesOneToOne(g, people, boxes);
    InTurnDistinct(Everyone(|people|), Late(people, m1.of, |people|), Start(|people|, |boxes|).of, m1.of,
                   BothPasses(g, people, boxes).of);
  }

  function Matches(g: Gains, people: seq<Person>, boxes: seq<int>): seq<(nat, nat)> {
    if people == [] || boxes == [] then []
    else
      WinnersAre(g, people, boxes);
      Pairs(people, BothPasses(g, people, boxes).of, Winners(g, people, boxes))
  }

  method RunOverlapPass(g: Gains, people: seq<Person>, boxes: seq<int>) returns (m: Match)
    ensures m == FirstPass(g, people, boxes)
  {
    m := RunPass(OverlapRows(g, people, boxes), Everyone(|people|), g.iouThreshold, Start(|people|, |boxes|));
  }

  method RunDistancePass(g: Gains, people: seq<Person>, boxes: seq<int>, m1: Match) returns (m: Match)
    requires Sized(m1, people, boxes)
    ensures m == LatePass(DistanceRows(g, people, boxes), people, m1, -g.distThreshold)
  {
    m := RunPass(DistanceRows(g, people, boxes), Late(people, m1.of, |people|), -g.distThreshold, m1);
  }

  /** people: the live tracks in the order std::sort left them. */
  method MatchDetections(g: Gains, people: seq<Person>, boxes: seq<int>) returns (ms: seq<(nat, nat)>)
    ensures ms == Matches(g, people, boxes)
  {
    if people == [] || boxes == [] {
      return [];
    }
    WinnersAre(g, people, boxes);
    var m1 := RunOverlapPass(g, people, boxes);
    var m2 := RunDistancePass(g, people, boxes, m1);
    assert m2 == BothPasses(g, people, boxes);
    assert WinnersOf(people, boxes, m1, m2) == Winners(g, people, boxes);
    ms := Pairs(people, m2.of, WinnersOf(people, boxes, m1, m2));
  }

  lemma PairsOneToOne(people: seq<Person>, of: seq<int>, used: seq<bool>, at: seq<nat>)
    requires OneToOne(Match(of, used)) && |of| == |people| && Distinct(at)
    requires forall q | 0 <= q < |at| :: at[q] < |people| && of[at[q]] >= 0
    requires forall i, j | 0 <= i < j < |people| :: people[i].id != people[j].id
    ensures var ms := Pairs(people, of, at);
            && (forall k | 0 <= k < |ms| :: ms[k].1 < |used|)
            && forall k, l | 0 <= k < l < |ms| :: ms[k].0 != ms[l].0 && ms[k].1 != ms[l].1
  {
    var ms := Pairs(people, of, at);
    forall k, l | 0 <= k < l < |ms|
      ensures ms[k].0 != ms[l].0 && ms[k].1 != ms[l].1
    {
      assert at[k] < at[l] || at[l] < at[k];
    }
  }

  /** Whatever order the live tracks were sorted into, the two passes give a
      matching one to one between live tracks and persons, as Update needs. */
  lemma MatchesOneToOne(g: Gains, st: State, people: seq<Person>, ds: seq<Detection>, time: real)
    requires forall i | 0 <= i < |people| :: people[i].id in st.tracks
    requires forall i, j | 0 <= i < j < |people| :: people[i].id != people[j].id
    ensures Matching(st, Frame(ds, Matches(g, people, Boxes(ds)), time))
  {
    var boxes := Boxes(ds);
    if people != [] && boxes != [] {
      WinnersAre(g, people, boxes);
      BothPassesOneToOne(g, people, boxes);
      var m := BothPasses(g, people, boxes);
      PairsOneToOne(people, m.of, m.used, Winners(g, people, boxes));
    }
  }

  // ---- Nothing is left out ----

  lemma {:induction false} WonAll(ranked: seq<nat>, before: seq<int>, after: seq<int>, i: nat)
    requires |before| == |after| && forall q | 0 <= q < |ranked| :: ranked[q] < |after|
    requires i in ranked && before[i] < 0 <= after[i]
    ensures i in Won(ranked, before, after)
    decreases |ranked|
  {
    var front, last := ranked[..|ranked| - 1], ranked[|ranked| - 1];
    assert ranked == front + [last];
    if i != last {
      WonAll(front, before, after, i);
    }
  }

  lemma {:induction false} LateAll(people: seq<Person>, of: seq<int>, n: nat, i: nat)
    requires i < n <= |people| == |of| && of[i] == -1 && people[i].lost <= 5
    ensures i in Late(people, of, n)
  {
    if i < n - 1 {
      LateAll(people, of, n - 1, i);
    }
  }

  lemma InTurnAll(people: seq<Person>, boxes: seq<int>, m1: Match, m2: Match, i: nat)
    requires Sized(m1, people, boxes) && Sized(m2, people, boxes) && i < |people| && m2.of[i] >= 0
    requires m1.of[i] < 0 ==> people[i].lost <= 5
    ensures i in WinnersOf(people, boxes, m1, m2)
  {
    var none := Start(|people|, |boxes|).of;
    if m1.of[i] >= 0 {
      assert Everyone(|people|)[i] == i;
      WonAll(Everyone(|people|), none, m1.of, i);
    } else {
      LateAll(people, m1.of, |people|, i);
      WonAll(Late(people, m1.of, |people|), m1.of, m2.of, i);
    }
  }

  lemma PairsAll(people: seq<Person>, of: seq<int>, at: seq<nat>)
    requires |of| == |people| && forall q | 0 <= q < |at| :: at[q] < |people| && of[at[q]] >= 0
    requires forall i | 0 <= i < |people| && of[i] >= 0 :: i in at
    ensures Returned(people, of, Pairs(people, of, at))
  {
    var ms := Pairs(people, of, at);
    forall i | 0 <= i < |people| && of[i] >= 0
      ensures (people[i].id, of[i]) in ms
    {
      var q :| 0 <= q < |at| && at[q] == i;
      assert ms[q] == (people[i].id, of[i]);
    }
    forall m <- ms
      ensures Matched(people, of, m)
    {
      var k :| 0 <= k < |ms| && ms[k] == m;
      assert PairOf(people, of, at[k], m);
    }
  }

  /** The pair m is track i, which was matched, with its box. */
  ghost predicate PairOf(people: seq<Person>, of: seq<int>, i: int, m: (nat, nat))
    requires |of| == |people|
  {
    0 <= i < |people| && of[i] >= 0 && m == (people[i].id, of[i])
  }

  ghost predicate Matched(people: seq<Person>, of: seq<int>, m: (nat, nat))
    requires |of| == |people|
  {
    exists i :: PairOf(people, of, i, m)
  }

  /** ms pairs each matched track with its box, and nothing else. */
  ghost predicate Returned(people: seq<Person>, of: seq<int>, ms: seq<(nat, nat)>)
    requires |of| == |people|
  {
    && (forall i | 0 <= i < |people| && of[i] >= 0 :: (people[i].id, of[i]) in ms)
    && (forall m <- ms :: Matched(people, of, m))
  }

  lemma WinnersAll(people: seq<Person>, boxes: seq<int>, m1: Match, m2: Match)
    requires Sized(m1, people, boxes) && Sized(m2, people, boxes)
    requires forall i | 0 <= i < |people| && m1.of[i] < 0 <= m2.of[i] :: people[i].lost <= 5
    ensures forall i | 0 <= i < |people| && m2.of[i] >= 0 :: i in WinnersOf(people, boxes, m1, m2)
  {
    forall i | 0 <= i < |people| && m2.of[i] >= 0
      ensures i in WinnersOf(people, boxes, m1, m2)
    {
      InTurnAll(people, boxes, m1, m2, i);
    }
  }

  lemma LateWinnersRecent(g: Gains, people: seq<Person>, boxes: seq<int>, m1: Match, m2: Match)
    requires m1 == FirstPass(g, people, boxes) && m2 == BothPasses(g, people, boxes)
    ensures forall i | 0 <= i < |people| && m1.of[i] < 0 <= m2.of[i] :: people[i].lost <= 5
  {
    forall i | 0 <= i < |people| && m1.of[i] < 0 <= m2.of[i]
      ensures people[i].lost <= 5
    {
      MatchesAllowed(g, people, boxes, i);
    }
  }

  /** The pairs returned are the matched tracks with their boxes: each of them,
      and no others. */
  lemma EveryMatchReturned(g: Gains, people: seq<Person>, boxes: seq<int>)
    ensures Returned(people, BothPasses(g, people, boxes).of, Matches(g, people, boxes))
  {
    if people != [] && boxes != [] {
      var m1, m2 := FirstPass(g, people, boxes), BothPasses(g, people, boxes);
      WinnersAre(g, people, boxes);
      LateWinnersRecent(g, people, boxes, m1, m2);
      WinnersAll(people, boxes, m1, m2);
      PairsAll(people, m2.of, WinnersOf(people, boxes, m1, m2));
    }
  }

  /** One pass over tracks in rising order: a box with a larger gain than what
      track i got went to a track before it. */
  lemma PassOutbid(rows: seq<Row>, ranked: seq<nat>, thr: real, start: Match, m: Match, i: nat, d: nat)
      returns (j: nat)
    requires Fit(rows, start) && Turns(ranked, |rows|, start.of) && m == Greedy(rows, ranked, thr, start)
    requires forall p, q | 0 <= p < q < |ranked| :: ranked[p] < ranked[q]
    requires i in ranked && d < |start.used| && rows[i][d].Some? && !start.used[d]
    requires m.of[i] < 0 ==> rows[i][d].value > thr
    requires m.of[i] >= 0 && rows[i][m.of[i]].Some? ==> rows[i][d].value > rows[i][m.of[i]].value
    ensures j < i < |m.of| && m.of[j] == d
  {
    var q, r := Outbid(rows, ranked, thr, start, m, i, d);
    j := ranked[q];
  }

  lemma EarlyOutbid(rows: seq<Row>, boxes: nat, thr: real, m: Match, i: nat, d: nat) returns (j: nat)
    requires (forall x | 0 <= x < |rows| :: |rows[x]| == boxes) && m == EarlyPass(rows, boxes, thr)
    requires i < |rows| && d < boxes && rows[i][d].Some?
    requires m.of[i] < 0 ==> rows[i][d].value > thr
    requires m.of[i] >= 0 && rows[i][m.of[i]].Some? ==> rows[i][d].value > rows[i][m.of[i]].value
    ensures j < i && m.of[j] == d
  {
    assert Everyone(|rows|)[i] == i;
    j := PassOutbid(rows, Everyone(|rows|), thr, Start(|rows|, boxes), m, i, d);
  }

  /** Pass 1 serves the tracks in the order given: a box that would overlap a
      track more than its own went to a track served before. */
  lemma FirstPassStable(g: Gains, people: seq<Person>, boxes: seq<int>, i: nat, d: nat) returns (j: nat)
    requires i < |people| && d < |boxes|
    requires var b := FirstPass(g, people, boxes).of[i];
             g.overlap(people[i], boxes[d]) > if b < 0 then g.iouThreshold else g.overlap(people[i], boxes[b])
    ensures j < i && FirstPass(g, people, boxes).of[j] == d
  {
    j := EarlyOutbid(OverlapRows(g, people, boxes), |boxes|, g.iouThreshold, FirstPass(g, people, boxes), i, d);
  }

  lemma LateOutbid(rows: seq<Row>, people: seq<Person>, m1: Match, thr: real, m2: Match, i: nat, d: nat)
      returns (j: nat)
    requires Fit(rows, m1) && |rows| == |people| && i < |people| && m2 == LatePass(rows, people, m1, thr)
    requires m1.of[i] == -1 && people[i].lost <= 5 && d < |m1.used| && !m1.used[d] && rows[i][d].Some?
    requires m2.of[i] < 0 ==> rows[i][d].value > thr
    requires m2.of[i] >= 0 && rows[i][m2.of[i]].Some? ==> rows[i][d].value > rows[i][m2.of[i]].value
    ensures j < i && m2.of[j] == d
  {
    LateAll(people, m1.of, |people|, i);
    j := PassOutbid(rows, Late(people, m1.of, |people|), thr, m1, m2, i, d);
  }

  /** Pass 2 the same by distance, over the boxes pass 1 left, for the tracks it
      left that were lost for at most five frames. */
  lemma LatePassStable(g: Gains, people: seq<Person>, boxes: seq<int>, i: nat, d: nat) returns (j: nat)
    requires i < |people| && d < |boxes|
    requires var m1 := FirstPass(g, people, boxes);
             m1.of[i] == -1 && people[i].lost <= 5 && !m1.used[d]
    requires var b := BothPasses(g, people, boxes).of[i];
             g.distance(people[i], boxes[d]) < if b < 0 then g.distThreshold else g.distance(people[i], boxes[b])
    ensures j < i && BothPasses(g, people, boxes).of[j] == d
  {
    j := LateOutbid(DistanceRows(g, people, boxes), people, FirstPass(g, people, boxes), -g.distThreshold,
                    BothPasses(g, people, boxes), i, d);
  }
}
