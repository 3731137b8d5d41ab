/** Greedy matching with priorities, as both passes of `Tracker::update` do it:
    the tracks choose in turn, each takes the free detection with the largest
    gain above a threshold, the first of equals. */
module GreedyMatching {
  import opened Wrappers

  /** of[i] is the detection of track i or -1. */
  datatype Match = Match(of: seq<int>, used: seq<bool>)

  /** The gain of each detection for one track; None when it must not match. */
  type Row = seq<Option<real>>

  ghost predicate Fit(rows: seq<Row>, m: Match) {
    && |rows| == |m.of|
    && (forall i | 0 <= i < |rows| :: |rows[i]| == |m.used|)
    && (forall i | 0 <= i < |m.of| :: -1 <= m.of[i] < |m.used|)
  }

  /** The inner loop over the first n detections. */
  function Pick(row: Row, used: seq<bool>, thr: real, n: nat): (best: int)
    requires n <= |row| == |used|
    ensures -1 <= best < n && (best >= 0 ==> row[best].Some? && !used[best])
  {
    if n == 0 then -1
    else
      var best := Pick(row, used, thr, n - 1);
      if !used[n - 1] && row[n - 1].Some? && row[n - 1].value > (if best < 0 then thr else row[best].value)
      then n - 1 else best
  }

  method PickBest(row: Row, used: seq<bool>, thr: real) returns (best: int)
    requires |row| == |used|
    ensures best == Pick(row, used, thr, |row|)
  {
    var bestGain := thr;
    best := -1;
    var d := 0;
    while d < |row|
      invariant d <= |row| && best == Pick(row, used, thr, d)
      invariant bestGain == if best < 0 then thr else row[best].value
    {
      if !used[d] && row[d].Some? && row[d].value > bestGain {
        bestGain := row[d].value;
        best := d;
      }
      d := d + 1;
    }
  }

  function Assign(m: Match, i: nat, d: int): Match
    requires i < |m.of| && d < |m.used|
  {
    if d >= 0 then Match(m.of[i := d], m.used[d := true]) else m
  }

  /** One pass over the tracks in the order `ranked`. */
  function Greedy(rows: seq<Row>, ranked: seq<nat>, thr: real, m: Match): (r: Match)
    requires Fit(rows, m) && forall q | 0 <= q < |ranked| :: ranked[q] < |rows|
    ensures Fit(rows, r) && |r.used| == |m.used|
    decreases |ranked|
  {
    if ranked == [] then m
    else
      var i := ranked[|ranked| - 1];
      var before := Greedy(rows, ranked[..|ranked| - 1], thr, m);
      Assign(before, i, Pick(rows[i], before.used, thr, |rows[i]|))
  }

  method RunPass(rows: seq<Row>, ranked: seq<nat>, thr: real, start: Match) returns (m: Match)
    requires Fit(rows, start) && forall q | 0 <= q < |ranked| :: ranked[q] < |rows|
    ensures m == Greedy(rows, ranked, thr, start)
  {
    m := start;
    var q := 0;
    while q < |ranked|
      invariant q <= |ranked| && m == Greedy(rows, ranked[..q], thr, start)
    {
      var i := ranked[q];
      var best := PickBest(rows[i], m.used, thr);
      assert ranked[..q + 1][..q] == ranked[..q];
      m := Assign(m, i, best);
      q := q + 1;
    }
    assert ranked[..q] == ranked;
  }

  // ---- What the passes promise ----

  /** d would be a better choice than b. */
  predicate Better(row: Row, d: nat, b: int, thr: real)
    requires d < |row| && row[d].Some? && b < |row| && (b >= 0 ==> row[b].Some?)
  {
    if b < 0 then row[d].value > thr
    else row[d].value > row[b].value || (row[d].value == row[b].value && d < b)
  }

  lemma {:induction false} PickIsBest(row: Row, used: seq<bool>, thr: real, n: nat)
    requires n <= |row| == |used|
    ensures var b := Pick(row, used, thr, n);
            && (b >= 0 ==> row[b].value > thr)
            && forall d | 0 <= d < n && row[d].Some? && Better(row, d, b, thr) :: used[d]
  {
    if n > 0 {
      PickIsBest(row, used, thr, n - 1);
    }
  }

  /** d went to a track of an earlier rank. */
  ghost predicate Earlier(ranked: seq<nat>, r: nat, of: seq<int>, d: int) {
    exists q | 0 <= q < r && q < |ranked| :: ranked[q] < |of| && of[ranked[q]] == d
  }

  /** The track of rank r has the best detection that no earlier rank took. */
  ghost predicate Stable(rows: seq<Row>, ranked: seq<nat>, thr: real, used: seq<bool>, of: seq<int>, r: nat)
    requires r < |ranked| && ranked[r] < |rows| == |of|
  {
    var row, b := rows[ranked[r]], of[ranked[r]];
    && b < |row| == |used|
    && (b >= 0 ==> row[b].Some? && row[b].value > thr && !used[b] && !Earlier(ranked, r, of, b))
    && forall d | 0 <= d < |row| && row[d].Some? && Better(row, d, b, thr) :: used[d] || Earlier(ranked, r, of, d)
  }

  ghost predicate Turns(ranked: seq<nat>, n: nat, of: seq<int>) {
    && (forall q | 0 <= q < |ranked| :: ranked[q] < n && n == |of| && of[ranked[q]] == -1)
    && (forall p, q | 0 <= p < q < |ranked| :: ranked[p] != ranked[q])
  }

  ghost predicate UsedIff(ranked: seq<nat>, start: Match, m: Match) {
    |m.used| == |start.used| &&
    forall d | 0 <= d < |m.used| :: m.used[d] <==> start.used[d] || Earlier(ranked, |ranked|, m.of, d)
  }

  lemma EarlierKept(ranked: seq<nat>, r: nat, of: seq<int>, i: nat, b: int, d: int)
    requires r < |ranked| && i < |of| && forall q | 0 <= q < r :: ranked[q] != i
    ensures Earlier(ranked[..|ranked| - 1], r, of, d) <==> Earlier(ranked, r, of[i := b], d)
  {
    var front := ranked[..|ranked| - 1];
    if Earlier(front, r, of, d) {
      var q :| 0 <= q < r && q < |front| && front[q] < |of| && of[front[q]] == d;
      assert ranked[q] == front[q];
    }
    if Earlier(ranked, r, of[i := b], d) {
      var q :| 0 <= q < r && q < |ranked| && ranked[q] < |of| && of[i := b][ranked[q]] == d;
      assert front[q] == ranked[q];
    }
  }

  /** Every track gets its best choice among what earlier ranks left. */
  lemma {:induction false} GreedyStable(rows: seq<Row>, ranked: seq<nat>, thr: real, start: Match)
    requires Fit(rows, start) && Turns(ranked, |rows|, start.of)
    ensures var m := Greedy(rows, ranked, thr, start);
            && (forall r | 0 <= r < |ranked| :: Stable(rows, ranked, thr, start.used, m.of, r))
            && (forall i | 0 <= i < |rows| && i !in ranked :: m.of[i] == start.of[i])
            && UsedIff(ranked, start, m)
    decreases |ranked|
  {
    if ranked != [] {
      var n := |ranked| - 1;
      var front := ranked[..n];
      var i := ranked[n];
      GreedyStable(rows, front, thr, start);
      var before := Greedy(rows, front, thr, start);
      var b := Pick(rows[i], before.used, thr, |rows[i]|);
      assert i !in front;
      LastTurn(rows, ranked, thr, start, before, b);
      forall r | 0 <= r < n
        ensures Stable(rows, ranked, thr, start.used, Assign(before, i, b).of, r)
      {
        TurnKept(rows, ranked, thr, start.used, before, i, b, r);
      }
    }
  }

  lemma TurnKept(rows: seq<Row>, ranked: seq<nat>, thr: real, used: seq<bool>, before: Match, i: nat, b: int, r: nat)
    requires r < |ranked| - 1 && i == ranked[|ranked| - 1] && Turns(ranked, |rows|, seq(|rows|, _ => -1))
    requires |before.of| == |rows| && b < |before.used|
    requires Stable(rows, ranked[..|ranked| - 1], thr, used, before.of, r)
    ensures Stable(rows, ranked, thr, used, Assign(before, i, b).of, r)
  {
    forall d: int
      ensures Earlier(ranked[..|ranked| - 1], r, before.of, d) <==> Earlier(ranked, r, Assign(before, i, b).of, d)
    {
      EarlierKept(ranked, r, before.of, i, if b >= 0 then b else before.of[i], d);
      assert before.of[i := before.of[i]] == before.of;
    }
  }

  lemma LastTurn(rows: seq<Row>, ranked: seq<nat>, thr: real, start: Match, before: Match, b: int)
    requires ranked != [] && Fit(rows, before) && Turns(ranked, |rows|, seq(|rows|, _ => -1))
    requires |before.used| == |start.used| && UsedIff(ranked[..|ranked| - 1], start, before)
    requires before.of[ranked[|ranked| - 1]] == -1
    requires b == Pick(rows[ranked[|ranked| - 1]], before.used, thr, |before.used|)
    ensures Stable(rows, ranked, thr, start.used, Assign(before, ranked[|ranked| - 1], b).of, |ranked| - 1)
    ensures UsedIff(ranked, start, Assign(before, ranked[|ranked| - 1], b))
  {
    var n := |ranked| - 1;
    var i := ranked[n];
    var after := Assign(before, i, b);
    PickIsBest(rows[i], before.used, thr, |before.used|);
    forall d: int
      ensures Earlier(ranked[..n], n, before.of, d) <==> Earlier(ranked, n, after.of, d)
    {
      EarlierKept(ranked, n, before.of, i, if b >= 0 then b else before.of[i], d);
      assert before.of[i := before.of[i]] == before.of;
    }
    forall d: nat | d < |after.used|
      ensures Earlier(ranked, n + 1, after.of, d) <==> Earlier(ranked, n, after.of, d) || after.of[i] == d
    {
      EarlierLast(ranked, after.of, d);
    }
  }

  lemma EarlierLast(ranked: seq<nat>, of: seq<int>, d: int)
    requires ranked != [] && ranked[|ranked| - 1] < |of|
    ensures Earlier(ranked, |ranked|, of, d) <==> Earlier(ranked, |ranked| - 1, of, d) || of[ranked[|ranked| - 1]] == d
  {
  }

  /** A better detection went to a track that was served before. */
  lemma Outbid(rows: seq<Row>, ranked: seq<nat>, thr: real, start: Match, m: Match, i: nat, d: nat)
      returns (q: nat, r: nat)
    requires Fit(rows, start) && Turns(ranked, |rows|, start.of) && m == Greedy(rows, ranked, thr, start)
    requires i in ranked && d < |start.used| && rows[i][d].Some? && !start.used[d]
    requires m.of[i] < 0 ==> rows[i][d].value > thr
    requires m.of[i] >= 0 && rows[i][m.of[i]].Some? ==> rows[i][d].value > rows[i][m.of[i]].value
    ensures q < r < |ranked| && ranked[r] == i && m.of[ranked[q]] == d
  {
    GreedyStable(rows, ranked, thr, start);
    r :| 0 <= r < |ranked| && ranked[r] == i;
    assert Stable(rows, ranked, thr, start.used, m.of, r);
    assert Better(rows[i], d, m.of[i], thr);
    q :| 0 <= q < r && m.of[ranked[q]] == d;
  }

  /** What a pass adds is allowed, above the threshold, and was free before. */
  lemma Served(rows: seq<Row>, ranked: seq<nat>, thr: real, start: Match, m: Match, i: nat)
    requires Fit(rows, start) && Turns(ranked, |rows|, start.of) && m == Greedy(rows, ranked, thr, start)
    requires i < |rows|
    ensures i !in ranked ==> m.of[i] == start.of[i]
    ensures i in ranked && m.of[i] >= 0 ==>
              !start.used[m.of[i]] && rows[i][m.of[i]].Some? && rows[i][m.of[i]].value > thr
  {
    GreedyStable(rows, ranked, thr, start);
    if i in ranked {
      var r :| 0 <= r < |ranked| && ranked[r] == i;
      assert Stable(rows, ranked, thr, start.used, m.of, r);
    }
  }

  /** The promise leaves no choice: whoever keeps it has the greedy matching. */
  lemma {:induction false} StableUnique(rows: seq<Row>, ranked: seq<nat>, thr: real, used: seq<bool>, a: seq<int>,
      b: seq<int>, r: nat)
    requires r <= |ranked| && |a| == |b| == |rows| && forall q | 0 <= q < |ranked| :: ranked[q] < |rows|
    requires forall i | 0 <= i < |rows| :: a[i] >= -1 && b[i] >= -1
    requires forall q | 0 <= q < |ranked| ::
               Stable(rows, ranked, thr, used, a, q) && Stable(rows, ranked, thr, used, b, q)
    ensures forall q | 0 <= q < r :: a[ranked[q]] == b[ranked[q]]
  {
    if r > 0 {
      StableUnique(rows, ranked, thr, used, a, b, r - 1);
      assert Stable(rows, ranked, thr, used, a, r - 1) && Stable(rows, ranked, thr, used, b, r - 1);
      assert a[ranked[r - 1]] == b[ranked[r - 1]];
    }
  }

  // ---- One to one ----

  ghost predicate OneToOne(m: Match) {
    && (forall i | 0 <= i < |m.of| :: -1 <= m.of[i] < |m.used|)
    && (forall i, j | 0 <= i < j < |m.of| :: m.of[i] >= 0 ==> m.of[i] != m.of[j])
    && (forall i | 0 <= i < |m.of| && m.of[i] >= 0 :: m.used[m.of[i]])
    && (forall d | 0 <= d < |m.used| && m.used[d] :: Taken(m.of, d))
  }

  ghost predicate Taken(of: seq<int>, d: int) {
    exists i | 0 <= i < |of| :: of[i] == d
  }

  lemma AssignOneToOne(m: Match, i: nat, d: int)
    requires OneToOne(m) && i < |m.of| && m.of[i] == -1 && -1 <= d < |m.used| && (d >= 0 ==> !m.used[d])
    ensures OneToOne(Assign(m, i, d))
  {
    var m' := Assign(m, i, d);
    forall e | 0 <= e < |m'.used| && m'.used[e]
      ensures Taken(m'.of, e)
    {
      if e != d {
        var j :| 0 <= j < |m.of| && m.of[j] == e;
        assert m'.of[j] == e;
      } else {
        assert m'.of[i] == d || Taken(m.of, e);
      }
    }
  }

  lemma {:induction false} GreedyOneToOne(rows: seq<Row>, ranked: seq<nat>, thr: real, start: Match)
    requires Fit(rows, start) && Turns(ranked, |rows|, start.of) && OneToOne(start)
    ensures OneToOne(Greedy(rows, ranked, thr, start))
    decreases |ranked|
  {
    if ranked != [] {
      var n := |ranked| - 1;
      GreedyOneToOne(rows, ranked[..n], thr, start);
      GreedyStable(rows, ranked[..n], thr, start);
      var before := Greedy(rows, ranked[..n], thr, start);
      assert ranked[n] !in ranked[..n];
      AssignOneToOne(before, ranked[n], Pick(rows[ranked[n]], before.used, thr, |before.used|));
    }
  }
}
