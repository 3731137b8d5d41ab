/** Non-maximum suppression (backends/rknn/detector.py, _nms). The order is
    what argsort and its reversal return: the indices by falling score, equal
    scores in any order. */
module Suppression {
  import T = Trackers
  import TrackerGains

  datatype Box = Box(x1: real, y1: real, x2: real, y2: real)

  function Max(a: real, b: real): real { if a < b then b else a }

  function Min(a: real, b: real): real { if b < a then b else a }

  function Area(b: Box): real {
    Max(0.0, b.x2 - b.x1) * Max(0.0, b.y2 - b.y1)
  }

  function Inter(a: Box, b: Box): real {
    Max(0.0, Min(a.x2, b.x2) - Max(a.x1, b.x1)) * Max(0.0, Min(a.y2, b.y2) - Max(a.y1, b.y1))
  }

  function Ratio(inter: real, union: real): real {
    inter / Max(union, 0.000000001)
  }

  function Iou(a: Box, b: Box): real {
    Ratio(Inter(a, b), Area(a) + Area(b) - Inter(a, b))
  }

  predicate Overlaps(boxes: seq<Box>, i: nat, j: nat, thr: real) {
    i < |boxes| && j < |boxes| && Iou(boxes[i], boxes[j]) > thr
  }

  lemma OverlapsEitherWay(boxes: seq<Box>, i: nat, j: nat, thr: real)
    ensures Overlaps(boxes, i, j, thr) == Overlaps(boxes, j, i, thr)
  {
    if i < |boxes| && j < |boxes| {
      var a, b := boxes[i], boxes[j];
      assert Min(a.x2, b.x2) == Min(b.x2, a.x2) && Max(a.x1, b.x1) == Max(b.x1, a.x1);
      assert Min(a.y2, b.y2) == Min(b.y2, a.y2) && Max(a.y1, b.y1) == Max(b.y1, a.y1);
    }
  }

  /** rest[iou <= threshold] */
  function Spared(boxes: seq<Box>, i: nat, rest: seq<nat>, thr: real): (r: seq<nat>)
    ensures |r| <= |rest| && forall x | x in r :: x in rest && !Overlaps(boxes, i, x, thr)
  {
    if rest == [] then []
    else
      var last := rest[|rest| - 1];
      Spared(boxes, i, rest[..|rest| - 1], thr) + if Overlaps(boxes, i, last, thr) then [] else [last]
  }

  function Kept(boxes: seq<Box>, order: seq<nat>, thr: real): (keep: seq<nat>)
    ensures forall x | x in keep :: x in order
    decreases |order|
  {
    if order == [] then []
    else [order[0]] + Kept(boxes, Spared(boxes, order[0], order[1..], thr), thr)
  }

  method Nms(boxes: seq<Box>, order: seq<nat>, thr: real) returns (keep: seq<nat>)
    requires forall k | 0 <= k < |order| :: order[k] < |boxes|
    ensures keep == Kept(boxes, order, thr)
  {
    keep := [];
    var left := order;
    assert [] + Kept(boxes, order, thr) == Kept(boxes, order, thr);
    while left != []
      invariant keep + Kept(boxes, left, thr) == Kept(boxes, order, thr)
      decreases |left|
    {
      var i := left[0];
      assert keep + ([i] + Kept(boxes, Spared(boxes, i, left[1..], thr), thr)) ==
             (keep + [i]) + Kept(boxes, Spared(boxes, i, left[1..], thr), thr);
      keep := keep + [i];
      if |left| == 1 {
        assert left[1..] == [] && keep + [] == keep;
        break;
      }
      left := Spared(boxes, i, left[1..], thr);
    }
    assert keep + [] == keep;
  }

  // ---- What is kept ----

  ghost predicate NoRepeat(s: seq<nat>) {
    forall i, j | 0 <= i < j < |s| :: s[i] != s[j]
  }

  /** What is spared stands in the same order as before. */
  lemma {:induction false} SparedOrder(boxes: seq<Box>, i: nat, rest: seq<nat>, thr: real, a: nat, b: nat)
      returns (p: nat, q: nat)
    requires a < b < |Spared(boxes, i, rest, thr)|
    ensures p < q < |rest| && rest[p] == Spared(boxes, i, rest, thr)[a] && rest[q] == Spared(boxes, i, rest, thr)[b]
    decreases |rest|
  {
    var n := |rest| - 1;
    var front := Spared(boxes, i, rest[..n], thr);
    if b < |front| {
      p, q := SparedOrder(boxes, i, rest[..n], thr, a, b);
    } else {
      assert front[a] in rest[..n];
      p :| 0 <= p < n && rest[..n][p] == front[a];
      q := n;
    }
  }

  lemma {:induction false} SparedAll(boxes: seq<Box>, i: nat, rest: seq<nat>, thr: real, x: nat)
    requires x in rest && !Overlaps(boxes, i, x, thr)
    ensures x in Spared(boxes, i, rest, thr)
    decreases |rest|
  {
    var n := |rest| - 1;
    if x != rest[n] {
      assert x in rest[..n] by {
        var k :| 0 <= k < |rest| && rest[k] == x;
        assert rest[..n][k] == x;
      }
      SparedAll(boxes, i, rest[..n], thr, x);
    }
  }

  lemma SparedNoRepeat(boxes: seq<Box>, i: nat, rest: seq<nat>, thr: real)
    requires NoRepeat(rest)
    ensures NoRepeat(Spared(boxes, i, rest, thr))
  {
    var r := Spared(boxes, i, rest, thr);
    forall a, b | 0 <= a < b < |r|
      ensures r[a] != r[b]
    {
      var p, q := SparedOrder(boxes, i, rest, thr, a, b);
    }
  }

  /** The kept boxes are a subsequence of the order: no repeats, falling scores. */
  lemma {:induction false} KeptInOrder(boxes: seq<Box>, order: seq<nat>, thr: real, a: nat, b: nat)
      returns (p: nat, q: nat)
    requires a < b < |Kept(boxes, order, thr)|
    ensures p < q < |order| && order[p] == Kept(boxes, order, thr)[a] && order[q] == Kept(boxes, order, thr)[b]
    decreases |order|
  {
    if a == 0 {
      p := 0;
      q := KeptBehindFirst(boxes, order, thr, b);
    } else {
      var c, d := KeptInOrder(boxes, Spared(boxes, order[0], order[1..], thr), thr, a - 1, b - 1);
      p, q := SparedOrder(boxes, order[0], order[1..], thr, c, d);
      p, q := p + 1, q + 1;
    }
  }

  lemma KeptBehindFirst(boxes: seq<Box>, order: seq<nat>, thr: real, b: nat) returns (q: nat)
    requires 0 < b < |Kept(boxes, order, thr)|
    ensures 0 < q < |order| && order[q] == Kept(boxes, order, thr)[b]
  {
    var spared := Spared(boxes, order[0], order[1..], thr);
    var x := Kept(boxes, spared, thr)[b - 1];
    assert x in spared && x in order[1..];
    var k :| 0 <= k < |order[1..]| && order[1..][k] == x;
    q := k + 1;
  }

  /** No two kept boxes overlap by more than the threshold. */
  lemma {:induction false} KeptApart(boxes: seq<Box>, order: seq<nat>, thr: real, a: nat, b: nat)
    requires a < |Kept(boxes, order, thr)| && b < |Kept(boxes, order, thr)| && a != b
    ensures !Overlaps(boxes, Kept(boxes, order, thr)[a], Kept(boxes, order, thr)[b], thr)
    decreases |order|
  {
    var keep := Kept(boxes, order, thr);
    var spared := Spared(boxes, order[0], order[1..], thr);
    if a > 0 && b > 0 {
      KeptApart(boxes, spared, thr, a - 1, b - 1);
    } else {
      var c := if a == 0 then b else a;
      assert keep[c] == Kept(boxes, spared, thr)[c - 1] && keep[c] in spared;
      OverlapsEitherWay(boxes, keep[a], keep[b], thr);
    }
  }

  lemma OnePosition(order: seq<nat>, p: nat, q: nat)
    requires NoRepeat(order) && p < |order| && q < |order| && order[p] == order[q]
    ensures p == q
  {
  }

  lemma KeptUnfolds(boxes: seq<Box>, order: seq<nat>, thr: real, x: nat)
    requires order != []
    ensures x in Kept(boxes, order, thr) <==>
            x == order[0] || x in Kept(boxes, Spared(boxes, order[0], order[1..], thr), thr)
  {
  }

  /** Whatever is not kept overlaps a kept box that stands before it. */
  lemma {:induction false} SuppressedBy(boxes: seq<Box>, order: seq<nat>, thr: real, p: nat) returns (q: nat)
    requires NoRepeat(order) && p < |order| && order[p] !in Kept(boxes, order, thr)
    ensures q < p && order[q] in Kept(boxes, order, thr) && Overlaps(boxes, order[q], order[p], thr)
    decreases |order|
  {
    KeptUnfolds(boxes, order, thr, order[p]);
    if Overlaps(boxes, order[0], order[p], thr) {
      q := 0;
    } else {
      q := SuppressedLater(boxes, order, thr, p);
    }
  }

  lemma {:induction false} SuppressedLater(boxes: seq<Box>, order: seq<nat>, thr: real, p: nat) returns (q: nat)
    requires NoRepeat(order) && 0 < p < |order| && !Overlaps(boxes, order[0], order[p], thr)
    requires order[p] !in Kept(boxes, Spared(boxes, order[0], order[1..], thr), thr)
    ensures q < p && order[q] in Kept(boxes, order, thr) && Overlaps(boxes, order[q], order[p], thr)
    decreases |order|, 0
  {
    var rest := order[1..];
    var spared := Spared(boxes, order[0], rest, thr);
    assert rest[p - 1] == order[p];
    SparedAll(boxes, order[0], rest, thr, order[p]);
    SparedNoRepeat(boxes, order[0], rest, thr);
    var b :| 0 <= b < |spared| && spared[b] == order[p];
    var a := SuppressedBy(boxes, spared, thr, b);
    var x, y := SparedOrder(boxes, order[0], rest, thr, a, b);
    OnePosition(order, y + 1, p);
    q := x + 1;
    KeptUnfolds(boxes, order, thr, order[q]);
  }

  ghost predicate FallingScores(scores: seq<real>, order: seq<nat>) {
    && (forall k | 0 <= k < |order| :: order[k] < |scores|) && NoRepeat(order)
    && forall p, q | 0 <= p < q < |order| :: scores[order[p]] >= scores[order[q]]
  }

  /** A box is kept exactly when no kept box before it overlaps it by more than
      the threshold; its suppressor scores at least as much. */
  lemma KeptIff(boxes: seq<Box>, scores: seq<real>, order: seq<nat>, thr: real, p: nat)
    requires FallingScores(scores, order) && p < |order|
    ensures order[p] in Kept(boxes, order, thr) <==>
            forall q | 0 <= q < p && order[q] in Kept(boxes, order, thr) :: !Overlaps(boxes, order[q], order[p], thr)
    ensures order[p] !in Kept(boxes, order, thr) ==>
            exists q | 0 <= q < p :: order[q] in Kept(boxes, order, thr) && Overlaps(boxes, order[q], order[p], thr)
                                     && scores[order[q]] >= scores[order[p]]
  {
    var keep := Kept(boxes, order, thr);
    if order[p] in keep {
      var b :| 0 <= b < |keep| && keep[b] == order[p];
      forall q | 0 <= q < p && order[q] in keep
        ensures !Overlaps(boxes, order[q], order[p], thr)
      {
        var a :| 0 <= a < |keep| && keep[a] == order[q];
        KeptApart(boxes, order, thr, a, b);
      }
    } else {
      var q := SuppressedBy(boxes, order, thr, p);
    }
  }

  /** The returned list: falling scores, no repeats. */
  lemma KeptFalls(boxes: seq<Box>, scores: seq<real>, order: seq<nat>, thr: real, a: nat, b: nat)
    requires FallingScores(scores, order) && a < b < |Kept(boxes, order, thr)|
    ensures var keep := Kept(boxes, order, thr);
            && keep[a] != keep[b] && keep[a] < |scores| && keep[b] < |scores| && scores[keep[a]] >= scores[keep[b]]
  {
    var p, q := KeptInOrder(boxes, order, thr, a, b);
  }

  // ---- What the overlap of two boxes is ----

  ghost predicate Proper(b: Box) {
    b.x1 < b.x2 && b.y1 < b.y2
  }

  /** The same box given by its centre and size. */
  function Centred(b: Box): T.Det {
    T.Det((b.x1 + b.x2) / 2.0, (b.y1 + b.y2) / 2.0, b.x2 - b.x1, b.y2 - b.y1, 0.0, 0, 0, 0, 0)
  }

  lemma CentredSides(b: Box)
    ensures T.Left(Centred(b)) == b.x1 && T.Right(Centred(b)) == b.x2
    ensures T.Top(Centred(b)) == b.y1 && T.Bottom(Centred(b)) == b.y2
  {
  }

  /** The area two boxes share, and the areas, are the tracker's. */
  lemma SameAreas(a: Box, b: Box)
    requires Proper(a) && Proper(b)
    ensures Area(a) == T.Area(Centred(a)) && Area(b) == T.Area(Centred(b))
    ensures Inter(a, b) == T.Overlap(Centred(a), Centred(b))
  {
    CentredSides(a);
    CentredSides(b);
    assert T.Shared(a.x1, a.x2, b.x1, b.x2) == Max(0.0, Min(a.x2, b.x2) - Max(a.x1, b.x1));
    assert T.Shared(a.y1, a.y2, b.y1, b.y2) == Max(0.0, Min(a.y2, b.y2) - Max(a.y1, b.y1));
  }

  lemma RatioIsShare(inter: real, union: real)
    requires union >= 0.000000001
    ensures Ratio(inter, union) == T.Share(inter, union)
  {
  }

  /** Boxes of a billionth in area or more overlap as in the tracker: by the
      share of their common points in the points of either. */
  lemma OverlapIsShare(a: Box, b: Box)
    requires Proper(a) && Proper(b) && Area(a) >= 0.000000001
    ensures Iou(a, b) == T.Iou(Centred(a), Centred(b))
  {
    SameAreas(a, b);
    TrackerGains.OverlapBounds(Centred(a), Centred(b));
    RatioIsShare(Inter(a, b), Area(a) + Area(b) - Inter(a, b));
  }
}
