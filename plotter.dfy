/** The arithmetic of the 3D plotter: the size and opacity ramp of the tail
    points, the labelled triangle joining the galaxies, and the scroll-wheel
    zoom of the axis limits. Drawing itself is not modelled. */
module Plotter {
  import opened Vectors
  import TidalTail

  // ---------------------------------------------------------------------
  // Size and opacity of the tail points
  // ---------------------------------------------------------------------

  /** The largest distance (`distances.max()`). */
  function MaxOf(ds: seq<real>): (m: real)
    requires |ds| > 0
    ensures m in ds
    ensures forall i :: 0 <= i < |ds| ==> ds[i] <= m
  {
    if |ds| == 1 then ds[0]
    else
      var rest := MaxOf(ds[1..]);
      if ds[0] >= rest then ds[0] else rest
  }

  /** Marker size of one tail point: a linear ramp of its distance over the
      largest distance. */
  function SizeOf(d: real, maxD: real): real
    requires maxD != 0.0
  {
    1.0 + 3.0 * (d / maxD)
  }

  /** Opacity of one tail point: a linear ramp of its distance over the
      largest distance, scaled by the configured tail opacity. */
  function AlphaOf(d: real, maxD: real, tailAlpha: real): real
    requires maxD != 0.0
  {
    tailAlpha * (0.5 + 0.5 * d / maxD)
  }

  /** Sizes of all tail points (the vectorised expression). */
  function Sizes(ds: seq<real>): (sizes: seq<real>)
    requires |ds| > 0 && MaxOf(ds) != 0.0
    ensures |sizes| == |ds|
  {
    var m := MaxOf(ds);
    seq(|ds|, i requires 0 <= i < |ds| => SizeOf(ds[i], m))
  }

  /** Opacities of all tail points (the vectorised expression). */
  function Alphas(ds: seq<real>, tailAlpha: real): (alphas: seq<real>)
    requires |ds| > 0 && MaxOf(ds) != 0.0
    ensures |alphas| == |ds|
  {
    var m := MaxOf(ds);
    seq(|ds|, i requires 0 <= i < |ds| => AlphaOf(ds[i], m, tailAlpha))
  }

  ghost predicate NonNegative(ds: seq<real>) {
    forall i :: 0 <= i < |ds| ==> ds[i] >= 0.0
  }

  /** For a distance between zero and the largest one, the size lies in
      [1, 4] and the opacity in [0.5 * tailAlpha, tailAlpha]. */
  lemma RampOfOneBounds(d: real, maxD: real, tailAlpha: real)
    requires 0.0 <= d <= maxD && maxD > 0.0 && tailAlpha >= 0.0
    ensures 1.0 <= SizeOf(d, maxD) <= 4.0
    ensures 0.5 * tailAlpha <= AlphaOf(d, maxD, tailAlpha) <= tailAlpha
  {
    var r := d / maxD;
    assert 0.0 <= r <= 1.0;
    assert 0.5 * d / maxD == 0.5 * r;
    assert AlphaOf(d, maxD, tailAlpha) - 0.5 * tailAlpha == 0.5 * (tailAlpha * r);
    assert tailAlpha - AlphaOf(d, maxD, tailAlpha) == 0.5 * (tailAlpha * (1.0 - r));
    MulNonNegative(tailAlpha, r);
    MulNonNegative(tailAlpha, 1.0 - r);
  }

  lemma MulNonNegative(a: real, b: real)
    requires a >= 0.0 && b >= 0.0
    ensures a * b >= 0.0
  {
  }

  /** When the distances are norms (never negative) and not all zero, every
      size lies in [1, 4] and every opacity in [0.5 * tailAlpha, tailAlpha]. */
  lemma RampBounds(ds: seq<real>, tailAlpha: real, i: nat)
    requires |ds| > 0 && NonNegative(ds) && MaxOf(ds) > 0.0 && tailAlpha >= 0.0
    requires i < |ds|
    ensures 1.0 <= Sizes(ds)[i] <= 4.0
    ensures 0.5 * tailAlpha <= Alphas(ds, tailAlpha)[i] <= tailAlpha
  {
    RampOfOneBounds(ds[i], MaxOf(ds), tailAlpha);
  }

  /** The distances of the ramp are the norms of the tail points' offsets
      from the galaxy: never negative, and their maximum is zero exactly when
      every tail point sits on the galaxy, the one case the ramp excludes. */
  lemma TailDistances(tail: seq<Vec3>, anchor: Vec3, ds: seq<real>)
    requires |ds| == |tail| > 0
    requires forall i :: 0 <= i < |ds| ==> IsNormOf(ds[i], Sub(tail[i], anchor))
    ensures NonNegative(ds)
    ensures MaxOf(ds) == 0.0 <==> forall i :: 0 <= i < |tail| ==> tail[i] == anchor
  {
    if MaxOf(ds) == 0.0 {
      forall i | 0 <= i < |tail| ensures tail[i] == anchor {
        NormZero(ds[i], Sub(tail[i], anchor));
        SubIsZero(anchor, tail[i]);
      }
    } else {
      var i :| 0 <= i < |ds| && ds[i] == MaxOf(ds);
      NormZero(ds[i], Sub(tail[i], anchor));
      SubIsZero(anchor, tail[i]);
    }
  }

  /** A norm is zero exactly for the zero vector. */
  lemma NormZero(n: real, v: Vec3)
    requires IsNormOf(n, v)
    ensures n == 0.0 <==> v == Zero
  {
    DotSelfZero(v);
    RootZero(n, Dot(v, v));
  }

  lemma RootZero(n: real, sq: real)
    requires n >= 0.0 && n * n == sq
    ensures n == 0.0 <==> sq == 0.0
  {
    if sq == 0.0 {
      SquareZero(n);
    }
  }

  /** With the configured tail opacity of 0.2, every point's opacity lies in
      [0.1, 0.2] and its size in [1, 4]. */
  lemma DefaultRampBounds(ds: seq<real>, i: nat)
    requires |ds| > 0 && NonNegative(ds) && MaxOf(ds) > 0.0 && i < |ds|
    ensures 1.0 <= Sizes(ds)[i] <= 4.0
    ensures 0.1 <= Alphas(ds, TidalTail.DefaultTail.alpha)[i] <= 0.2
  {
    RampBounds(ds, TidalTail.DefaultTail.alpha, i);
  }

  /** The ramp of one point is monotone in its distance. */
  lemma RampOfOneMonotone(d1: real, d2: real, maxD: real, tailAlpha: real)
    requires d1 <= d2 && maxD > 0.0 && tailAlpha >= 0.0
    ensures SizeOf(d1, maxD) <= SizeOf(d2, maxD)
    ensures AlphaOf(d1, maxD, tailAlpha) <= AlphaOf(d2, maxD, tailAlpha)
  {
    var r := (d2 - d1) / maxD;
    assert r >= 0.0;
    assert SizeOf(d2, maxD) - SizeOf(d1, maxD) == 3.0 * r;
    assert 0.5 * d2 / maxD - 0.5 * d1 / maxD == 0.5 * r;
    assert AlphaOf(d2, maxD, tailAlpha) - AlphaOf(d1, maxD, tailAlpha) == tailAlpha * (0.5 * r);
  }

  /** The ramp is monotone: a point farther from the galaxy is drawn at
      least as large and at least as opaque as a nearer one. */
  lemma RampMonotone(ds: seq<real>, tailAlpha: real, i: nat, j: nat)
    requires |ds| > 0 && MaxOf(ds) > 0.0 && tailAlpha >= 0.0
    requires i < |ds| && j < |ds| && ds[i] <= ds[j]
    ensures Sizes(ds)[i] <= Sizes(ds)[j]
    ensures Alphas(ds, tailAlpha)[i] <= Alphas(ds, tailAlpha)[j]
  {
    RampOfOneMonotone(ds[i], ds[j], MaxOf(ds), tailAlpha);
  }

  /** The farthest point gets the largest size, 4, and the full opacity. */
  lemma RampAtFarthest(ds: seq<real>, tailAlpha: real, i: nat)
    requires |ds| > 0 && MaxOf(ds) != 0.0
    requires i < |ds| && ds[i] == MaxOf(ds)
    ensures Sizes(ds)[i] == 4.0
    ensures Alphas(ds, tailAlpha)[i] == tailAlpha
  {
    RampOfOneAtMax(MaxOf(ds), tailAlpha);
  }

  lemma RampOfOneAtMax(maxD: real, tailAlpha: real)
    requires maxD != 0.0
    ensures SizeOf(maxD, maxD) == 4.0
    ensures AlphaOf(maxD, maxD, tailAlpha) == tailAlpha
  {
    assert maxD / maxD == 1.0;
    assert 0.5 * maxD / maxD == 0.5;
  }

  // ---------------------------------------------------------------------
  // The triangle joining the three galaxies
  // ---------------------------------------------------------------------

  /** Edges as index pairs into the galaxy list. */
  const TriangleEdges: seq<(nat, nat)> := [(0, 1), (1, 2), (2, 0)]

  predicate SamePair(e: (nat, nat), i: nat, j: nat) {
    (e.0 == i && e.1 == j) || (e.0 == j && e.1 == i)
  }

  /** The edge list joins distinct galaxies and visits every unordered pair
      of the three exactly once. */
  lemma EdgesVisitEachPairOnce()
    ensures |TriangleEdges| == 3
    ensures forall k :: 0 <= k < 3 ==>
      TriangleEdges[k].0 < 3 && TriangleEdges[k].1 < 3 && TriangleEdges[k].0 != TriangleEdges[k].1
    ensures exists k :: 0 <= k < 3 && SamePair(TriangleEdges[k], 0, 1)
    ensures exists k :: 0 <= k < 3 && SamePair(TriangleEdges[k], 0, 2)
    ensures exists k :: 0 <= k < 3 && SamePair(TriangleEdges[k], 1, 2)
    ensures forall k, l :: 0 <= k < l < 3 ==> !SamePair(TriangleEdges[l], TriangleEdges[k].0, TriangleEdges[k].1)
  {
    assert SamePair(TriangleEdges[0], 0, 1);
    assert SamePair(TriangleEdges[2], 0, 2);
    assert SamePair(TriangleEdges[1], 1, 2);
  }

  /** Where an edge label is placed: halfway between the two endpoints. */
  function Midpoint(p1: Vec3, p2: Vec3): (mid: Vec3)
    ensures Sub(mid, p1) == Sub(p2, mid)
    ensures mid == Add(p1, Scale(Sub(p2, p1), 0.5))
  {
    Vec3((p1.x + p2.x) / 2.0, (p1.y + p2.y) / 2.0, (p1.z + p2.z) / 2.0)
  }

  /** An edge label: where it is drawn, and the squared length of the edge,
      whose non-negative square root is the distance printed on it. */
  datatype EdgeLabel = EdgeLabel(at: Vec3, squaredDistance: real)

  /** The label of the edge from `p1` to `p2`: placed at the midpoint, its
      squared distance never negative and zero exactly when the endpoints
      coincide. */
  function Label(p1: Vec3, p2: Vec3): (edge: EdgeLabel)
    ensures edge.at == Midpoint(p1, p2)
    ensures edge.squaredDistance >= 0.0
    ensures edge.squaredDistance == 0.0 <==> p1 == p2
  {
    var d := Sub(p2, p1);
    DotSelfZero(d);
    SubIsZero(p1, p2);
    EdgeLabel(Midpoint(p1, p2), Dot(d, d))
  }

  /** The three labels of the triangle over the galaxy positions, in edge
      order. */
  function TriangleLabels(coords: seq<Vec3>): (labels: seq<EdgeLabel>)
    requires |coords| == 3
    ensures |labels| == |TriangleEdges|
    ensures forall k :: 0 <= k < 3 ==>
      labels[k].at == Midpoint(coords[TriangleEdges[k].0], coords[TriangleEdges[k].1]) &&
      (labels[k].squaredDistance == 0.0 <==> coords[TriangleEdges[k].0] == coords[TriangleEdges[k].1])
  {
    seq(3, k requires 0 <= k < 3 => Label(coords[TriangleEdges[k].0], coords[TriangleEdges[k].1]))
  }

  /** A label's distance is a true distance: never negative, zero exactly
      when the endpoints coincide, and a value `n` is the norm of the edge
      vector exactly when it is the non-negative root of the label's squared
      distance; that printed norm is then unique, and zero exactly when the
      endpoints coincide. */
  lemma LabelIsDistance(coords: seq<Vec3>, k: nat, n: real)
    requires |coords| == 3 && k < 3
    ensures var i, j := TriangleEdges[k].0, TriangleEdges[k].1;
      var edge := TriangleLabels(coords)[k];
      edge.squaredDistance >= 0.0 &&
      (edge.squaredDistance == 0.0 <==> coords[i] == coords[j]) &&
      (IsNormOf(n, Sub(coords[j], coords[i])) <==> n >= 0.0 && n * n == edge.squaredDistance) &&
      (IsNormOf(n, Sub(coords[j], coords[i])) ==> (n == 0.0 <==> coords[i] == coords[j]))
  {
    var i, j := TriangleEdges[k].0, TriangleEdges[k].1;
    assert TriangleLabels(coords)[k] == Label(coords[i], coords[j]);
    LabelOfEdge(coords[i], coords[j]);
    if IsNormOf(n, Sub(coords[j], coords[i])) {
      NormZero(n, Sub(coords[j], coords[i]));
      SubIsZero(coords[i], coords[j]);
    }
  }

  lemma LabelOfEdge(p1: Vec3, p2: Vec3)
    ensures Label(p1, p2).squaredDistance == Dot(Sub(p2, p1), Sub(p2, p1))
    ensures Label(p1, p2).squaredDistance >= 0.0
    ensures Label(p1, p2).squaredDistance == 0.0 <==> p1 == p2
  {
    var d := Sub(p2, p1);
    DotSelfZero(d);
    SubIsZero(p1, p2);
  }

  lemma SubIsZero(p1: Vec3, p2: Vec3)
    ensures Sub(p2, p1) == Zero <==> p1 == p2
  {
  }

  /** Swapping the endpoints of an edge leaves its label unchanged: the
      midpoint and the distance are symmetric. */
  lemma LabelSymmetric(p1: Vec3, p2: Vec3, n: real)
    ensures Label(p1, p2) == Label(p2, p1)
    ensures IsNormOf(n, Sub(p2, p1)) <==> IsNormOf(n, Sub(p1, p2))
  {
    assert Sub(p1, p2) == Neg(Sub(p2, p1));
    NormOfNeg(n, Sub(p2, p1));
  }

  // ---------------------------------------------------------------------
  // Scroll-wheel zoom
  // ---------------------------------------------------------------------

  const AxisLimit := 150.0
  const ZoomScale := 1.2

  /** An axis interval as returned by the limit getters. */
  datatype Limits = Limits(lo: real, hi: real)

  function Mid(l: Limits): real {
    (l.lo + l.hi) / 2.0
  }

  function Width(l: Limits): real {
    l.hi - l.lo
  }

  /** Scrolling up zooms in (the factor is below one), any other button
      zooms out; scrolling up and then down multiplies by one. */
  function ScrollScale(button: string): (s: real)
    ensures s > 0.0
    ensures s < 1.0 <==> button == "up"
  {
    if button == "up" then 1.0 / ZoomScale else ZoomScale
  }

  /** The factors of a scroll-up and of a scroll-down are reciprocal. */
  lemma ScrollScalesReciprocal(other: string)
    requires other != "up"
    ensures ScrollScale("up") * ScrollScale(other) == 1.0
  {
  }

  /** One axis interval rescaled about its midpoint: the midpoint stays and
      the width is multiplied by the scale. */
  function Rescale(l: Limits, scale: real): (r: Limits)
    ensures Mid(r) == Mid(l)
    ensures Width(r) == Width(l) * scale
  {
    var mid := (l.lo + l.hi) / 2.0;
    var half := (l.hi - l.lo) * scale / 2.0;
    Limits(mid - half, mid + half)
  }

  /** An interval is determined by its midpoint and width. */
  lemma LimitsFromMidWidth(a: Limits, b: Limits)
    requires Mid(a) == Mid(b) && Width(a) == Width(b)
    ensures a == b
  {
  }

  /** Two rescalings in a row are one rescaling by the product. */
  lemma RescaleCompose(l: Limits, a: real, b: real)
    ensures Rescale(Rescale(l, a), b) == Rescale(l, a * b)
  {
    var r1, r2 := Rescale(Rescale(l, a), b), Rescale(l, a * b);
    assert Width(r1) == Width(l) * a * b;
    LimitsFromMidWidth(r1, r2);
  }

  /** Rescaling by one changes nothing. */
  lemma RescaleIdentity(l: Limits)
    ensures Rescale(l, 1.0) == l
  {
    LimitsFromMidWidth(Rescale(l, 1.0), l);
  }

  /** All three axes rescaled by the same factor. */
  function RescaleAll(limits: seq<Limits>, scale: real): (r: seq<Limits>)
    ensures |r| == |limits|
    ensures forall k :: 0 <= k < |limits| ==>
      Mid(r[k]) == Mid(limits[k]) && Width(r[k]) == Width(limits[k]) * scale
  {
    seq(|limits|, k requires 0 <= k < |limits| => Rescale(limits[k], scale))
  }

  /** A scroll-up followed by a scroll-down, or the other way round,
      restores every axis interval. */
  lemma ScrollRoundTrip(limits: seq<Limits>)
    ensures RescaleAll(RescaleAll(limits, ScrollScale("up")), ScrollScale("down")) == limits
    ensures RescaleAll(RescaleAll(limits, ScrollScale("down")), ScrollScale("up")) == limits
  {
    var up, down := ScrollScale("up"), ScrollScale("down");
    ScrollScalesReciprocal("down");
    forall k | 0 <= k < |limits|
      ensures Rescale(Rescale(limits[k], up), down) == limits[k]
      ensures Rescale(Rescale(limits[k], down), up) == limits[k]
    {
      RescaleCompose(limits[k], up, down);
      RescaleCompose(limits[k], down, up);
      RescaleIdentity(limits[k]);
    }
  }

  /** The axis-limit state of the 3D axes: the x, y and z intervals. */
  class Axes3D {
    var limits: seq<Limits>

    ghost predicate Valid()
      reads this
    {
      |limits| == 3
    }

    /** The limits as setup_axes leaves them: the cube [-150, 150]^3. */
    constructor ()
      ensures Valid()
      ensures limits == [Limits(-AxisLimit, AxisLimit), Limits(-AxisLimit, AxisLimit), Limits(-AxisLimit, AxisLimit)]
    {
      limits := [Limits(-AxisLimit, AxisLimit), Limits(-AxisLimit, AxisLimit), Limits(-AxisLimit, AxisLimit)];
    }

    /** on_scroll: each axis in turn is read, rescaled about its midpoint
        and written back. */
    method OnScroll(button: string)
      requires Valid()
      modifies this
      ensures Valid()
      ensures limits == RescaleAll(old(limits), ScrollScale(button))
      ensures forall k :: 0 <= k < 3 ==>
        Mid(limits[k]) == Mid(old(limits)[k]) && Width(limits[k]) == Width(old(limits)[k]) * ScrollScale(button)
    {
      var scale := if button == "up" then 1.0 / ZoomScale else ZoomScale;
      for k := 0 to 3
        invariant |limits| == 3
        invariant forall a :: 0 <= a < k ==> limits[a] == Rescale(old(limits)[a], scale)
        invariant forall a :: k <= a < 3 ==> limits[a] == old(limits)[a]
      {
        var current := limits[k];
        var mid := (current.lo + current.hi) / 2.0;
        var half := (current.hi - current.lo) * scale / 2.0;
        limits := limits[k := Limits(mid - half, mid + half)];
      }
    }
  }
}
