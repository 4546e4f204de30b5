/** The synthetic tidal tail of NGC 3628: points spread along a fixed
    direction from the galaxy, with sideways scatter and a gentle curvature.
    The random draws (Beta-distributed positions along the tail and Gaussian
    noise vectors) are inputs here. */
module TidalTail {
  import opened Vectors

  /** The tail settings of the plot configuration that the arithmetic uses.
      The standard deviation of the noise draws is not one of them: the draws
      are inputs. */
  datatype TailConfig = TailConfig(points: nat, length: real, alpha: real, direction: Vec3)

  /** 2500 points over 86 kpc at opacity 0.2, heading East (+x), a little
      North (+y) and slightly toward Earth (-z). */
  const DefaultTail := TailConfig(2500, 86.0, 0.2, Vec3(1.0, 0.15, -0.1))

  /** Whatever value the norm of the configured direction takes, the
      configuration meets what Generate needs: a positive norm and a positive
      tail length. */
  lemma DefaultTailIsUsable(dirNorm: real)
    requires IsNormOf(dirNorm, DefaultTail.direction)
    ensures dirNorm > 0.0 && DefaultTail.length > 0.0
  {
    assert dirNorm * dirNorm == 1.0325;
  }

  /** The galaxy the tail is anchored to. */
  const Anchor := "NGC 3628"

  function Abs(x: real): real {
    if x < 0.0 then -x else x
  }

  /** The configured direction divided by its norm `dirNorm` and scaled to
      the tail length. */
  function Direction(config: TailConfig, dirNorm: real): (d: Vec3)
    requires dirNorm != 0.0
    ensures dirNorm > 0.0 && config.length > 0.0 ==> SameSigns(d, config.direction)
  {
    var d := Scale(Scale(config.direction, 1.0 / dirNorm), config.length);
    if dirNorm > 0.0 && config.length > 0.0 then
      ScaleKeepsSigns(config.direction, 1.0 / dirNorm);
      ScaleKeepsSigns(Scale(config.direction, 1.0 / dirNorm), config.length);
      d
    else
      d
  }

  /** Each component of `a` has the sign of the same component of `b`. */
  predicate SameSigns(a: Vec3, b: Vec3) {
    (a.x > 0.0 <==> b.x > 0.0) && (a.x < 0.0 <==> b.x < 0.0) &&
    (a.y > 0.0 <==> b.y > 0.0) && (a.y < 0.0 <==> b.y < 0.0) &&
    (a.z > 0.0 <==> b.z > 0.0) && (a.z < 0.0 <==> b.z < 0.0)
  }

  /** Scaling by a positive factor keeps the sign of every component. */
  lemma ScaleKeepsSigns(a: Vec3, k: real)
    requires k > 0.0
    ensures SameSigns(Scale(a, k), a)
  {
    SignOfScale(a.x, k);
    SignOfScale(a.y, k);
    SignOfScale(a.z, k);
  }

  lemma SignOfScale(a: real, k: real)
    requires k > 0.0
    ensures a * k > 0.0 <==> a > 0.0
    ensures a * k < 0.0 <==> a < 0.0
  {
    if a > 0.0 {
      assert a * k > 0.0 * k;
    } else if a < 0.0 {
      assert a * k < 0.0 * k;
    }
  }

  /** The scaled direction divided by its own norm, which is the tail length
      (see DirectionHasTailLength). */
  function UnitDirection(config: TailConfig, dirNorm: real): (u: Vec3)
    requires dirNorm != 0.0 && config.length != 0.0
    ensures dirNorm > 0.0 && config.length > 0.0 ==> SameSigns(u, config.direction)
  {
    var u := Scale(Direction(config, dirNorm), 1.0 / config.length);
    if dirNorm > 0.0 && config.length > 0.0 then
      ScaleKeepsSigns(Direction(config, dirNorm), 1.0 / config.length);
      u
    else
      u
  }

  /** The configured tail heads East (+x) and North (+y), and slightly
      toward Earth (-z): so do the scaled and the unit direction. */
  lemma DefaultDirectionEastNorth(dirNorm: real)
    requires IsNormOf(dirNorm, DefaultTail.direction)
    ensures var d := Direction(DefaultTail, dirNorm);
      d.x > 0.0 && d.y > 0.0 && d.z < 0.0
    ensures var u := UnitDirection(DefaultTail, dirNorm);
      u.x > 0.0 && u.y > 0.0 && u.z < 0.0
  {
    DefaultTailIsUsable(dirNorm);
  }

  /** What is left of a noise vector once its component along the unit
      vector `u` is removed: adding that component back gives the noise, and
      what is left keeps a component along `u` only in so far as `u` is not
      of unit length. */
  function Perpendicular(n: Vec3, u: Vec3): (p: Vec3)
    ensures Add(p, Scale(u, Dot(n, u))) == n
    ensures Dot(p, u) == Dot(n, u) * (1.0 - Dot(u, u))
  {
    var k := Dot(n, u);
    assert Dot(Sub(n, Scale(u, k)), u) == k - k * Dot(u, u);
    Sub(n, Scale(u, k))
  }

  /** The curvature offset at position `t` along the tail: it vanishes at
      the middle of the tail and its z component (the flaring) is never
      negative. */
  function Curvature(t: real): (c: Vec3)
    ensures c.z >= 0.0
    ensures c == Zero <==> t == 0.5
  {
    var centered := t - 0.5;
    Vec3(centered * 5.0, centered * 8.0, Abs(centered) * 5.0)
  }

  /** One tail point: the base point along the tail, the noise with its
      along-tail component removed, and the curvature. For a unit vector
      `unit`, the point's component along `unit`, once the curvature and the
      anchor are removed, is t times the direction's: the noise adds nothing
      along it. */
  function TailPoint(anchor: Vec3, direction: Vec3, unit: Vec3, t: real, noise: Vec3): (p: Vec3)
    ensures Dot(unit, unit) == 1.0 ==>
      Dot(Sub(Sub(p, Curvature(t)), anchor), unit) == t * Dot(direction, unit)
  {
    var perpendicular := Perpendicular(noise, unit);
    var p := Add(Add(Add(anchor, Scale(direction, t)), perpendicular), Curvature(t));
    assert Sub(Sub(p, Curvature(t)), anchor) == Add(Scale(direction, t), perpendicular);
    DotAddScale(direction, perpendicular, unit, t);
    if Dot(unit, unit) == 1.0 then
      PerpendicularIsOrthogonal(noise, unit);
      p
    else
      p
  }

  lemma ScaleScaleDot(a: Vec3, k: real)
    ensures Dot(Scale(a, k), Scale(a, k)) == k * k * Dot(a, a)
  {
  }

  /** Dividing the configured direction by its norm and scaling it to the
      tail length gives a vector whose norm is the tail length; this is the
      value the second norm call returns. */
  lemma DirectionHasTailLength(config: TailConfig, dirNorm: real)
    requires IsNormOf(dirNorm, config.direction) && dirNorm > 0.0 && config.length >= 0.0
    ensures IsNormOf(config.length, Direction(config, dirNorm))
  {
    var d, l := config.direction, config.length;
    var u := Scale(d, 1.0 / dirNorm);
    ScaleScaleDot(d, 1.0 / dirNorm);
    assert Dot(u, u) == 1.0 by {
      assert Dot(u, u) == (1.0 / dirNorm) * (1.0 / dirNorm) * (dirNorm * dirNorm);
    }
    ScaleScaleDot(u, l);
  }

  /** The second norm call, on the scaled direction, returns the tail
      length; so dividing by the tail length, as UnitDirection does, is
      dividing by that norm. */
  lemma SecondNormIsTailLength(config: TailConfig, dirNorm: real, n: real)
    requires IsNormOf(dirNorm, config.direction) && dirNorm > 0.0 && config.length >= 0.0
    requires IsNormOf(n, Direction(config, dirNorm))
    ensures n == config.length
  {
    DirectionHasTailLength(config, dirNorm);
    NormUnique(n, config.length, Direction(config, dirNorm));
  }

  /** The direction used to remove noise is a unit vector. */
  lemma UnitDirectionIsUnit(config: TailConfig, dirNorm: real)
    requires IsNormOf(dirNorm, config.direction) && dirNorm > 0.0 && config.length > 0.0
    ensures Dot(UnitDirection(config, dirNorm), UnitDirection(config, dirNorm)) == 1.0
  {
    var l := config.length;
    var direction := Direction(config, dirNorm);
    DirectionHasTailLength(config, dirNorm);
    ScaleScaleDot(direction, 1.0 / l);
    assert (1.0 / l) * (1.0 / l) * (l * l) == 1.0;
  }

  /** For a unit vector `u`, the projected noise is perpendicular to `u`. */
  lemma PerpendicularIsOrthogonal(n: Vec3, u: Vec3)
    requires Dot(u, u) == 1.0
    ensures Dot(Perpendicular(n, u), u) == 0.0
  {
    var k := Dot(n, u);
    assert k * (1.0 - Dot(u, u)) == k * 0.0;
  }

  /** Apart from the curvature, a tail point sits exactly t times the tail
      length along the tail direction from the anchor: the noise adds
      nothing along the tail. */
  lemma TailPointAlongAxis(config: TailConfig, dirNorm: real, anchor: Vec3, t: real, noise: Vec3)
    requires IsNormOf(dirNorm, config.direction) && dirNorm > 0.0 && config.length > 0.0
    ensures var u := UnitDirection(config, dirNorm);
      Dot(Sub(Sub(TailPoint(anchor, Direction(config, dirNorm), u, t, noise), Curvature(t)), anchor), u)
        == t * config.length
  {
    var u := UnitDirection(config, dirNorm);
    var direction := Direction(config, dirNorm);
    UnitDirectionIsUnit(config, dirNorm);
    DirectionAlongUnit(config, dirNorm);
    AlongUnit(anchor, direction, u, t, noise);
  }

  lemma AlongUnit(anchor: Vec3, direction: Vec3, u: Vec3, t: real, noise: Vec3)
    requires Dot(u, u) == 1.0
    ensures Dot(Sub(Sub(TailPoint(anchor, direction, u, t, noise), Curvature(t)), anchor), u)
      == t * Dot(direction, u)
  {
  }

  /** The scaled direction's component along the unit direction is the tail
      length. */
  lemma DirectionAlongUnit(config: TailConfig, dirNorm: real)
    requires IsNormOf(dirNorm, config.direction) && dirNorm > 0.0 && config.length > 0.0
    ensures Dot(Direction(config, dirNorm), UnitDirection(config, dirNorm)) == config.length
  {
    var u, l := UnitDirection(config, dirNorm), config.length;
    UnitDirectionIsUnit(config, dirNorm);
    DirectionIsScaledUnit(config, dirNorm);
    DotScaleLeft(u, l);
  }

  lemma DirectionIsScaledUnit(config: TailConfig, dirNorm: real)
    requires dirNorm != 0.0 && config.length != 0.0
    ensures Direction(config, dirNorm) == Scale(UnitDirection(config, dirNorm), config.length)
  {
    var l := config.length;
    var d := Direction(config, dirNorm);
    assert l * (1.0 / l) == 1.0;
    assert d.x * (1.0 / l) * l == d.x * (l * (1.0 / l));
    assert d.y * (1.0 / l) * l == d.y * (l * (1.0 / l));
    assert d.z * (1.0 / l) * l == d.z * (l * (1.0 / l));
  }

  lemma DotAddScale(a: Vec3, b: Vec3, u: Vec3, t: real)
    ensures Dot(Add(Scale(a, t), b), u) == t * Dot(a, u) + Dot(b, u)
  {
  }

  lemma DotScaleLeft(u: Vec3, l: real)
    ensures Dot(Scale(u, l), u) == l * Dot(u, u)
  {
  }

  /** The curvature is symmetric about the middle of the tail: the x and y
      components change sign, the z flaring is the same on both sides. */
  lemma CurvatureSymmetric(s: real)
    ensures Curvature(0.5 + s) == Vec3(-Curvature(0.5 - s).x, -Curvature(0.5 - s).y, Curvature(0.5 - s).z)
  {
  }

  /** TidalTail.generate: `t` and `noiseDraws` are the Beta and Gaussian
      samples, one per tail point, and `dirNorm` is the norm of the configured
      direction. The noise array is corrected in place, the curvature array
      is filled row by row, and the sum is returned. */
  method Generate(config: TailConfig, positions: map<string, Vec3>, dirNorm: real,
                  t: seq<real>, noiseDraws: seq<Vec3>)
    returns (tail: seq<Vec3>)
    requires Anchor in positions
    requires IsNormOf(dirNorm, config.direction) && dirNorm > 0.0 && config.length > 0.0
    requires |t| == config.points && |noiseDraws| == config.points
    ensures |tail| == config.points
    ensures forall i :: 0 <= i < |tail| ==>
      tail[i] == TailPoint(positions[Anchor], Direction(config, dirNorm), UnitDirection(config, dirNorm), t[i], noiseDraws[i])
    ensures forall i :: 0 <= i < |tail| ==>
      Dot(Sub(Sub(tail[i], Curvature(t[i])), positions[Anchor]), UnitDirection(config, dirNorm)) == t[i] * config.length
  {
    var anchor := positions[Anchor];
    var direction := Direction(config, dirNorm);
    var n := config.points;

    var noise := new Vec3[n](i requires 0 <= i < n => noiseDraws[i]);
    // The norm of `direction` is the tail length (DirectionHasTailLength).
    var unit := Scale(direction, 1.0 / config.length);
    for i := 0 to n
      invariant forall k :: 0 <= k < i ==> noise[k] == Perpendicular(noiseDraws[k], unit)
      invariant forall k :: i <= k < n ==> noise[k] == noiseDraws[k]
    {
      noise[i] := Sub(noise[i], Scale(unit, Dot(noise[i], unit)));
    }

    var curvature := new Vec3[n](i => Zero);
    for i := 0 to n
      invariant forall k :: 0 <= k < n ==> noise[k] == Perpendicular(noiseDraws[k], unit)
      invariant forall k :: 0 <= k < i ==> curvature[k] == Curvature(t[k])
    {
      var centered := t[i] - 0.5;
      curvature[i] := Vec3(centered * 5.0, centered * 8.0, Abs(centered) * 5.0);
    }

    tail := [];
    for i := 0 to n
      invariant |tail| == i
      invariant forall k :: 0 <= k < n ==> noise[k] == Perpendicular(noiseDraws[k], unit)
      invariant forall k :: 0 <= k < n ==> curvature[k] == Curvature(t[k])
      invariant forall k :: 0 <= k < i ==>
        tail[k] == TailPoint(anchor, direction, unit, t[k], noiseDraws[k])
    {
      tail := tail + [Add(Add(Add(anchor, Scale(direction, t[i])), noise[i]), curvature[i])];
    }
    forall i | 0 <= i < n
      ensures Dot(Sub(Sub(tail[i], Curvature(t[i])), anchor), unit) == t[i] * config.length
    {
      TailPointAlongAxis(config, dirNorm, anchor, t[i], noiseDraws[i]);
    }
  }
}
