/** Three-component real vectors: the numpy arrays of shape (3,) that the
    program uses for positions, offsets, directions and noise draws. */
module Vectors {

  datatype Vec3 = Vec3(x: real, y: real, z: real)

  const Zero := Vec3(0.0, 0.0, 0.0)

  function Add(a: Vec3, b: Vec3): Vec3 {
    Vec3(a.x + b.x, a.y + b.y, a.z + b.z)
  }

  function Sub(a: Vec3, b: Vec3): Vec3 {
    Vec3(a.x - b.x, a.y - b.y, a.z - b.z)
  }

  function Neg(a: Vec3): Vec3 {
    Vec3(-a.x, -a.y, -a.z)
  }

  function Scale(a: Vec3, k: real): Vec3 {
    Vec3(a.x * k, a.y * k, a.z * k)
  }

  function Dot(a: Vec3, b: Vec3): real {
    a.x * b.x + a.y * b.y + a.z * b.z
  }

  /** `n` is what `np.linalg.norm(v)` returns: the non-negative square root
      of the squared length. The square root itself is not computed. */
  ghost predicate IsNormOf(n: real, v: Vec3) {
    n >= 0.0 && n * n == Dot(v, v)
  }

  /** Sum of a sequence of vectors (numpy's sum along axis 0). */
  function SumAll(vs: seq<Vec3>): Vec3 {
    if vs == [] then Zero else Add(vs[0], SumAll(vs[1..]))
  }

  /** Every vector of `vs` translated by `d`. */
  function Shift(vs: seq<Vec3>, d: Vec3): (r: seq<Vec3>)
    ensures |r| == |vs|
    ensures forall i :: 0 <= i < |vs| ==> r[i] == Add(vs[i], d)
  {
    if vs == [] then [] else [Add(vs[0], d)] + Shift(vs[1..], d)
  }

  /** Arithmetic mean along axis 0 (`np.mean(positions, axis=0)`): the vector
      whose |vs|-fold multiple is the sum. */
  function Mean(vs: seq<Vec3>): (c: Vec3)
    requires |vs| > 0
    ensures Scale(c, |vs| as real) == SumAll(vs)
  {
    var n := |vs| as real;
    var s := SumAll(vs);
    assert s.x / n * n == s.x && s.y / n * n == s.y && s.z / n * n == s.z;
    Vec3(s.x / n, s.y / n, s.z / n)
  }

  /** Translating every vector by `d` adds |vs| copies of `d` to the sum. */
  lemma {:induction false} SumOfShift(vs: seq<Vec3>, d: Vec3)
    ensures SumAll(Shift(vs, d)) == Add(SumAll(vs), Scale(d, |vs| as real))
  {
    if vs != [] {
      var k := |vs[1..]| as real;
      SumOfShift(vs[1..], d);
      assert Shift(vs, d)[1..] == Shift(vs[1..], d);
      calc {
        SumAll(Shift(vs, d));
        Add(Add(vs[0], d), SumAll(Shift(vs[1..], d)));
        Add(Add(vs[0], d), Add(SumAll(vs[1..]), Scale(d, k)));
        Add(SumAll(vs), Add(d, Scale(d, k)));
        { ScaleSucc(d, k); }
        Add(SumAll(vs), Scale(d, k + 1.0));
      }
    }
  }

  /** Translating every vector by `d` translates the mean by `d`. */
  lemma MeanOfShift(vs: seq<Vec3>, d: Vec3)
    requires |vs| > 0
    ensures Mean(Shift(vs, d)) == Add(Mean(vs), d)
  {
    var n := |vs| as real;
    var m, m' := Mean(vs), Mean(Shift(vs, d));
    SumOfShift(vs, d);
    var s, s' := SumAll(vs), SumAll(Shift(vs, d));
    CancelScale(m', m, d, n);
  }

  lemma CancelScale(m': Vec3, m: Vec3, d: Vec3, n: real)
    requires n != 0.0 && Scale(m', n) == Add(Scale(m, n), Scale(d, n))
    ensures m' == Add(m, d)
  {
    CancelSum(m'.x, m.x, d.x, n);
    CancelSum(m'.y, m.y, d.y, n);
    CancelSum(m'.z, m.z, d.z, n);
  }

  /** Subtracting the mean from every vector leaves vectors that sum to zero. */
  lemma SumAboutMeanIsZero(vs: seq<Vec3>)
    requires |vs| > 0
    ensures SumAll(Shift(vs, Neg(Mean(vs)))) == Zero
  {
    var n, m := |vs| as real, Mean(vs);
    SumOfShift(vs, Neg(m));
    ScaleNeg(m, n);
  }

  lemma ScaleNeg(m: Vec3, n: real)
    ensures Scale(Neg(m), n) == Neg(Scale(m, n))
  {
  }

  lemma ScaleSucc(d: Vec3, k: real)
    ensures Add(d, Scale(d, k)) == Scale(d, k + 1.0)
  {
    assert d.x + d.x * k == d.x * (k + 1.0);
    assert d.y + d.y * k == d.y * (k + 1.0);
    assert d.z + d.z * k == d.z * (k + 1.0);
  }

  lemma CancelSum(a: real, b: real, c: real, n: real)
    requires n != 0.0 && a * n == b * n + c * n
    ensures a == b + c
  {
    assert (a - (b + c)) * n == 0.0;
  }

  /** Squares are strictly monotone on the non-negative reals. */
  lemma SquareStrict(a: real, b: real)
    requires 0.0 <= a < b
    ensures a * a < b * b
  {
    var p, q, r := a * a, a * b, b * b;
    assert p <= q;
    assert q < r;
  }

  /** Two translations in a row are one translation by their sum. */
  lemma ShiftShift(vs: seq<Vec3>, a: Vec3, b: Vec3)
    ensures Shift(Shift(vs, a), b) == Shift(vs, Add(a, b))
  {
    var l, r := Shift(Shift(vs, a), b), Shift(vs, Add(a, b));
    assert |l| == |r|;
    forall i | 0 <= i < |l| ensures l[i] == r[i] { }
  }

  /** A norm is determined by the vector: two values that are both its norm
      are equal. */
  lemma NormUnique(n1: real, n2: real, v: Vec3)
    requires IsNormOf(n1, v) && IsNormOf(n2, v)
    ensures n1 == n2
  {
    if n1 < n2 {
      SquareStrict(n1, n2);
    } else if n2 < n1 {
      SquareStrict(n2, n1);
    }
  }

  /** The squared length is zero exactly for the zero vector. */
  lemma DotSelfZero(v: Vec3)
    ensures Dot(v, v) >= 0.0
    ensures Dot(v, v) == 0.0 <==> v == Zero
  {
    assert v.x * v.x >= 0.0 && v.y * v.y >= 0.0 && v.z * v.z >= 0.0;
    if Dot(v, v) == 0.0 {
      assert v.x * v.x == 0.0 && v.y * v.y == 0.0 && v.z * v.z == 0.0;
      SquareZero(v.x);
      SquareZero(v.y);
      SquareZero(v.z);
    }
  }

  lemma SquareZero(a: real)
    requires a * a == 0.0
    ensures a == 0.0
  {
    if a > 0.0 {
      SquareStrict(0.0, a);
    } else if a < 0.0 {
      SquareStrict(0.0, -a);
    }
  }

  /** A vector and its opposite have the same norm. */
  lemma NormOfNeg(n: real, v: Vec3)
    ensures IsNormOf(n, v) <==> IsNormOf(n, Neg(v))
  {
    assert Dot(Neg(v), Neg(v)) == Dot(v, v);
  }
}
