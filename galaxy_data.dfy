/** The fixed sky catalogue of the Leo Triplet and its conversion into
    Cartesian offsets: +x = East, +y = North, +z = away from Earth, in kpc. */
module GalaxyData {
  import opened Vectors

  /** One catalogue row: right ascension in hours, declination in degrees,
      recession velocity in km/s. */
  datatype Galaxy = Galaxy(name: string, raHours: real, decDeg: real, velocity: real)

  const Ngc3628 := Galaxy("NGC 3628", 11.0 + 20.0 / 60.0 + 17.0 / 3600.0, 13.0 + 35.0 / 60.0 + 23.0 / 3600.0, 843.0)
  const M66 := Galaxy("M66", 11.0 + 20.0 / 60.0 + 15.0 / 3600.0, 12.0 + 59.0 / 60.0 + 30.0 / 3600.0, 727.0)
  const M65 := Galaxy("M65", 11.0 + 18.0 / 60.0 + 56.0 / 3600.0, 13.0 + 5.0 / 60.0 + 32.0 / 3600.0, 807.0)

  /** The catalogue in the order its dictionaries list the galaxies. */
  const Triplet := [Ngc3628, M66, M65]

  /** Distance to the group in kpc; DegreeToKpc is derived from it. */
  const Distance := 10700.0
  const DegreeToKpc := 187.0
  const HoursToDegrees := 15.0
  /** Line-of-sight kpc per km/s of velocity difference. */
  const VelocityScale := 0.1

  /** The names are the keys of the catalogue's dictionaries, so no two rows
      share one. */
  ghost predicate DistinctNames(table: seq<Galaxy>) {
    forall i, j :: 0 <= i < j < |table| ==> table[i].name != table[j].name
  }

  function Names(table: seq<Galaxy>): set<string> {
    set i | 0 <= i < |table| :: table[i].name
  }

  lemma NamesOfPrefix(table: seq<Galaxy>, i: nat)
    requires i < |table|
    ensures Names(table[..i + 1]) == Names(table[..i]) + {table[i].name}
  {
    var p, q := table[..i + 1], table[..i];
    assert p[i] == table[i];
    assert forall k :: 0 <= k < i ==> p[k] == q[k];
  }

  /** Offset of galaxy `g` from the reference galaxy, in kpc. `cosRefDec`
      stands for cos(radians(ref.decDeg)), which is not computed here. */
  function Offset(g: Galaxy, ref: Galaxy, cosRefDec: real): (v: Vec3)
    ensures v.y > 0.0 <==> g.decDeg > ref.decDeg
    ensures v.y < 0.0 <==> g.decDeg < ref.decDeg
    ensures v.z > 0.0 <==> g.velocity > ref.velocity
    ensures v.z < 0.0 <==> g.velocity < ref.velocity
    ensures g.raHours == ref.raHours ==> v.x == 0.0
  {
    var raOffsetDeg := g.raHours * HoursToDegrees - ref.raHours * HoursToDegrees;
    var decOffsetDeg := g.decDeg - ref.decDeg;
    var velocityOffset := g.velocity - ref.velocity;
    Vec3(raOffsetDeg * DegreeToKpc * cosRefDec, decOffsetDeg * DegreeToKpc, velocityOffset * VelocityScale)
  }

  /** Each component is a difference against the reference, so the reference
      galaxy's offset from itself is the zero vector. */
  lemma OffsetOfReferenceIsZero(ref: Galaxy, cosRefDec: real)
    ensures Offset(ref, ref, cosRefDec) == Zero
  {
  }

  /** The signs of the components follow the sky: +x East (larger right
      ascension), +y North (larger declination), +z away from Earth (larger
      recession velocity); the first needs the cosine factor to be positive. */
  lemma OffsetSignConventions(g: Galaxy, ref: Galaxy, cosRefDec: real)
    requires cosRefDec > 0.0
    ensures var v := Offset(g, ref, cosRefDec);
      (v.x > 0.0 <==> g.raHours > ref.raHours) && (v.x < 0.0 <==> g.raHours < ref.raHours) &&
      (v.y > 0.0 <==> g.decDeg > ref.decDeg) && (v.y < 0.0 <==> g.decDeg < ref.decDeg) &&
      (v.z > 0.0 <==> g.velocity > ref.velocity) && (v.z < 0.0 <==> g.velocity < ref.velocity)
  {
    SignOfProduct((g.raHours * HoursToDegrees - ref.raHours * HoursToDegrees) * DegreeToKpc, cosRefDec);
  }

  lemma SignOfProduct(a: real, c: real)
    requires c > 0.0
    ensures a * c > 0.0 <==> a > 0.0
    ensures a * c < 0.0 <==> a < 0.0
  {
    if a > 0.0 {
      assert a * c > 0.0 * c;
    } else if a < 0.0 {
      assert a * c < 0.0 * c;
    }
  }

  /** The offsets of every row of the table, in table order. */
  function Offsets(table: seq<Galaxy>, ref: Galaxy, cosRefDec: real): (vs: seq<Vec3>)
    ensures |vs| == |table|
    ensures forall i :: 0 <= i < |table| ==> vs[i] == Offset(table[i], ref, cosRefDec)
  {
    if table == [] then [] else [Offset(table[0], ref, cosRefDec)] + Offsets(table[1..], ref, cosRefDec)
  }

  /** The group centroid: the mean of the offsets. */
  function Center(table: seq<Galaxy>, ref: Galaxy, cosRefDec: real): (c: Vec3)
    requires |table| > 0
    ensures Scale(c, |table| as real) == SumAll(Offsets(table, ref, cosRefDec))
  {
    Mean(Offsets(table, ref, cosRefDec))
  }

  /** The offsets re-expressed relative to the centroid, in table order. */
  function Centered(table: seq<Galaxy>, ref: Galaxy, cosRefDec: real): (vs: seq<Vec3>)
    requires |table| > 0
    ensures |vs| == |table|
    ensures forall i :: 0 <= i < |table| ==>
      vs[i] == Sub(Offset(table[i], ref, cosRefDec), Center(table, ref, cosRefDec))
  {
    Shift(Offsets(table, ref, cosRefDec), Neg(Center(table, ref, cosRefDec)))
  }

  /** The values of a name-keyed position map in table order. */
  function InOrder(table: seq<Galaxy>, positions: map<string, Vec3>): (vs: seq<Vec3>)
    requires Names(table) <= positions.Keys
    ensures |vs| == |table|
    ensures forall i :: 0 <= i < |table| ==> vs[i] == positions[table[i].name]
  {
    if table == [] then [] else [positions[table[0].name]] + InOrder(table[1..], positions)
  }

  lemma KeysAfterInsert(table: seq<Galaxy>, i: nat, positions: map<string, Vec3>, v: Vec3)
    requires i < |table| && positions.Keys == Names(table[..i])
    ensures positions[table[i].name := v].Keys == Names(table[..i + 1])
  {
    NamesOfPrefix(table, i);
  }

  lemma InOrderMatches(table: seq<Galaxy>, positions: map<string, Vec3>, vs: seq<Vec3>)
    requires Names(table) <= positions.Keys && |vs| == |table|
    requires forall k :: 0 <= k < |table| ==> positions[table[k].name] == vs[k]
    ensures InOrder(table, positions) == vs
  {
  }

  /** Fills the name-to-offset dictionary one catalogue row at a time. */
  method PositionsRelativeTo(table: seq<Galaxy>, ref: Galaxy, cosRefDec: real)
    returns (positions: map<string, Vec3>)
    requires DistinctNames(table)
    ensures positions.Keys == Names(table)
    ensures InOrder(table, positions) == Offsets(table, ref, cosRefDec)
  {
    positions := map[];
    for i := 0 to |table|
      invariant positions.Keys == Names(table[..i])
      invariant forall k :: 0 <= k < i ==> positions[table[k].name] == Offset(table[k], ref, cosRefDec)
    {
      KeysAfterInsert(table, i, positions, Offset(table[i], ref, cosRefDec));
      positions := positions[table[i].name := Offset(table[i], ref, cosRefDec)];
    }
    assert table[..|table|] == table;
    InOrderMatches(table, positions, Offsets(table, ref, cosRefDec));
  }

  /** Re-centres the offsets on the centroid; the resulting positions sum to
      the zero vector. */
  method GetPositions(table: seq<Galaxy>, ref: Galaxy, cosRefDec: real)
    returns (positions: map<string, Vec3>)
    requires |table| > 0 && DistinctNames(table)
    ensures positions.Keys == Names(table)
    ensures InOrder(table, positions) == Centered(table, ref, cosRefDec)
    ensures SumAll(InOrder(table, positions)) == Zero
  {
    var relative := PositionsRelativeTo(table, ref, cosRefDec);
    var center := Center(table, ref, cosRefDec);
    positions := SubtractCenter(table, relative, center);
    CenteredSumIsZero(table, ref, cosRefDec);
  }

  /** The loop of get_positions: a fresh dictionary holding each position
      minus the centroid. */
  method SubtractCenter(table: seq<Galaxy>, relative: map<string, Vec3>, center: Vec3)
    returns (positions: map<string, Vec3>)
    requires DistinctNames(table) && Names(table) <= relative.Keys
    ensures positions.Keys == Names(table)
    ensures InOrder(table, positions) == Shift(InOrder(table, relative), Neg(center))
  {
    positions := map[];
    for i := 0 to |table|
      invariant positions.Keys == Names(table[..i])
      invariant forall k :: 0 <= k < i ==> positions[table[k].name] == Sub(relative[table[k].name], center)
    {
      KeysAfterInsert(table, i, positions, Sub(relative[table[i].name], center));
      positions := positions[table[i].name := Sub(relative[table[i].name], center)];
    }
    assert table[..|table|] == table;
    ShiftedMatches(table, relative, center, positions);
  }

  lemma ShiftedMatches(table: seq<Galaxy>, relative: map<string, Vec3>, center: Vec3, positions: map<string, Vec3>)
    requires Names(table) <= relative.Keys && Names(table) <= positions.Keys
    requires forall k :: 0 <= k < |table| ==> positions[table[k].name] == Sub(relative[table[k].name], center)
    ensures InOrder(table, positions) == Shift(InOrder(table, relative), Neg(center))
  {
    InOrderMatches(table, positions, Shift(InOrder(table, relative), Neg(center)));
  }

  /** After subtracting the centroid, the position vectors sum to zero. */
  lemma CenteredSumIsZero(table: seq<Galaxy>, ref: Galaxy, cosRefDec: real)
    requires |table| > 0
    ensures SumAll(Centered(table, ref, cosRefDec)) == Zero
  {
    SumAboutMeanIsZero(Offsets(table, ref, cosRefDec));
  }

  /** Moving the reference galaxy from `r1` to `r2` translates every offset
      by the same vector, the offset of `r2` seen from `r1`. */
  lemma OffsetChangeOfReference(g: Galaxy, r1: Galaxy, r2: Galaxy, cosRefDec: real)
    ensures Offset(g, r2, cosRefDec) == Sub(Offset(g, r1, cosRefDec), Offset(r2, r1, cosRefDec))
  {
    var a, b, c := g.raHours * HoursToDegrees, r1.raHours * HoursToDegrees, r2.raHours * HoursToDegrees;
    assert (a - c) * DegreeToKpc * cosRefDec
        == (a - b) * DegreeToKpc * cosRefDec - (c - b) * DegreeToKpc * cosRefDec;
  }

  /** For a fixed east-west scale factor, the centred positions do not depend
      on which galaxy served as the reference. */
  lemma CenteringIndependentOfReference(table: seq<Galaxy>, r1: Galaxy, r2: Galaxy, cosRefDec: real)
    requires |table| > 0
    ensures Centered(table, r1, cosRefDec) == Centered(table, r2, cosRefDec)
  {
    var o1, o2 := Offsets(table, r1, cosRefDec), Offsets(table, r2, cosRefDec);
    var d := Neg(Offset(r2, r1, cosRefDec));
    forall i | 0 <= i < |table| ensures o2[i] == Shift(o1, d)[i] {
      OffsetChangeOfReference(table[i], r1, r2, cosRefDec);
    }
    assert o2 == Shift(o1, d);
    MeanOfShift(o1, d);
    ShiftShift(o1, d, Neg(Add(Mean(o1), d)));
    assert Add(d, Neg(Add(Mean(o1), d))) == Neg(Mean(o1));
  }

  /** The outcome of verify_conventions: it passes, or an assertion fails
      with its message. */
  datatype Outcome = Pass | Fail(message: string)

  /** The hard assertions made for each named galaxy, checked in order: a
      position passes exactly when it lies on the asserted side of the
      centroid, and a galaxy the assertions do not name always passes. */
  function CheckConvention(name: string, pos: Vec3): (r: Outcome)
    ensures r == Pass <==>
      (name == "NGC 3628" ==> pos.y > 0.0) &&
      (name == "M66" ==> pos.x > 0.0 && pos.y < 0.0) &&
      (name == "M65" ==> pos.x < 0.0 && pos.y < 0.0)
  {
    if name == "NGC 3628" then
      if pos.y > 0.0 then Pass else Fail("NGC 3628 should be North of center")
    else if name == "M66" then
      if !(pos.x > 0.0) then Fail("M66 should be East of center")
      else if !(pos.y < 0.0) then Fail("M66 should be South of center")
      else Pass
    else if name == "M65" then
      if !(pos.x < 0.0) then Fail("M65 should be West of center")
      else if !(pos.y < 0.0) then Fail("M65 should be South of center")
      else Pass
    else Pass
  }

  /** Offsets of the fixed catalogue from NGC 3628, written out. */
  lemma TripletOffsets(c: real)
    ensures Offsets(Triplet, Ngc3628, c) == [Zero, Offset(M66, Ngc3628, c), Offset(M65, Ngc3628, c)]
  {
  }

  lemma SumOfThree(a: Vec3, b: Vec3, c: Vec3)
    ensures SumAll([a, b, c]) == Add(a, Add(b, Add(c, Zero)))
  {
    assert [a, b, c][1..] == [b, c];
    assert [b, c][1..] == [c];
    assert [c][1..] == [];
    assert SumAll([c]) == Add(c, Zero);
    assert SumAll([b, c]) == Add(b, Add(c, Zero));
  }

  /** With a positive cosine factor, the fixed catalogue passes every
      assertion: NGC 3628 lies north of the centroid, M66 east and south,
      M65 west and south. */
  lemma TripletConventions(c: real)
    requires c > 0.0
    ensures var p := Centered(Triplet, Ngc3628, c);
      p[0].y > 0.0 && p[1].x > 0.0 && p[1].y < 0.0 && p[2].x < 0.0 && p[2].y < 0.0
  {
    var o1, o2 := Offset(M66, Ngc3628, c), Offset(M65, Ngc3628, c);
    TripletOffsets(c);
    SumOfThree(Zero, o1, o2);
    var m := Center(Triplet, Ngc3628, c);
    assert Scale(m, 3.0) == Add(o1, o2);
    var k := HoursToDegrees * DegreeToKpc / 3600.0;
    assert o1.x == -2.0 * k * c;
    assert o2.x == -81.0 * k * c;
    assert m.x * 3.0 == -83.0 * k * c;
    assert 3.0 * (o1.x - m.x) == 77.0 * k * c;
    assert 3.0 * (o2.x - m.x) == -160.0 * k * c;
    SignOfProduct(77.0 * k, c);
    SignOfProduct(-160.0 * k, c);
  }

  /** Galaxy `i` is the first whose check fails, and `outcome` is its
      failure. */
  ghost predicate FirstFailure(cosRefDec: real, i: nat, outcome: Outcome)
    requires i < |Triplet|
  {
    var centered := Centered(Triplet, Ngc3628, cosRefDec);
    outcome == CheckConvention(Triplet[i].name, centered[i]) && outcome != Pass &&
    forall k :: 0 <= k < i ==> CheckConvention(Triplet[k].name, centered[k]) == Pass
  }

  /** verify_conventions: re-centres the fixed catalogue on its centroid and
      checks, galaxy by galaxy, the sign of the components it asserts. */
  method VerifyConventions(cosRefDec: real) returns (outcome: Outcome)
    ensures outcome == Pass <==>
      forall i :: 0 <= i < |Triplet| ==> CheckConvention(Triplet[i].name, Centered(Triplet, Ngc3628, cosRefDec)[i]) == Pass
    ensures cosRefDec > 0.0 ==> outcome == Pass
    ensures outcome != Pass ==>
      exists i :: 0 <= i < |Triplet| && FirstFailure(cosRefDec, i, outcome)
  {
    assert DistinctNames(Triplet);
    var positions := GetPositions(Triplet, Ngc3628, cosRefDec);
    ghost var centered := Centered(Triplet, Ngc3628, cosRefDec);
    if cosRefDec > 0.0 {
      TripletConventions(cosRefDec);
    }
    for i := 0 to |Triplet|
      invariant forall k :: 0 <= k < i ==> CheckConvention(Triplet[k].name, centered[k]) == Pass
    {
      assert positions[Triplet[i].name] == InOrder(Triplet, positions)[i];
      var check := CheckConvention(Triplet[i].name, positions[Triplet[i].name]);
      if check.Fail? {
        assert FirstFailure(cosRefDec, i, check);
        return check;
      }
    }
    outcome := Pass;
  }
}
