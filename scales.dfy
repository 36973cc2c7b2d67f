/**
 * The horizontal and vertical linear scales (`xScale`, `yScale`) and the
 * domain maxima they are configured with (`updateXScale`, `updateYScale`).
 */
module Scales {
  import opened HouseData

  /** A d3 linear scale with domain [0, domainMax] and range [rangeStart, rangeEnd]. */
  datatype LinearScale = LinearScale(domainMax: real, rangeStart: real, rangeEnd: real)

  /** `d3.scaleLinear()` before any configuration: domain [0, 1], range [0, 1]. */
  const DefaultScale := LinearScale(1.0, 0.0, 1.0)

  /** Normalise into the domain, then interpolate the range; no clamping. */
  function Apply(s: LinearScale, v: real): (y: real)
    requires s.domainMax != 0.0
    // the ends of the domain go to the ends of the range
    ensures v == 0.0 ==> y == s.rangeStart
    ensures v == s.domainMax ==> y == s.rangeEnd
    // equal steps in the domain are equal steps in the range
    ensures y - s.rangeStart == (s.rangeEnd - s.rangeStart) * (v / s.domainMax)
  {
    var t := v / s.domainMax;
    s.rangeStart * (1.0 - t) + s.rangeEnd * t
  }

  function Max(a: real, b: real): real {
    if a >= b then a else b
  }

  /** What `updateXScale` maximises over: `Math.max(d.baseWidth, d.roofWidth)`. */
  function HouseWidth(d: House): real {
    Max(d.baseWidth, d.roofWidth)
  }

  /** What `updateYScale` maximises over: `d.baseHeight + d.roofHeight`. */
  function HouseHeight(d: House): real {
    d.baseHeight + d.roofHeight
  }

  /** `maxValX`: d3.max scanning the rows left to right. */
  function MaxWidth(data: seq<House>): (m: real)
    requires |data| > 0
    ensures forall i | 0 <= i < |data| :: data[i].baseWidth <= m && data[i].roofWidth <= m
    ensures exists i | 0 <= i < |data| :: m == data[i].baseWidth || m == data[i].roofWidth
  {
    if |data| == 1 then HouseWidth(data[0])
    else
      var m := MaxWidth(data[..|data| - 1]);
      var v := HouseWidth(data[|data| - 1]);
      if v > m then v else m
  }

  /** `maxValY`: d3.max of the house heights, scanning the rows left to right. */
  function MaxHeight(data: seq<House>): (m: real)
    requires |data| > 0
    ensures forall i | 0 <= i < |data| :: HouseHeight(data[i]) <= m
    ensures exists i | 0 <= i < |data| :: m == HouseHeight(data[i])
  {
    if |data| == 1 then HouseHeight(data[0])
    else
      var m := MaxHeight(data[..|data| - 1]);
      var v := HouseHeight(data[|data| - 1]);
      if v > m then v else m
  }

  /** `maxValX` does not depend on the order of the rows. */
  lemma MaxWidthPerm(a: seq<House>, b: seq<House>)
    requires |a| > 0 && multiset(a) == multiset(b)
    ensures |b| > 0 && MaxWidth(a) == MaxWidth(b)
  {
    assert a[0] in multiset(b);
    var i :| 0 <= i < |a| && (MaxWidth(a) == a[i].baseWidth || MaxWidth(a) == a[i].roofWidth);
    assert a[i] in multiset(b);
    var j :| 0 <= j < |b| && (MaxWidth(b) == b[j].baseWidth || MaxWidth(b) == b[j].roofWidth);
    assert b[j] in multiset(a);
  }

  /** `maxValY` does not depend on the order of the rows. */
  lemma MaxHeightPerm(a: seq<House>, b: seq<House>)
    requires |a| > 0 && multiset(a) == multiset(b)
    ensures |b| > 0 && MaxHeight(a) == MaxHeight(b)
  {
    assert a[0] in multiset(b);
    var i :| 0 <= i < |a| && MaxHeight(a) == HouseHeight(a[i]);
    assert a[i] in multiset(b);
    var j :| 0 <= j < |b| && MaxHeight(b) == HouseHeight(b[j]);
    assert b[j] in multiset(a);
  }

  /** `xs` and `ys` are the scales `updateXScale` and `updateYScale` build from `data` for bands of width `bandWidth`. */
  predicate ScalesFrom(data: seq<House>, bandWidth: real, xs: LinearScale, ys: LinearScale) {
    && |data| > 0 && AllPositive(data)
    && xs == XScaleFor(data, bandWidth)
    && ys == YScaleFor(data, bandWidth)
  }

  /** The scales built from the rows are the scales built from any reordering of them. */
  lemma ScalesPerm(a: seq<House>, b: seq<House>, bandWidth: real, xs: LinearScale, ys: LinearScale)
    requires multiset(a) == multiset(b)
    ensures ScalesFrom(a, bandWidth, xs, ys) <==> ScalesFrom(b, bandWidth, xs, ys)
  {
    PositivePerm(a, b);
    SameIds(a, b);
    if |a| > 0 {
      MaxWidthPerm(a, b);
      MaxHeightPerm(a, b);
    }
  }

  /** Every maximum of a validated dataset is positive, so both scales have a proper domain. */
  lemma MaximaPositive(data: seq<House>)
    requires |data| > 0 && AllPositive(data)
    ensures MaxWidth(data) > 0.0 && MaxHeight(data) > 0.0
  {
    var i :| 0 <= i < |data| && (MaxWidth(data) == data[i].baseWidth || MaxWidth(data) == data[i].roofWidth);
    var j :| 0 <= j < |data| && MaxHeight(data) == HouseHeight(data[j]);
    RowPositiveFields(data[i]);
    RowPositiveFields(data[j]);
  }

  /** `xScale` after `updateXScale(data)`: domain [0, maxValX], range [0, bandwidth]. */
  function XScaleFor(data: seq<House>, bandWidth: real): (s: LinearScale)
    requires |data| > 0 && AllPositive(data)
    ensures s.domainMax == MaxWidth(data) > 0.0
    ensures forall v {:trigger Apply(s, v)} :: Apply(s, v) == v * bandWidth / MaxWidth(data)
  {
    MaximaPositive(data);
    var s := LinearScale(MaxWidth(data), 0.0, bandWidth);
    XScaleFormula(s, bandWidth);
    s
  }

  lemma XScaleFormula(s: LinearScale, bandWidth: real)
    requires s.domainMax != 0.0 && s.rangeStart == 0.0 && s.rangeEnd == bandWidth
    ensures forall v {:trigger Apply(s, v)} :: Apply(s, v) == v * bandWidth / s.domainMax
  {
    forall v ensures Apply(s, v) == v * bandWidth / s.domainMax {
      DivMul(v, bandWidth, s.domainMax);
    }
  }

  /** `yScale` after `updateYScale(data)`: domain [0, maxValY], range [bandwidth * 1.3, 0]. */
  function YScaleFor(data: seq<House>, bandWidth: real): (s: LinearScale)
    requires |data| > 0 && AllPositive(data)
    ensures s.domainMax == MaxHeight(data) > 0.0
    ensures forall v {:trigger Apply(s, v)} :: Apply(s, v) == bandWidth * 1.3 * (1.0 - v / MaxHeight(data))
  {
    MaximaPositive(data);
    LinearScale(MaxHeight(data), bandWidth * 1.3, 0.0)
  }

  lemma DivMul(v: real, b: real, m: real)
    requires m != 0.0
    ensures b * (v / m) == v * b / m
  {
    calc {
      b * (v / m);
      == { assert v / m * m == v; }
      (v * b) / m;
    }
  }

  /** A value inside the domain is mapped inside the range, whichever way the range runs. */
  lemma ApplyWithinRange(s: LinearScale, v: real)
    requires s.domainMax > 0.0 && 0.0 <= v <= s.domainMax
    ensures s.rangeStart <= s.rangeEnd ==> s.rangeStart <= Apply(s, v) <= s.rangeEnd
    ensures s.rangeEnd <= s.rangeStart ==> s.rangeEnd <= Apply(s, v) <= s.rangeStart
  {
    var t := v / s.domainMax;
    assert 0.0 <= t <= 1.0;
    assert Apply(s, v) == s.rangeStart + (s.rangeEnd - s.rangeStart) * t;
    MulUnit(s.rangeEnd - s.rangeStart, t);
  }

  /** Larger inputs land strictly further along the range. */
  lemma ApplyStrictlyMonotone(s: LinearScale, u: real, v: real)
    requires s.domainMax > 0.0 && u < v
    ensures s.rangeStart < s.rangeEnd ==> Apply(s, u) < Apply(s, v)
    ensures s.rangeEnd < s.rangeStart ==> Apply(s, v) < Apply(s, u)
  {
    var d := s.rangeEnd - s.rangeStart;
    var tu, tv := u / s.domainMax, v / s.domainMax;
    DivStrict(u, v, s.domainMax);
    assert Apply(s, v) - Apply(s, u) == d * (tv - tu);
    assert d > 0.0 ==> d * (tv - tu) > 0.0;
    assert d < 0.0 ==> d * (tv - tu) < 0.0;
  }

  lemma DivStrict(u: real, v: real, m: real)
    requires m > 0.0 && u < v
    ensures u / m < v / m
  {
    assert (v - u) / m > 0.0;
  }

  lemma MulUnit(d: real, t: real)
    requires 0.0 <= t <= 1.0
    ensures d >= 0.0 ==> 0.0 <= d * t <= d
    ensures d <= 0.0 ==> d <= d * t <= 0.0
  {
  }

  /** Two rows: the horizontal maximum comes from a base width, the vertical one (20 + 15) from the first row. */
  lemma ExampleDomains()
    ensures MaxWidth([House(1, 10.0, 20.0, 8.0, 15.0), House(2, 12.0, 18.0, 9.0, 10.0)]) == 12.0
    ensures MaxHeight([House(1, 10.0, 20.0, 8.0, 15.0), House(2, 12.0, 18.0, 9.0, 10.0)]) == 35.0
  {
    var data := [House(1, 10.0, 20.0, 8.0, 15.0), House(2, 12.0, 18.0, 9.0, 10.0)];
    assert data[..1] == [data[0]];
  }
}
