/**
 * The coordinates `drawHouses` and `updateHouses` give one house: a base
 * rectangle standing on the band's baseline and a roof triangle on top of it.
 */
module Geometry {
  import opened HouseData
  import opened Scales

  datatype Point = Point(x: real, y: real)

  /** The `rect` attributes x, y, width, height. */
  datatype Rect = Rect(x: real, y: real, width: real, height: real)

  /** The `polygon` points: left base corner, apex, right base corner. */
  datatype Triangle = Triangle(left: Point, apex: Point, right: Point)

  datatype Glyph = Glyph(base: Rect, roof: Triangle)

  /** The height of a band's drawing area relative to its width. */
  const HeightRatio: real := 1.3

  /**
   * Geometry of house `d` drawn in the band starting at `bandStart`
   * (`bandScale(i)`) of width `bandWidth` (`bandScale.bandwidth()`).
   */
  function DrawHouse(d: House, bandStart: real, bandWidth: real, xs: LinearScale, ys: LinearScale): (g: Glyph)
    requires xs.domainMax != 0.0 && ys.domainMax != 0.0
    // the base is centred in the band and stands on the baseline bandwidth * 1.3
    ensures g.base.x + g.base.width / 2.0 == bandStart + bandWidth / 2.0
    ensures g.base.y + g.base.height == bandWidth * HeightRatio
    ensures g.base.width == Apply(xs, d.baseWidth) && g.base.y == Apply(ys, d.baseHeight)
    // the roof's base corners lie on the top edge of the base, symmetric about the centre
    ensures g.roof.left.y == g.roof.right.y == g.base.y
    ensures g.roof.left.x + g.roof.right.x == 2.0 * (bandStart + bandWidth / 2.0)
    ensures g.roof.right.x - g.roof.left.x == Apply(xs, d.roofWidth)
    // the apex is above the centre, at the scaled total house height
    ensures g.roof.apex == Point(bandStart + bandWidth / 2.0, Apply(ys, d.baseHeight + d.roofHeight))
  {
    var xCenter := bandStart + bandWidth / 2.0;
    var baseHeight := Apply(ys, d.baseHeight);
    var baseWidth := Apply(xs, d.baseWidth);
    var houseHeight := Apply(ys, d.baseHeight + d.roofHeight);
    var roofWidth := Apply(xs, d.roofWidth);
    Glyph(
      Rect(xCenter - baseWidth / 2.0, baseHeight, baseWidth, bandWidth * HeightRatio - baseHeight),
      Triangle(Point(xCenter - roofWidth / 2.0, baseHeight),
               Point(xCenter, houseHeight),
               Point(xCenter + roofWidth / 2.0, baseHeight)))
  }

  /**
   * With the vertical scale inverted (range [bandwidth * 1.3, 0]) a positive
   * roof height puts the apex strictly above the base's top edge.
   */
  lemma ApexAboveBase(d: House, bandStart: real, bandWidth: real, xs: LinearScale, ys: LinearScale)
    requires xs.domainMax != 0.0 && ys.domainMax > 0.0
    requires ys.rangeEnd < ys.rangeStart
    requires d.roofHeight > 0.0
    ensures DrawHouse(d, bandStart, bandWidth, xs, ys).roof.apex.y < DrawHouse(d, bandStart, bandWidth, xs, ys).base.y
  {
    ApplyStrictlyMonotone(ys, d.baseHeight, d.baseHeight + d.roofHeight);
  }

  /**
   * `g` lies in the band starting at `bandStart`: horizontally within
   * [bandStart, bandStart + bandWidth], vertically between the top of the
   * drawing area (0) and the baseline, with a base of positive height and
   * the apex above it.
   */
  predicate FitsBand(g: Glyph, bandStart: real, bandWidth: real) {
    && bandStart <= g.base.x && g.base.x + g.base.width <= bandStart + bandWidth
    && bandStart <= g.roof.left.x && g.roof.right.x <= bandStart + bandWidth
    && 0.0 <= g.roof.apex.y < g.base.y < bandWidth * HeightRatio
    && g.base.height > 0.0
  }

  /**
   * With scales configured from a validated dataset, every house of that
   * dataset fits in its band.
   */
  lemma HouseFitsBand(data: seq<House>, i: nat, bandStart: real, bandWidth: real)
    requires |data| > 0 && AllPositive(data) && i < |data|
    requires bandWidth > 0.0
    ensures FitsBand(DrawHouse(data[i], bandStart, bandWidth, XScaleFor(data, bandWidth), YScaleFor(data, bandWidth)), bandStart, bandWidth)
  {
    var d := data[i];
    var xs, ys := XScaleFor(data, bandWidth), YScaleFor(data, bandWidth);
    RowPositiveFields(d);
    ApplyWithinRange(xs, d.baseWidth);
    ApplyWithinRange(xs, d.roofWidth);
    ApplyWithinRange(ys, d.baseHeight + d.roofHeight);
    ApplyStrictlyMonotone(ys, 0.0, d.baseHeight);
    ApplyStrictlyMonotone(ys, d.baseHeight, d.baseHeight + d.roofHeight);
    assert Apply(ys, 0.0) == bandWidth * HeightRatio;
  }
}
