/**
 * The script's process-wide state and its operations: the current dataset,
 * the three scales, and the house groups drawn in the SVG.
 */
module Charts {
  import opened Wrappers
  import opened HouseData
  import opened Validation
  import opened Scales
  import opened Geometry
  import opened Sorting
  import opened DataJoin

  /** The geometry of each row at its own index: `layout[i]` is what drawHouses/updateHouses compute for row i. */
  function Layout(data: seq<House>, bands: seq<real>, bandWidth: real, xs: LinearScale, ys: LinearScale): (layout: seq<Glyph>)
    requires |bands| == |data|
    requires xs.domainMax != 0.0 && ys.domainMax != 0.0
    ensures |layout| == |data|
    ensures forall i | 0 <= i < |data| :: layout[i] == DrawHouse(data[i], bands[i], bandWidth, xs, ys)
  {
    seq(|data|, i requires 0 <= i < |data| => DrawHouse(data[i], bands[i], bandWidth, xs, ys))
  }

  /** With scales configured from a validated dataset, every house of its layout lies in its own band. */
  lemma LayoutFitsBands(data: seq<House>, bands: seq<real>, bandWidth: real)
    requires |data| > 0 && AllPositive(data) && |bands| == |data| && bandWidth > 0.0
    ensures var layout := Layout(data, bands, bandWidth, XScaleFor(data, bandWidth), YScaleFor(data, bandWidth));
      forall i | 0 <= i < |data| :: FitsBand(layout[i], bands[i], bandWidth)
  {
    forall i | 0 <= i < |data|
      ensures FitsBand(DrawHouse(data[i], bands[i], bandWidth, XScaleFor(data, bandWidth), YScaleFor(data, bandWidth)), bands[i], bandWidth)
    {
      HouseFitsBand(data, i, bands[i], bandWidth);
    }
  }

  /** The house groups of the SVG once `data` is drawn with `layout`: one per id, holding its row's geometry. */
  function Drawing(data: seq<House>, layout: seq<Glyph>): (m: map<int, Glyph>)
    requires |layout| == |data| && UniqueIds(data)
    ensures m.Keys == Ids(data)
    ensures forall i | 0 <= i < |data| :: m[data[i].id] == layout[i]
  {
    assert forall h | h in data :: exists i :: 0 <= i < |data| && data[i] == h;
    map i | 0 <= i < |data| :: data[i].id := layout[i]
  }

  lemma IdsPrefix(data: seq<House>, i: nat)
    requires i < |data|
    ensures Ids(data[..i + 1]) == Ids(data[..i]) + {data[i].id}
  {
    assert data[..i + 1] == data[..i] + [data[i]];
  }

  lemma EarlierIdsDiffer(data: seq<House>, i: nat)
    requires UniqueIds(data) && i < |data|
    ensures forall k | 0 <= k < i :: data[k].id != data[i].id
  {
  }

  /** A map with the ids of `data` as keys that holds each row's geometry is the drawing of `data`. */
  lemma DrawingExtensional(g: map<int, Glyph>, data: seq<House>, layout: seq<Glyph>)
    requires |layout| == |data| && UniqueIds(data)
    requires g.Keys == Ids(data)
    requires forall k | 0 <= k < |data| :: g[data[k].id] == layout[k]
    ensures g == Drawing(data, layout)
  {
    var drawn := Drawing(data, layout);
    forall id | id in g ensures g[id] == drawn[id] {
      var h :| h in data && h.id == id;
      var k :| 0 <= k < |data| && data[k] == h;
    }
  }

  /**
   * Apply a join to the drawn groups: remove the exit groups, then give every
   * row's group (fresh for Enter, existing for Update) the geometry of its index.
   */
  method RenderJoin(groups: map<int, Glyph>, join: Join, data: seq<House>, layout: seq<Glyph>) returns (g: map<int, Glyph>)
    requires |join.slots| == |data| && forall i | 0 <= i < |data| :: join.slots[i].datum == data[i]
    requires join.exit == groups.Keys - Ids(data)
    requires |layout| == |data| && UniqueIds(data)
    ensures g == Drawing(data, layout)
  {
    g := groups - join.exit;   // exit().remove()
    assert data[..0] == [];
    for i := 0 to |data|
      invariant g.Keys == groups.Keys * Ids(data) + Ids(data[..i])
      invariant forall k | 0 <= k < i :: g[data[k].id] == layout[k]
    {
      // drawHouses for an Enter slot; updateHouses, animated to the same geometry, for an Update slot
      var d := join.slots[i].datum;
      IdsPrefix(data, i);
      EarlierIdsDiffer(data, i);
      g := g[d.id := layout[i]];
    }
    assert data[..|data|] == data;
    DrawingExtensional(g, data, layout);
  }

  class Chart {
    /** `currentData`: the rows in drawing order. */
    var currentData: seq<House>
    /** `bandScale(i)` for every index of the band scale's domain. */
    var bands: seq<real>
    /** `bandScale.bandwidth()`. */
    var bandWidth: real
    var xScale: LinearScale
    var yScale: LinearScale
    /** The `g.house` groups of the SVG, keyed by the id bound to them, with their final geometry. */
    var glyphs: map<int, Glyph>
    /** Ids of the groups the last redraw moved through the timed transition (the update selection). */
    var animated: set<int>

    ghost predicate ScalesReady()
      reads this
    {
      xScale.domainMax != 0.0 && yScale.domainMax != 0.0
    }

    /** The scales are the ones `updateXScale` and `updateYScale` compute from the current rows. */
    ghost predicate Configured()
      reads this
    {
      ScalesFrom(currentData, bandWidth, xScale, yScale)
    }

    /** With configured scales and a positive band width, every drawn house lies in the band of its row. */
    lemma DrawnHousesFitBands()
      requires Valid() && Configured() && bandWidth > 0.0
      ensures forall i | 0 <= i < |currentData| ::
        currentData[i].id in glyphs && FitsBand(glyphs[currentData[i].id], bands[i], bandWidth)
    {
      var layout := Layout(currentData, bands, bandWidth, xScale, yScale);
      LayoutFitsBands(currentData, bands, bandWidth);
      forall i | 0 <= i < |currentData|
        ensures currentData[i].id in glyphs && FitsBand(glyphs[currentData[i].id], bands[i], bandWidth)
      {
        assert glyphs[currentData[i].id] == layout[i];
      }
    }

    /** One band per row, distinct ids, and the SVG shows exactly the current rows. */
    ghost predicate Valid()
      reads this
    {
      && ScalesReady()
      && |bands| == |currentData|
      && UniqueIds(currentData)
      && glyphs == Drawing(currentData, Layout(currentData, bands, bandWidth, xScale, yScale))
    }

    /** The state before the dataset arrives: no rows, an empty band domain, default linear scales. */
    constructor (emptyBandWidth: real)
      ensures Valid()
      ensures currentData == [] && bands == [] && bandWidth == emptyBandWidth
      ensures xScale == DefaultScale && yScale == DefaultScale
      ensures glyphs == map[] && animated == {}
    {
      currentData := [];
      bands := [];
      bandWidth := emptyBandWidth;
      xScale := DefaultScale;
      yScale := DefaultScale;
      glyphs := map[];
      animated := {};
    }

    /** `updatebandScaleDomain`: the domain becomes the indices of `data`; `starts` and `width` are what d3 lays out for it. */
    method UpdateBandScaleDomain(data: seq<House>, starts: seq<real>, width: real)
      requires |starts| == |data|
      modifies this`bands, this`bandWidth
      ensures bands == starts && bandWidth == width
    {
      bands := starts;
      bandWidth := width;
    }

    /** `updateXScale`: range [0, bandwidth], domain [0, maxValX]. */
    method UpdateXScale(data: seq<House>)
      requires |data| > 0 && AllPositive(data)
      modifies this`xScale
      ensures xScale == XScaleFor(data, bandWidth)
    {
      xScale := LinearScale(MaxWidth(data), 0.0, bandWidth);
    }

    /** `updateYScale`: range [bandwidth * 1.3, 0], domain [0, maxValY]. */
    method UpdateYScale(data: seq<House>)
      requires |data| > 0 && AllPositive(data)
      modifies this`yScale
      ensures yScale == YScaleFor(data, bandWidth)
    {
      yScale := LinearScale(MaxHeight(data), bandWidth * HeightRatio, 0.0);
    }

    /**
     * `updateDrawing`: store the rows, remove the exit groups, draw the enter
     * rows and redraw the update rows, each at its index in `data`.
     */
    method UpdateDrawing(data: seq<House>)
      requires ScalesReady() && |data| == |bands| && UniqueIds(data)
      modifies this`currentData, this`glyphs, this`animated
      ensures Valid()
      ensures currentData == data
      ensures glyphs == Drawing(data, Layout(data, bands, bandWidth, xScale, yScale))
      ensures animated == old(glyphs.Keys) * Ids(data)
      // redrawing a reordering of the rows keeps the scales fitted to them
      ensures multiset(data) == multiset(old(currentData)) ==> (old(Configured()) <==> Configured())
    {
      if multiset(data) == multiset(currentData) {
        ScalesPerm(currentData, data, bandWidth, xScale, yScale);
      }
      currentData := data;
      var join := Reconcile(glyphs.Keys, data);
      assert UpdateIds(join) == glyphs.Keys * Ids(data) by {
        ReconcilePartition(glyphs.Keys, data);
      }
      animated := UpdateIds(join);
      glyphs := RenderJoin(glyphs, join, data, Layout(data, bands, bandWidth, xScale, yScale));
    }

    /** `sortData(key1, key2)`: stable ascending sort of the rows by (key1, key2), then redraw. */
    method SortData(key1: Field, key2: Field)
      requires Valid()
      modifies this`currentData, this`glyphs, this`animated
      ensures Valid()
      ensures currentData == StableSort(old(currentData), key1, key2)
      ensures glyphs.Keys == old(glyphs.Keys) && animated == old(glyphs.Keys)
      // reordering keeps both maxima, so the unchanged scales still fit the rows
      ensures old(Configured()) ==> Configured()
    {
      var sorted := StableSort(currentData, key1, key2);
      SortKeepsUniqueIds(currentData, key1, key2);
      SameIds(sorted, currentData);
      UpdateDrawing(sorted);
    }

    /** A click on a base rectangle. */
    method ClickBase()
      requires Valid()
      modifies this`currentData, this`glyphs, this`animated
      ensures Valid()
      ensures currentData == StableSort(old(currentData), BaseHeight, BaseWidth)
      ensures glyphs.Keys == old(glyphs.Keys) && animated == old(glyphs.Keys)
      ensures old(Configured()) ==> Configured()
    {
      SortData(BaseHeight, BaseWidth);
    }

    /** A click on a roof triangle. */
    method ClickRoof()
      requires Valid()
      modifies this`currentData, this`glyphs, this`animated
      ensures Valid()
      ensures currentData == StableSort(old(currentData), RoofHeight, RoofWidth)
      ensures glyphs.Keys == old(glyphs.Keys) && animated == old(glyphs.Keys)
      ensures old(Configured()) ==> Configured()
    {
      SortData(RoofHeight, RoofWidth);
    }

    /**
     * The `then` handler of the dataset load: validate, and only on success
     * configure the band, horizontal and vertical scales and draw.
     * `starts` and `width` are the band layout d3 computes for `|data|` bands.
     */
    method OnDatasetLoaded(data: seq<House>, starts: seq<real>, width: real) returns (r: Result<seq<House>, ValidationError>)
      requires |data| > 0 && |starts| == |data| && UniqueIds(data)
      modifies this
      ensures r.Ok? <==> AllPositive(data)
      ensures r.Err? ==> IsFirstViolation(data, r.error) && unchanged(this)
      ensures r.Ok? ==> && Valid() && Configured()
                        && animated == old(glyphs.Keys) * Ids(data)
                        && currentData == data && bands == starts && bandWidth == width
                        && xScale == XScaleFor(data, width) && yScale == YScaleFor(data, width)
    {
      r := ValidateDataset(data);
      if r.Ok? {
        ghost var drawn := glyphs.Keys;
        UpdateBandScaleDomain(data, starts, width);
        UpdateXScale(data);
        UpdateYScale(data);
        assert glyphs.Keys == drawn;
        UpdateDrawing(data);
      }
    }
  }
}
