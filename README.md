# Houses: a verified model of the d3 house-glyph chart

The chart draws each record of a dataset as a "house": a rectangular base and a
triangular roof, one house per band of a horizontal band scale. A record has an
`id` and four positive dimensions (`baseWidth`, `baseHeight`, `roofWidth`,
`roofHeight`). Clicking a base re-sorts the houses by (`baseHeight`, `baseWidth`).
Clicking a roof re-sorts them by (`roofHeight`, `roofWidth`). Either click
redraws the chart through d3's keyed enter/update/exit join.

This project models the logic underneath the rendering script `js/houses.js`:

- `Validation` is the nested loop that rejects the dataset at its first
  non-positive entry. The validator checks every entry of a row, `id`
  included, not only the four dimensions, and so does the model.
- `Scales` covers the linear scales, the domain maxima `maxValX` and `maxValY`,
  and the scales `updateXScale` and `updateYScale` build from them.
- `Geometry` is the rectangle and triangle that `drawHouses` and `updateHouses`
  compute for one record at one band.
- `Sorting` is the two-key comparator of `sortData` and a stable sort by it.
- `DataJoin` is the keyed data join `data(data, d => d.id)`, split into exit,
  enter and update.
- `Charts.Chart` is the script's global state: `currentData`, the band layout,
  the two linear scales and the drawn house groups. Its methods are the load
  handler, `updateDrawing`, `sortData` and the two click handlers.

All dimensions and coordinates are `real`. The band scale is library code. Its band starts and its
band width are parameters of the model.

## Model

| member | source | states |
|---|---|---|
| `Validation.ValidateDataset` | js/houses.js:203-210 | Succeeds exactly when every entry of every row (`id` included) is > 0, and then hands back the dataset unchanged. On failure the error names the first offending row in row order (1-based `i + 1`), the first offending key of that row in entry order, and that entry's value. |
| `HouseData.PositivePerm` | js/houses.js:203-210 | A reordering of the rows passes the positivity check exactly when the rows do. |
| `HouseData.SameIds` | js/houses.js:186-195 | Reordering the rows (what the in-place sort does) keeps the row count and the set of ids. |
| `Scales.MaxWidth` | js/houses.js:37-39 | `maxValX` is at least `baseWidth` and `roofWidth` of every row, and equals one of them. |
| `Scales.MaxHeight` | js/houses.js:58-60 | `maxValY` is at least `baseHeight + roofHeight` of every row, and equals one of those sums. |
| `Scales.MaxWidthPerm` | js/houses.js:37-39 | `maxValX` of a reordering of the rows is `maxValX` of the rows. |
| `Scales.MaxHeightPerm` | js/houses.js:58-60 | `maxValY` of a reordering of the rows is `maxValY` of the rows. |
| `Scales.ScalesPerm` | js/houses.js:186-196 | Scales built from the rows are exactly the scales built from any reordering of them. This is why `sortData` can redraw without calling `updateXScale` or `updateYScale`. |
| `Scales.MaximaPositive` | js/houses.js:203-216 | For a validated dataset both maxima are positive, so both scale domains are proper intervals. |
| `Scales.XScaleFor` | js/houses.js:29-45 | The x scale has domain [0, maxValX] and range [0, bandwidth], i.e. it maps v to v * bandwidth / maxValX. |
| `Scales.YScaleFor` | js/houses.js:53-66 | The y scale has domain [0, maxValY] and the inverted range [bandwidth * 1.3, 0], i.e. it maps v to bandwidth * 1.3 * (1 - v / maxValY). |
| `Scales.Apply` | js/houses.js:88-91 | Evaluating a linear scale, as `xScale(v)` and `yScale(v)` do: 0 goes to the range start, the domain maximum to the range end, and in between the result moves along the range in proportion to v / domainMax, with no clamping. |
| `Scales.ApplyWithinRange` | js/houses.js:26-26 | A linear scale maps a value inside its domain to a point inside its range, whichever way the range runs. |
| `Scales.ApplyStrictlyMonotone` | js/houses.js:55-55 | A linear scale is strictly increasing on an increasing range and strictly decreasing on an inverted one. |
| `Scales.ExampleDomains` | js/houses.js:37-65 | For two sample rows the horizontal maximum is 12, a base width. The vertical maximum is 35 (20 + 15), from the first row. |
| `Geometry.DrawHouse` | js/houses.js:85-108 | With xCenter = band start + bandwidth / 2: the rectangle has x + width / 2 = xCenter and y + height = bandwidth * 1.3. The roof's base corners share y = yScale(baseHeight), the rectangle's top edge. They lie symmetric about xCenter, `roofWidth` scaled apart. The apex is (xCenter, yScale(baseHeight + roofHeight)). |
| `Geometry.ApexAboveBase` | js/houses.js:88-96 | With an inverted y scale and a positive roof height, the apex lies strictly above the base's top edge. |
| `Geometry.HouseFitsBand` | js/houses.js:85-108 | With scales built from a validated dataset, each house of it fits its band (`Geometry.FitsBand`). The base and the roof lie within [band start, band start + bandwidth]. The apex is no higher than the top of the drawing area (y = 0) and lies above the base's top edge, which lies above the baseline. The base has positive height. |
| `Sorting.AscendingSign` | js/houses.js:188-189 | `d3.ascending` on numbers (`Sorting.Ascending`) is -1 exactly when a < b, 1 exactly when a > b and 0 exactly when they are equal. It is antisymmetric. |
| `Sorting.Compare` | js/houses.js:187-190 | The comparator is negative exactly when a is before b in the (key1, key2) order, and zero exactly when both keys are equal. |
| `Sorting.Insert` | js/houses.js:187-190 | Inserting adds exactly that record and keeps a sorted sequence sorted. |
| `Sorting.StableSort` | js/houses.js:186-190 | The sorted data is a permutation of the previous data, ascending by key1 with key2 breaking ties. |
| `Sorting.InsertTies` | js/houses.js:187-190 | Insertion puts the new record ahead of the records already there with the same keys, and leaves every other tie group as it was. |
| `Sorting.SortIsStable` | js/houses.js:187-190 | Stability: for every key pair, the records with those keys keep their previous relative order. |
| `Sorting.SortKeepsSorted` | js/houses.js:186-190 | Sorting data already in (key1, key2) order leaves it unchanged. |
| `Sorting.SortIdempotent` | js/houses.js:186-190 | Sorting twice with the same keys gives the same order as sorting once. |
| `Sorting.SortedArrangementUnique` | js/houses.js:186-190 | Two arrangements of the same records, both in (key1, key2) order and with the same order inside every tie group, are equal. |
| `Sorting.StableSortIsTheStableSort` | js/houses.js:186-190 | Any permutation of the data that is sorted by the comparator and keeps every tie group in its previous order is exactly `StableSort`'s result. Whichever stable algorithm the engine uses, it produces the same order. |
| `Sorting.InsertKeepsUniqueIds` | js/houses.js:187-187 | Inserting a record whose id is new keeps the ids distinct. |
| `Sorting.SortKeepsUniqueIds` | js/houses.js:187-187 | Sorting keeps distinct ids distinct, so the join keys stay unique. |
| `Sorting.BaseClickExample` | js/houses.js:110-110 | Three houses, two with base height 20: a base click orders them by base height, and the narrower base wins the tie. |
| `Sorting.RoofClickExample` | js/houses.js:119-119 | For the same houses, a roof click orders by roof height and width. The two houses with identical roofs keep their order. |
| `DataJoin.Reconcile` | js/houses.js:167-180 | One slot per new row, holding that row at its index. Slot i is an update exactly when row i's id was drawn before and no earlier row has that id; otherwise it is an enter. The exit set is the old ids minus the new ids. |
| `DataJoin.ReconcilePartition` | js/houses.js:167-180 | With unique ids: removed = old \ new, created = new \ old, retained = old ∩ new. Created and retained are disjoint and together make up the new ids. |
| `DataJoin.PermutationRetainsAll` | js/houses.js:195-195 | Redrawing a reordering of the drawn rows (what `sortData` does) creates nothing and removes nothing; every group is retained. |
| `DataJoin.ReconcileExample` | js/houses.js:167-180 | Old ids {1, 2, 3} and new rows with ids 4, 2, 3: 1 is removed, 4 enters at index 0, 2 and 3 are updated at indices 1 and 2. |
| `Charts.LayoutFitsBands` | js/houses.js:82-99 | With scales built from a validated dataset and a positive band width, every house drawn at its own index lies in its own band. |
| `Charts.RenderJoin` | js/houses.js:171-180 | Removing the exit groups, then drawing every enter row and redrawing every update row at its index, yields exactly the drawing of the new data. |
| `Charts.Chart.constructor` | js/houses.js:1-26 | The start state has no rows, an empty band domain, d3's default linear scales ([0, 1] to [0, 1]) and nothing drawn. |
| `Charts.Chart.UpdateBandScaleDomain` | js/houses.js:19-21 | The band layout becomes the one for the indices of the data. |
| `Charts.Chart.UpdateXScale` | js/houses.js:29-45 | `xScale` becomes the scale from maxValX to the current bandwidth. |
| `Charts.Chart.UpdateYScale` | js/houses.js:53-66 | `yScale` becomes the inverted scale from maxValY to bandwidth * 1.3. |
| `Charts.Chart.UpdateDrawing` | js/houses.js:161-181 | `currentData` becomes the new data, and the drawn groups become exactly its drawing. The groups redrawn through the transition are the ids both drawn before and present now. The chart invariant holds afterwards. When the new data is a reordering of the old, the unchanged scales still fit it exactly when they fitted the old data. |
| `Charts.Chart.SortData` | js/houses.js:186-196 | `currentData` becomes the stable (key1, key2) sort of its previous value, then is redrawn. No group is created or removed, and every group is animated. Scales and bands are not recomputed, and scales that fitted the data before the sort still fit it afterwards. |
| `Charts.Chart.ClickBase` | js/houses.js:110-110 | A base click sorts by (`baseHeight`, `baseWidth`). It creates and removes no group, animates every group and keeps the scales fitted. |
| `Charts.Chart.ClickRoof` | js/houses.js:119-119 | A roof click sorts by (`roofHeight`, `roofWidth`). It creates and removes no group, animates every group and keeps the scales fitted. |
| `Charts.Chart.DrawnHousesFitBands` | js/houses.js:82-99 | Once the scales fit the current rows and the band width is positive, every row has a drawn group, and that group lies in the row's band. This holds after loading and after any number of clicks. |
| `Charts.Chart.OnDatasetLoaded` | js/houses.js:200-218 | The handler succeeds exactly when every entry is positive. On failure it reports the first violation and changes no state: no scale and no drawing update. On success it configures the bands and both scales from the dataset and draws it unchanged, so the scales fit the current rows (`Configured`). The animated groups are the ids drawn before that are present now; on the first load that is none, since every house enters fresh. |

## Left out

- Loading through `d3.json`, the promise chain and the `catch` that logs the error are asynchronous I/O. `Charts.Chart.OnDatasetLoaded` is the `then` handler applied to an already parsed dataset, and a failure is returned as `Err`.
- The text of the error message is left out. The model keeps what the message names: the 1-based row, the key (`HouseData.FieldName` gives its spelling) and the value. Number-to-string formatting is not modelled.
- The order of `Object.entries(row)` follows the key order of the dataset file, which the script does not fix. The model assumes `id, baseWidth, baseHeight, roofWidth, roofHeight`. That order decides which key is reported when one row has several non-positive entries.
- `House.id` is an integer. The script accepts any positive number as an id (a JSON `0.5` passes the `value <= 0` check and serves as a join key), so the model covers only datasets whose ids are whole numbers. d3's conversion of keys to strings is not modelled either.
- SVG creation, the canvas size (925 × 1202.5), class names, fill colours and the `points` string are rendering plumbing. A drawn group is modelled by its final numeric geometry (`Geometry.Glyph`). The click wiring is modelled only as the key pair each click passes to `sortData`.
- Transitions, their 5000 ms duration and clicks during an animation are timer-driven and visual. The model keeps each group's target geometry, plus the set of ids redrawn through the transition (`Charts.Chart.animated`).
- The sibling order of the `g.house` groups in the SVG is not modelled: the drawn groups are a map keyed by id. A house's position is carried by its geometry.
- `d3.scaleBand().rangeRound(...).padding(.1)` is library code with integer rounding. Band starts and band width are parameters of `Charts.Chart.UpdateBandScaleDomain` and of the constructor.
- `Charts.Chart.UpdateDrawing` requires one band per row. The script only calls it with data of the length the band domain was set for, and `bandScale(i)` is undefined outside that domain.
- `Charts.Chart.OnDatasetLoaded` requires a non-empty dataset with unique ids. For an empty dataset `d3.max` returns `undefined`. The join keys assume unique ids. `DataJoin.Reconcile` itself handles repeated ids as d3 does: a later repeat enters.
- `Array.prototype.sort` is engine code. The model sorts with `Sorting.StableSort`, a stable insertion sort, as a function on sequences. `Sorting.StableSortIsTheStableSort` shows that every stable sort by the same comparator gives the same result. The in-place mutation of `currentData` is modelled by reassigning the `currentData` sequence field.
- IEEE floating point (rounding, NaN, `d3.ascending`'s NaN case) is left out. All arithmetic is exact `real` arithmetic.
- `console.log` diagnostics are left out.
