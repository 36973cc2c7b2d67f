/**
 * One row of the dataset: an identity and the four dimensions of a house
 * (a rectangular base and a triangular roof).
 */
module HouseData {

  datatype Field = Id | BaseWidth | BaseHeight | RoofWidth | RoofHeight

  datatype House = House(id: int, baseWidth: real, baseHeight: real, roofWidth: real, roofHeight: real)

  /** The keys of a row in the order `Object.entries` yields them (the order of the dataset's JSON keys). */
  const Fields: seq<Field> := [Id, BaseWidth, BaseHeight, RoofWidth, RoofHeight]

  /** Position of a field in `Fields`. */
  function FieldIndex(f: Field): (k: nat)
    ensures k < |Fields| && Fields[k] == f
  {
    match f
    case Id => 0
    case BaseWidth => 1
    case BaseHeight => 2
    case RoofWidth => 3
    case RoofHeight => 4
  }

  /** The property name as it appears in the record (`a[key]` in the comparator, `key` in the error). */
  function FieldName(f: Field): string {
    match f
    case Id => "id"
    case BaseWidth => "baseWidth"
    case BaseHeight => "baseHeight"
    case RoofWidth => "roofWidth"
    case RoofHeight => "roofHeight"
  }

  /** `row[key]`: every field, the id included, read as a number. */
  function Get(h: House, f: Field): real {
    match f
    case Id => h.id as real
    case BaseWidth => h.baseWidth
    case BaseHeight => h.baseHeight
    case RoofWidth => h.roofWidth
    case RoofHeight => h.roofHeight
  }

  /** Every entry of the row is strictly positive. */
  predicate RowPositive(h: House) {
    forall f | f in Fields :: Get(h, f) > 0.0
  }

  predicate AllPositive(data: seq<House>) {
    forall i | 0 <= i < |data| :: RowPositive(data[i])
  }

  /** The keys `d => d.id` the data join uses. */
  function Ids(data: seq<House>): set<int> {
    set h | h in data :: h.id
  }

  predicate UniqueIds(data: seq<House>) {
    forall i, j | 0 <= i < j < |data| :: data[i].id != data[j].id
  }

  lemma RowPositiveFields(h: House)
    requires RowPositive(h)
    ensures h.id > 0 && h.baseWidth > 0.0 && h.baseHeight > 0.0 && h.roofWidth > 0.0 && h.roofHeight > 0.0
  {
    assert Get(h, Fields[0]) > 0.0 && Get(h, Fields[1]) > 0.0 && Get(h, Fields[2]) > 0.0;
    assert Get(h, Fields[3]) > 0.0 && Get(h, Fields[4]) > 0.0;
  }

  /** Reordering rows keeps every row, so it keeps the dataset valid. */
  lemma PositivePerm(a: seq<House>, b: seq<House>)
    requires multiset(a) == multiset(b)
    ensures AllPositive(a) <==> AllPositive(b)
  {
    forall i | 0 <= i < |b| && AllPositive(a) ensures RowPositive(b[i]) {
      assert b[i] in multiset(a);
      var k :| 0 <= k < |a| && a[k] == b[i];
    }
    forall i | 0 <= i < |a| && AllPositive(b) ensures RowPositive(a[i]) {
      assert a[i] in multiset(b);
      var k :| 0 <= k < |b| && b[k] == a[i];
    }
  }

  /** Reordering rows keeps the set of ids. */
  lemma SameIds(a: seq<House>, b: seq<House>)
    requires multiset(a) == multiset(b)
    ensures |a| == |b| && Ids(a) == Ids(b)
  {
    assert |multiset(a)| == |a| && |multiset(b)| == |b|;
    assert forall h :: h in a <==> h in multiset(a);
    assert forall h :: h in b <==> h in multiset(b);
  }
}
