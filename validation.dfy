/** The check run on the loaded dataset before anything is drawn (js/houses.js, the `then` handler). */
module Validation {
  import opened Wrappers
  import opened HouseData

  /** "not positive value (value) at row `row`, field `FieldName(field)`"; `row` is 1-based. */
  datatype ValidationError = NotPositive(row: nat, field: Field, value: real)

  /** `e` names the first non-positive entry of `data`, rows first, then keys in entry order. */
  predicate IsFirstViolation(data: seq<House>, e: ValidationError) {
    && 1 <= e.row <= |data|
    && e.value == Get(data[e.row - 1], e.field)
    && e.value <= 0.0
    && (forall j | 0 <= j < e.row - 1 :: RowPositive(data[j]))
    && (forall k | 0 <= k < FieldIndex(e.field) :: Get(data[e.row - 1], Fields[k]) > 0.0)
  }

  /**
   * The nested loop over rows and `Object.entries(row)` that throws at the
   * first value `<= 0`; on success the dataset is handed on unchanged.
   */
  method ValidateDataset(data: seq<House>) returns (r: Result<seq<House>, ValidationError>)
    ensures r.Ok? <==> AllPositive(data)
    ensures r.Ok? ==> r.value == data
    ensures r.Err? ==> IsFirstViolation(data, r.error)
  {
    for i := 0 to |data|
      invariant forall j | 0 <= j < i :: RowPositive(data[j])
    {
      var row := data[i];
      for k := 0 to |Fields|
        invariant forall k' | 0 <= k' < k :: Get(row, Fields[k']) > 0.0
      {
        var value := Get(row, Fields[k]);
        if value <= 0.0 {
          assert FieldIndex(Fields[k]) == k;
          return Err(NotPositive(i + 1, Fields[k], value));
        }
      }
    }
    return Ok(data);
  }
}
