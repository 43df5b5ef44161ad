/** The foreign collaborators of the transform jobs — the raw-JSON store,
    `validate`, and the publish sink — seen only through the calls a job
    makes to them, in order. */
module Sink {
  import opened PyJson

  datatype UploadMode = Overwrite | DefaultMode

  datatype Call =
    | LoadRaw(slot: string)
    | Validate
    | Upload(datasetId: string, mode: UploadMode)
    | Publish(datasetId: string)

  /** Every call a transform job makes when nothing raises: load the raw
      snapshot, validate the table, upload it, then publish its metadata. */
  function FullRun(slot: string, datasetId: string, mode: UploadMode): seq<Call> {
    [LoadRaw(slot), Validate, Upload(datasetId, mode), Publish(datasetId)]
  }

  /** The rule set handed to `validate(table, rules)`: declared column
      types, columns that must hold no null, columns whose values must be
      distinct, and a minimum row count. */
  datatype Rules = Rules(
    columns: seq<(string, ColumnType)>,
    notNull: seq<string>,
    unique: seq<string>,
    minRows: nat)

  /** One row satisfies the per-row rules: every declared column holds a
      value of its type, and no never-null column holds null. */
  predicate RowSatisfies<T>(row: T, column: (T, string) -> Json, rules: Rules) {
    && (forall k :: 0 <= k < |rules.columns| ==> HasType(column(row, rules.columns[k].0), rules.columns[k].1))
    && (forall k :: 0 <= k < |rules.notNull| ==> column(row, rules.notNull[k]) != JNull)
  }

  /** The table satisfies every rule. `column(r, name)` reads a column of a
      row. How `validate` checks the rules is not part of this model; only
      what they demand is. */
  predicate Satisfies<T>(table: seq<T>, column: (T, string) -> Json, rules: Rules) {
    && |table| >= rules.minRows
    && (forall i :: 0 <= i < |table| ==> RowSatisfies(table[i], column, rules))
    && (forall i, j, k :: 0 <= i < j < |table| && 0 <= k < |rules.unique| ==>
          column(table[i], rules.unique[k]) != column(table[j], rules.unique[k]))
  }

  /** `validate(table, rules)` */
  function Validated<T>(table: seq<T>, column: (T, string) -> Json, rules: Rules): Result<()> {
    if Satisfies(table, column, rules) then Ok(()) else Err(ValidationError)
  }
}
