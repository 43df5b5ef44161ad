/** The check the economic-indicators package runs on its table before
    upload: a rule set for the foreign `validate`, then its own assertion
    that the table spans several vectors. */
module IndicatorsTest {
  import opened PyJson
  import opened Sink
  import opened IndicatorSchema

  const MinRows := 100
  const MinDistinctVectors := 5

  /** The rule set: four typed columns, two of them never null, and at
      least `MinRows` rows. */
  const TestRules := Rules(
    [("vector_id", IntColumn), ("ref_period", StringColumn), ("value", DoubleColumn), ("title_en", StringColumn)],
    ["vector_id", "ref_period"],
    [],
    MinRows)

  /** The distinct values of the `vector_id` column */
  function VectorIds(table: seq<Row>): set<Json> {
    set i | 0 <= i < |table| :: table[i].vectorId
  }

  /** `test(table)`: the rules first, then the distinct-vector assertion */
  function Test(table: seq<Row>): (r: Result<()>)
    ensures r.Err? ==> r.error == ValidationError || r.error.AssertionError?
    ensures r.Ok? ==> |table| >= MinRows && |VectorIds(table)| >= MinDistinctVectors
  {
    match Validated(table, Column, TestRules)
    case Err(e) => Err(e)
    case Ok(_) =>
      var n := |VectorIds(table)|;
      if n >= MinDistinctVectors then Ok(())
      else Err(AssertionError("Should have multiple vectors, got " + IntToString(n)))
  }

  /** A row has an int `vector_id` and a str `ref_period` (so neither is
      null), and `value` and `title_en` are of their declared types. */
  predicate RowHolds(r: Row) {
    && r.vectorId.JInt?
    && r.refPeriod.JStr?
    && HasType(r.value, DoubleColumn)
    && HasType(r.titleEn, StringColumn)
  }

  predicate ColumnsHold(table: seq<Row>) {
    forall i :: 0 <= i < |table| ==> RowHolds(table[i])
  }

  /** The per-row rules, read column by column. */
  lemma RowRules(r: Row)
    ensures RowSatisfies(r, Column, TestRules) <==> RowHolds(r)
  {
    if RowSatisfies(r, Column, TestRules) {
      RulesGiveRow(r);
    }
    if RowHolds(r) {
      RowGivesRules(r);
    }
  }

  lemma RulesGiveRow(r: Row)
    requires RowSatisfies(r, Column, TestRules)
    ensures RowHolds(r)
  {
    var rules := TestRules;
    assert Column(r, rules.columns[0].0) == r.vectorId;
    assert Column(r, rules.notNull[0]) == r.vectorId;
    assert Column(r, rules.columns[1].0) == r.refPeriod;
    assert Column(r, rules.notNull[1]) == r.refPeriod;
    assert Column(r, rules.columns[2].0) == r.value;
    assert Column(r, rules.columns[3].0) == r.titleEn;
  }

  lemma RowGivesRules(r: Row)
    requires RowHolds(r)
    ensures RowSatisfies(r, Column, TestRules)
  {
    var rules := TestRules;
    forall k | 0 <= k < |rules.columns|
      ensures HasType(Column(r, rules.columns[k].0), rules.columns[k].1)
    {
      // The case split on `k` lets the verifier read each rule in turn.
      if k == 0 {} else if k == 1 {} else if k == 2 {} else {}
    }
    forall k | 0 <= k < |rules.notNull|
      ensures Column(r, rules.notNull[k]) != JNull
    {
      // The case split on `k` lets the verifier read each rule in turn.
      if k == 0 {} else {}
    }
  }

  /** The named rule set: at least `MinRows` rows, each holding the per-row
      rules. */
  lemma RulesByColumn(table: seq<Row>)
    ensures Validated(table, Column, TestRules).Ok? <==> |table| >= MinRows && ColumnsHold(table)
  {
    forall i | 0 <= i < |table|
      ensures RowSatisfies(table[i], Column, TestRules) <==> RowHolds(table[i])
    {
      RowRules(table[i]);
    }
  }

  /** `test` passes exactly when the rules hold and at least five distinct
      vectors remain; a rule violation raises from `validate`, too few
      vectors from the assertion. */
  lemma TestVerdict(table: seq<Row>)
    ensures Test(table).Ok? <==>
      |table| >= MinRows && ColumnsHold(table) && |VectorIds(table)| >= MinDistinctVectors
    ensures Test(table).Err? ==>
      (Test(table).error == ValidationError <==> !(|table| >= MinRows && ColumnsHold(table)))
  {
    RulesByColumn(table);
  }

  /** No table has more distinct vectors than rows. */
  lemma {:induction false} VectorIdsBound(table: seq<Row>)
    ensures |VectorIds(table)| <= |table|
    decreases |table|
  {
    if table != [] {
      var front := table[..|table| - 1];
      VectorIdsBound(front);
      assert VectorIds(table) == VectorIds(front) + {table[|table| - 1].vectorId} by {
        forall x | x in VectorIds(table) ensures x in VectorIds(front) + {table[|table| - 1].vectorId} {
          var i :| 0 <= i < |table| && table[i].vectorId == x;
          if i < |table| - 1 { assert front[i] == table[i]; }
        }
        forall x | x in VectorIds(front) ensures x in VectorIds(table) {
          var i :| 0 <= i < |front| && front[i].vectorId == x;
          assert table[i] == front[i];
        }
      }
    }
  }
}
