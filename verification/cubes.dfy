/** The cube-catalogue transform, `transforms/cubes.py`: one record per
    raw cube, each field defaulted or stringified on its own. */
module Cubes {
  import opened PyJson
  import opened Sink
  import opened Seqs

  const DatasetId := "statcan_cubes"
  const RawSlot := "cubes"
  const MinRows := 100

  /** One record of the catalogue table */
  datatype CubeRow = CubeRow(
    productId: string,
    cansimId: Json,
    cubeTitleEn: Json,
    cubeTitleFr: Json,
    archived: Json,
    subjectCode: string,
    surveyCode: string,
    frequencyCode: Json,
    startPeriod: Json,
    endPeriod: Json,
    releaseTime: Json)

  /** The value a row holds in the named column */
  function Column(r: CubeRow, name: string): Json {
    match name
    case "product_id" => JStr(r.productId)
    case "cansim_id" => r.cansimId
    case "cube_title_en" => r.cubeTitleEn
    case "cube_title_fr" => r.cubeTitleFr
    case "archived" => r.archived
    case "subject_code" => JStr(r.subjectCode)
    case "survey_code" => JStr(r.surveyCode)
    case "frequency_code" => r.frequencyCode
    case "start_period" => r.startPeriod
    case "end_period" => r.endPeriod
    case "release_time" => r.releaseTime
    case _ => JNull
  }

  /** The rule set of `test()`: eleven typed columns, `product_id` and
      `cube_title_en` never null, `product_id` distinct, at least `MinRows`
      rows. */
  const TestRules := Rules(
    [("product_id", StringColumn), ("cansim_id", StringColumn), ("cube_title_en", StringColumn),
     ("cube_title_fr", StringColumn), ("archived", StringColumn), ("subject_code", StringColumn),
     ("survey_code", StringColumn), ("frequency_code", IntColumn), ("start_period", StringColumn),
     ("end_period", StringColumn), ("release_time", StringColumn)],
    ["product_id", "cube_title_en"],
    ["product_id"],
    MinRows)

  /** `test(table)` */
  function Test(table: seq<CubeRow>): (r: Result<()>)
    ensures r.Err? ==> r.error == ValidationError
    ensures r.Ok? ==> |table| >= MinRows
  {
    Validated(table, Column, TestRules)
  }

  /** The record of one cube object */
  function MakeRow(cube: map<string, Json>): CubeRow {
    CubeRow(
      PyStr(GetOr(cube, "productId", JStr(""))),
      GetOr(cube, "cansimId", JStr("")),
      GetOr(cube, "cubeTitleEn", JStr("")),
      GetOr(cube, "cubeTitleFr", JStr("")),
      Get(cube, "archived"),
      PyStr(GetOr(cube, "subjectCode", JStr(""))),
      PyStr(GetOr(cube, "surveyCode", JStr(""))),
      Get(cube, "frequencyCode"),
      GetOr(cube, "cubeStartDate", JStr("")),
      GetOr(cube, "cubeEndDate", JStr("")),
      GetOr(cube, "releaseTime", JStr("")))
  }

  /** The record of one element of the raw list, or the `AttributeError`
      `.get` raises on a non-dict */
  function CubeRecord(x: Json): Result<CubeRow> {
    match AsDict(x)
    case Err(e) => Err(e)
    case Ok(cube) => Ok(MakeRow(cube))
  }

  /** `records` after the loop over `cubes` */
  function MapCubes(cubes: seq<Json>): Result<seq<CubeRow>>
    decreases |cubes|
  {
    if cubes == [] then Ok([])
    else
      match MapCubes(cubes[..|cubes| - 1])
      case Err(e) => Err(e)
      case Ok(rows) =>
        match CubeRecord(cubes[|cubes| - 1])
        case Err(e) => Err(e)
        case Ok(row) => Ok(rows + [row])
  }

  /** The records `run()` builds from the raw snapshot */
  function Records(raw: Json): Result<seq<CubeRow>> {
    match LoopElements(raw)
    case Err(e) => Err(e)
    case Ok(cubes) => MapCubes(cubes)
  }

  // ---------------------------------------------------------------------
  // The mapping

  /** The mapping is one-to-one and keeps the input order: it succeeds
      exactly when every element is a dict, and then record `i` is the
      record of cube `i`. */
  lemma {:induction false} OneToOne(cubes: seq<Json>)
    ensures MapCubes(cubes).Ok? <==> forall i :: 0 <= i < |cubes| ==> cubes[i].JObj?
    ensures MapCubes(cubes).Ok? ==>
              |MapCubes(cubes).value| == |cubes| &&
              forall i :: 0 <= i < |cubes| ==> MapCubes(cubes).value[i] == MakeRow(cubes[i].fields)
    ensures MapCubes(cubes).Err? ==> MapCubes(cubes).error == AttributeError
    decreases |cubes|
  {
    if cubes != [] {
      var n := |cubes| - 1;
      var front := cubes[..n];
      OneToOne(front);
      MapLast(cubes);
      assert forall i :: 0 <= i < n ==> front[i] == cubes[i];
      if MapCubes(cubes).Ok? {
        var rows, last := MapCubes(front).value, MakeRow(cubes[n].fields);
        forall i | 0 <= i < |cubes|
          ensures MapCubes(cubes).value[i] == MakeRow(cubes[i].fields)
        {
          if i < n {
            assert (rows + [last])[i] == rows[i];
          }
        }
      }
    }
  }

  /** The last cube's step of the mapping */
  lemma MapLast(cubes: seq<Json>)
    requires cubes != []
    ensures var front, x := cubes[..|cubes| - 1], cubes[|cubes| - 1];
      MapCubes(cubes) ==
        if MapCubes(front).Err? then MapCubes(front)
        else if !x.JObj? then Err(AttributeError)
        else Ok(MapCubes(front).value + [MakeRow(x.fields)])
  {
  }

  /** Field by field: `product_id`, `subject_code` and `survey_code` are
      `str()` of the cube's field or "" when it is absent; `archived` and
      `frequency_code` are passed through, null when absent; every other
      field is copied, "" when absent. */
  lemma CubeFields(cube: map<string, Json>)
    ensures var r := MakeRow(cube);
      && (r.productId == if "productId" in cube then PyStr(cube["productId"]) else "")
      && (r.subjectCode == if "subjectCode" in cube then PyStr(cube["subjectCode"]) else "")
      && (r.surveyCode == if "surveyCode" in cube then PyStr(cube["surveyCode"]) else "")
      && (r.archived == if "archived" in cube then cube["archived"] else JNull)
      && (r.frequencyCode == if "frequencyCode" in cube then cube["frequencyCode"] else JNull)
      && (r.cansimId == if "cansimId" in cube then cube["cansimId"] else JStr(""))
      && (r.cubeTitleEn == if "cubeTitleEn" in cube then cube["cubeTitleEn"] else JStr(""))
      && (r.cubeTitleFr == if "cubeTitleFr" in cube then cube["cubeTitleFr"] else JStr(""))
      && (r.startPeriod == if "cubeStartDate" in cube then cube["cubeStartDate"] else JStr(""))
      && (r.endPeriod == if "cubeEndDate" in cube then cube["cubeEndDate"] else JStr(""))
      && (r.releaseTime == if "releaseTime" in cube then cube["releaseTime"] else JStr(""))
  {
  }

  // ---------------------------------------------------------------------
  // Validation

  /** A row has a non-null str title and its other columns are of their
      declared types. (`product_id` is never null: `str()` always yields a
      string.) */
  predicate RowHolds(r: CubeRow) {
    && r.cubeTitleEn.JStr?
    && HasType(r.cansimId, StringColumn)
    && HasType(r.cubeTitleFr, StringColumn)
    && HasType(r.archived, StringColumn)
    && HasType(r.frequencyCode, IntColumn)
    && HasType(r.startPeriod, StringColumn)
    && HasType(r.endPeriod, StringColumn)
    && HasType(r.releaseTime, StringColumn)
  }

  /** Every row holds the per-row rules and no two rows share a
      `product_id`. */
  predicate RowsHold(table: seq<CubeRow>) {
    && (forall i :: 0 <= i < |table| ==> RowHolds(table[i]))
    && (forall i, j :: 0 <= i < j < |table| ==> table[i].productId != table[j].productId)
  }

  /** The per-row rules, read column by column. */
  lemma RowRules(r: CubeRow)
    ensures RowSatisfies(r, Column, TestRules) <==> RowHolds(r)
  {
    if RowSatisfies(r, Column, TestRules) {
      RulesGiveRow(r);
    }
    if RowHolds(r) {
      RowGivesRules(r);
    }
  }

  lemma RulesGiveRow(r: CubeRow)
    requires RowSatisfies(r, Column, TestRules)
    ensures RowHolds(r)
  {
    var rules := TestRules;
    assert Column(r, rules.columns[2].0) == r.cubeTitleEn;
    assert Column(r, rules.notNull[1]) == r.cubeTitleEn;
    assert Column(r, rules.columns[1].0) == r.cansimId;
    assert Column(r, rules.columns[3].0) == r.cubeTitleFr;
    assert Column(r, rules.columns[4].0) == r.archived;
    assert Column(r, rules.columns[7].0) == r.frequencyCode;
    assert Column(r, rules.columns[8].0) == r.startPeriod;
    assert Column(r, rules.columns[9].0) == r.endPeriod;
    assert Column(r, rules.columns[10].0) == r.releaseTime;
  }

  lemma RowGivesRules(r: CubeRow)
    requires RowHolds(r)
    ensures RowSatisfies(r, Column, TestRules)
  {
    var rules := TestRules;
    forall k | 0 <= k < |rules.columns|
      ensures HasType(Column(r, rules.columns[k].0), rules.columns[k].1)
    {
      // The case split on `k` lets the verifier read each rule in turn.
      if k == 0 {} else if k == 1 {} else if k == 2 {} else if k == 3 {} else if k == 4 {}
      else if k == 5 {} else if k == 6 {} else if k == 7 {} else if k == 8 {} else if k == 9 {}
      else {}
    }
    forall k | 0 <= k < |rules.notNull|
      ensures Column(r, rules.notNull[k]) != JNull
    {
      // The case split on `k` lets the verifier read each rule in turn.
      if k == 0 {} else {}
    }
  }

  /** The named rule set: enough rows, each holding the per-row rules, with
      distinct product ids. */
  lemma TestVerdict(table: seq<CubeRow>)
    ensures Test(table).Ok? <==> |table| >= MinRows && RowsHold(table)
  {
    forall i | 0 <= i < |table|
      ensures RowSatisfies(table[i], Column, TestRules) <==> RowHolds(table[i])
    {
      RowRules(table[i]);
    }
    forall i, j | 0 <= i < j < |table|
      ensures Column(table[i], TestRules.unique[0]) == JStr(table[i].productId)
      ensures Column(table[j], TestRules.unique[0]) == JStr(table[j].productId)
    {
    }
  }

  /** Two cubes that both lack `productId` both get product id "", so a
      catalogue holding them fails the uniqueness rule. */
  lemma MissingIdsCollide(cubes: seq<Json>, i: nat, j: nat)
    requires i < j < |cubes|
    requires cubes[i].JObj? && "productId" !in cubes[i].fields
    requires cubes[j].JObj? && "productId" !in cubes[j].fields
    ensures Records(JArr(cubes)).Ok? ==> Test(Records(JArr(cubes)).value).Err?
  {
    OneToOne(cubes);
    if MapCubes(cubes).Ok? {
      var table := MapCubes(cubes).value;
      assert table[i].productId == "" == table[j].productId;
      TestVerdict(table);
    }
  }

  // ---------------------------------------------------------------------
  // The imperative run

  /** The loop of lines 54-68 */
  method BuildRecords(raw: Json) returns (result: Result<seq<CubeRow>>)
    ensures result == Records(raw)
  {
    var cubes :- LoopElements(raw);
    var records: seq<CubeRow> := [];
    var i := 0;
    while i < |cubes|
      invariant 0 <= i <= |cubes|
      invariant MapCubes(cubes[..i]) == Ok(records)
    {
      PrefixStep(cubes, i);
      var cube := cubes[i];
      if !cube.JObj? {
        MapStops(cubes, i + 1);
        return Err(AttributeError);
      }
      records := records + [MakeRow(cube.fields)];
      i := i + 1;
    }
    WholePrefix(cubes);
    return Ok(records);
  }

  lemma {:induction false} MapStops(cubes: seq<Json>, i: nat)
    requires i <= |cubes| && MapCubes(cubes[..i]).Err?
    ensures MapCubes(cubes) == MapCubes(cubes[..i])
    decreases |cubes| - i
  {
    if i < |cubes| {
      PrefixStep(cubes, i);
      MapStops(cubes, i + 1);
    } else {
      WholePrefix(cubes);
    }
  }

  /** `run()`: the records, then `test`, the overwriting upload and
      publish, each only after the one before succeeded. */
  method Run(raw: Json) returns (outcome: Result<seq<CubeRow>>, calls: seq<Call>)
    ensures Records(raw).Err? ==> outcome == Records(raw)
    ensures Records(raw).Ok? ==>
              outcome == (match Test(Records(raw).value)
                          case Ok(_) => Records(raw)
                          case Err(e) => Err(e))
    ensures calls <= FullRun(RawSlot, DatasetId, Overwrite) && |calls| >= 1
    ensures Validate in calls <==> Records(raw).Ok?
    ensures Publish(DatasetId) in calls <==> outcome.Ok?
    ensures Upload(DatasetId, Overwrite) in calls <==> outcome.Ok?
  {
    ghost var full := FullRun(RawSlot, DatasetId, Overwrite);
    calls := [LoadRaw(RawSlot)];
    var records := BuildRecords(raw);
    if records.Err? {
      assert calls == full[..1];
      return records, calls;
    }
    calls := calls + [Validate];
    var verdict := Test(records.value);
    if verdict.Err? {
      assert calls == full[..2];
      return Err(verdict.error), calls;
    }
    calls := calls + [Upload(DatasetId, Overwrite)];
    calls := calls + [Publish(DatasetId)];
    assert calls == full;
    return records, calls;
  }
}
