/** The older economic-indicators transform, the module
    `transforms/economic_indicators.py`. It shares its dataset id with the
    package of the same name but declares a different table, and it differs
    in three ways: no entry's status is looked at, the lookup keeps whole
    series objects, and absent fields default to "" instead of null. There
    is no empty-result check; an empty table fails only the row minimum. */
module LegacyIndicators {
  import opened PyJson
  import opened Sink
  import opened Seqs

  const DatasetId := "statcan_economic_indicators"
  const RawSlot := "economic_indicators"
  const MinRows := 100

  /** One record of this module's table */
  datatype LegacyRow = LegacyRow(
    date: Json,
    vectorId: Json,
    productId: string,
    coordinate: Json,
    seriesTitleEn: Json,
    seriesTitleFr: Json,
    value: Json,
    scalarFactor: string,
    symbol: Json,
    frequency: string,
    uom: string)

  /** The value a row holds in the named column */
  function Column(r: LegacyRow, name: string): Json {
    match name
    case "date" => r.date
    case "vector_id" => r.vectorId
    case "product_id" => JStr(r.productId)
    case "coordinate" => r.coordinate
    case "series_title_en" => r.seriesTitleEn
    case "series_title_fr" => r.seriesTitleFr
    case "value" => r.value
    case "scalar_factor" => JStr(r.scalarFactor)
    case "symbol" => r.symbol
    case "frequency" => JStr(r.frequency)
    case "uom" => JStr(r.uom)
    case _ => JNull
  }

  /** The rule set of `test()`: eleven typed columns, `date` and
      `vector_id` never null, at least `MinRows` rows. */
  const TestRules := Rules(
    [("date", StringColumn), ("vector_id", IntColumn), ("product_id", StringColumn),
     ("coordinate", StringColumn), ("series_title_en", StringColumn), ("series_title_fr", StringColumn),
     ("value", DoubleColumn), ("scalar_factor", StringColumn), ("symbol", StringColumn),
     ("frequency", StringColumn), ("uom", StringColumn)],
    ["date", "vector_id"],
    [],
    MinRows)

  /** `test(table)` */
  function Test(table: seq<LegacyRow>): (r: Result<()>)
    ensures r.Err? ==> r.error == ValidationError
    ensures r.Ok? ==> |table| >= MinRows
  {
    Validated(table, Column, TestRules)
  }

  /** `item.get("object", {})` */
  function ObjectOf(item: map<string, Json>): Json {
    GetOr(item, "object", JObj(map[]))
  }

  /** One pass of the lookup loop: `None` when the entry is passed over, or
      the key and the whole series object it stores. */
  function SeriesEntry(x: Json): Result<Option<(Key, map<string, Json>)>> {
    match AsDict(x)
    case Err(e) => Err(e)
    case Ok(item) =>
      match AsDict(ObjectOf(item))
      case Err(e) => Err(e)
      case Ok(obj) =>
        var vid := Get(obj, "vectorId");
        if !Truthy(vid) then Ok(None)
        else
          match HashKey(vid)
          case None => Err(TypeError)
          case Some(k) => Ok(Some((k, obj)))
  }

  /** `series_lookup` after the loop over `series` */
  function BuildLookup(series: seq<Json>): Result<map<Key, map<string, Json>>>
    decreases |series|
  {
    if series == [] then Ok(map[])
    else
      match BuildLookup(series[..|series| - 1])
      case Err(e) => Err(e)
      case Ok(m) =>
        match SeriesEntry(series[|series| - 1])
        case Err(e) => Err(e)
        case Ok(None) => Ok(m)
        case Ok(Some(entry)) => Ok(m[entry.0 := entry.1])
  }

  /** `float(value) if value is not None else None` */
  function CoerceValue(value: Json, parse: string -> Option<Float>): Result<Json> {
    if value == JNull then Ok(JNull) else ToFloat(value, parse)
  }

  /** One record, from the point, the coerced value and the series object
      (`{}` on a lookup miss) */
  function MakeRow(vid: Json, point: map<string, Json>, meta: map<string, Json>, value: Json): LegacyRow {
    LegacyRow(
      GetOr(point, "refPer", JStr("")),
      vid,
      PyStr(GetOr(meta, "productId", JStr(""))),
      GetOr(meta, "coordinate", JStr("")),
      GetOr(meta, "SeriesTitleEn", JStr("")),
      GetOr(meta, "SeriesTitleFr", JStr("")),
      value,
      PyStr(GetOr(meta, "scalarFactorCode", JStr(""))),
      GetOr(point, "symbolCode", JStr("")),
      PyStr(GetOr(meta, "frequencyCode", JStr(""))),
      PyStr(GetOr(meta, "memberUomCode", JStr(""))))
  }

  /** The record of one point, or the exception `.get` or `float()` raises */
  function PointRow(vid: Json, meta: map<string, Json>, x: Json, parse: string -> Option<Float>): Result<LegacyRow> {
    match AsDict(x)
    case Err(e) => Err(e)
    case Ok(point) =>
      match CoerceValue(Get(point, "value"), parse)
      case Err(e) => Err(e)
      case Ok(value) => Ok(MakeRow(vid, point, meta, value))
  }

  /** The records of the inner loop over the points of one entry */
  function PointRows(vid: Json, meta: map<string, Json>, points: seq<Json>, parse: string -> Option<Float>): Result<seq<LegacyRow>>
    decreases |points|
  {
    if points == [] then Ok([])
    else
      match PointRows(vid, meta, points[..|points| - 1], parse)
      case Err(e) => Err(e)
      case Ok(rows) =>
        match PointRow(vid, meta, points[|points| - 1], parse)
        case Err(e) => Err(e)
        case Ok(row) => Ok(rows + [row])
  }

  /** `series_lookup.get(vector_id, {})` */
  function MetaFor(lookup: map<Key, map<string, Json>>, k: Key): map<string, Json> {
    if k in lookup then lookup[k] else map[]
  }

  /** The records of one pass of the outer loop over a `data` entry,
      whatever its status */
  function EntryRows(lookup: map<Key, map<string, Json>>, x: Json, parse: string -> Option<Float>): Result<seq<LegacyRow>> {
    match AsDict(x)
    case Err(e) => Err(e)
    case Ok(response) =>
      match AsDict(ObjectOf(response))
      case Err(e) => Err(e)
      case Ok(obj) =>
        var vid := Get(obj, "vectorId");
        match HashKey(vid)
        case None => Err(TypeError)
        case Some(k) =>
          match LoopElements(GetOr(obj, "vectorDataPoint", JArr([])))
          case Err(e) => Err(e)
          case Ok(points) => PointRows(vid, MetaFor(lookup, k), points, parse)
  }

  /** `records` after the outer loop over `data` */
  function Flatten(lookup: map<Key, map<string, Json>>, data: seq<Json>, parse: string -> Option<Float>): Result<seq<LegacyRow>>
    decreases |data|
  {
    if data == [] then Ok([])
    else Chain(Flatten(lookup, data[..|data| - 1], parse), EntryRows(lookup, data[|data| - 1], parse))
  }

  /** The records `run()` builds from the raw snapshot */
  function Records(raw: Json, parse: string -> Option<Float>): Result<seq<LegacyRow>> {
    match AsDict(raw)
    case Err(e) => Err(e)
    case Ok(doc) =>
      match LoopElements(GetOr(doc, "series_info", JArr([])))
      case Err(e) => Err(e)
      case Ok(series) =>
        match BuildLookup(series)
        case Err(e) => Err(e)
        case Ok(lookup) =>
          match LoopElements(GetOr(doc, "data", JArr([])))
          case Err(e) => Err(e)
          case Ok(data) => Flatten(lookup, data, parse)
  }

  // ---------------------------------------------------------------------
  // The lookup

  /** The series entry is admitted under key `k`: a dict whose object is a
      dict with a truthy `vectorId` that stands for `k`. Its status plays
      no part. */
  predicate Admits(x: Json, k: Key) {
    && x.JObj?
    && ObjectOf(x.fields).JObj?
    && Truthy(Get(ObjectOf(x.fields).fields, "vectorId"))
    && HashKey(Get(ObjectOf(x.fields).fields, "vectorId")) == Some(k)
  }

  lemma LookupStep(series: seq<Json>, k: Key)
    requires series != [] && BuildLookup(series).Ok?
    ensures BuildLookup(series[..|series| - 1]).Ok?
    ensures Admits(series[|series| - 1], k) ==>
              k in BuildLookup(series).value &&
              BuildLookup(series).value[k] == ObjectOf(series[|series| - 1].fields).fields
    ensures !Admits(series[|series| - 1], k) ==>
              (k in BuildLookup(series).value <==> k in BuildLookup(series[..|series| - 1]).value) &&
              (k in BuildLookup(series).value ==>
                 BuildLookup(series).value[k] == BuildLookup(series[..|series| - 1]).value[k])
  {
  }

  /** A vector id is in the lookup exactly when some series entry, of any
      status, is admitted under it. */
  lemma {:induction false} LookupKeys(series: seq<Json>, k: Key)
    requires BuildLookup(series).Ok?
    ensures k in BuildLookup(series).value <==> exists i :: 0 <= i < |series| && Admits(series[i], k)
    decreases |series|
  {
    if series != [] {
      var n := |series| - 1;
      var front := series[..n];
      LookupStep(series, k);
      LookupKeys(front, k);
      ExistsSplit(series, front, x => Admits(x, k));
    }
  }

  /** The lookup holds the whole object of the LAST entry admitted under a
      key. */
  lemma {:induction false} LookupLastWins(series: seq<Json>, k: Key, i: nat)
    requires BuildLookup(series).Ok?
    requires i < |series| && Admits(series[i], k)
    requires forall j :: i < j < |series| ==> !Admits(series[j], k)
    ensures k in BuildLookup(series).value
    ensures BuildLookup(series).value[k] == ObjectOf(series[i].fields).fields
    decreases |series|
  {
    var n := |series| - 1;
    LookupStep(series, k);
    if i < n {
      var front := series[..n];
      assert front[i] == series[i];
      forall j | i < j < |front| ensures !Admits(front[j], k) {
        assert front[j] == series[j];
      }
      LookupLastWins(front, k, i);
    }
  }

  /** Neither loop reads `status`: the same entry with another status does
      exactly the same. */
  lemma StatusIgnored(lookup: map<Key, map<string, Json>>, item: map<string, Json>, status: Json, parse: string -> Option<Float>)
    ensures SeriesEntry(JObj(item["status" := status])) == SeriesEntry(JObj(item))
    ensures EntryRows(lookup, JObj(item["status" := status]), parse) == EntryRows(lookup, JObj(item), parse)
  {
    assert ObjectOf(item["status" := status]) == ObjectOf(item);
  }

  // ---------------------------------------------------------------------
  // Rows

  /** The points of a data entry, whatever its status */
  function PointsOf(x: Json): seq<Json> {
    if x.JObj? && ObjectOf(x.fields).JObj? then
      match LoopElements(GetOr(ObjectOf(x.fields).fields, "vectorDataPoint", JArr([])))
      case Ok(points) => points
      case Err(_) => []
    else []
  }

  /** The total number of points over all entries */
  function AllPoints(data: seq<Json>): nat
    decreases |data|
  {
    if data == [] then 0 else AllPoints(data[..|data| - 1]) + |PointsOf(data[|data| - 1])|
  }

  lemma {:induction false} PointRowsAt(vid: Json, meta: map<string, Json>, points: seq<Json>, parse: string -> Option<Float>)
    requires PointRows(vid, meta, points, parse).Ok?
    ensures |PointRows(vid, meta, points, parse).value| == |points|
    ensures forall j :: 0 <= j < |points| ==>
              PointRow(vid, meta, points[j], parse).Ok? &&
              PointRows(vid, meta, points, parse).value[j] == PointRow(vid, meta, points[j], parse).value
    decreases |points|
  {
    if points != [] {
      var front := points[..|points| - 1];
      PointRowsAt(vid, meta, front, parse);
      assert forall j :: 0 <= j < |front| ==> front[j] == points[j];
    }
  }

  lemma EntryRowsAt(lookup: map<Key, map<string, Json>>, x: Json, parse: string -> Option<Float>)
    requires EntryRows(lookup, x, parse).Ok?
    ensures |EntryRows(lookup, x, parse).value| == |PointsOf(x)|
    ensures
      var vid := Get(ObjectOf(x.fields).fields, "vectorId");
      HashKey(vid).Some? &&
      forall j :: 0 <= j < |PointsOf(x)| ==>
        PointRow(vid, MetaFor(lookup, HashKey(vid).value), PointsOf(x)[j], parse).Ok? &&
        EntryRows(lookup, x, parse).value[j] ==
          PointRow(vid, MetaFor(lookup, HashKey(vid).value), PointsOf(x)[j], parse).value
  {
    var vid := Get(ObjectOf(x.fields).fields, "vectorId");
    PointRowsAt(vid, MetaFor(lookup, HashKey(vid).value), PointsOf(x), parse);
  }

  /** Every data entry contributes all its points, whatever its status:
      the number of records is the total number of points. */
  lemma {:induction false} RecordCount(lookup: map<Key, map<string, Json>>, data: seq<Json>, parse: string -> Option<Float>)
    requires Flatten(lookup, data, parse).Ok?
    ensures |Flatten(lookup, data, parse).value| == AllPoints(data)
    decreases |data|
  {
    if data != [] {
      var n := |data| - 1;
      RecordCount(lookup, data[..n], parse);
      EntryRowsAt(lookup, data[n], parse);
    }
  }

  /** Splitting the data splits the records: the first exception wins,
      otherwise the records of the first part precede those of the second. */
  lemma {:induction false} FlattenAppend(lookup: map<Key, map<string, Json>>, a: seq<Json>, b: seq<Json>, parse: string -> Option<Float>)
    ensures Flatten(lookup, a + b, parse) == Chain(Flatten(lookup, a, parse), Flatten(lookup, b, parse))
    decreases |b|
  {
    if b == [] {
      ConcatEmpty(a);
      if Flatten(lookup, a, parse).Ok? {
        ConcatEmpty(Flatten(lookup, a, parse).value);
      }
    } else {
      var n := |b| - 1;
      FlattenAppend(lookup, a, b[..n], parse);
      ConcatLast(a, b);
      var fa, fb, e := Flatten(lookup, a, parse), Flatten(lookup, b[..n], parse), EntryRows(lookup, b[n], parse);
      if fa.Ok? && fb.Ok? && e.Ok? {
        ConcatAssoc(fa.value, fb.value, e.value);
      }
    }
  }

  /** One entry alone yields its own records. */
  lemma FlattenOne(lookup: map<Key, map<string, Json>>, x: Json, parse: string -> Option<Float>)
    ensures Flatten(lookup, [x], parse) == EntryRows(lookup, x, parse)
  {
    assert [x][..0] == [];
    if EntryRows(lookup, x, parse).Ok? {
      assert [] + EntryRows(lookup, x, parse).value == EntryRows(lookup, x, parse).value;
    }
  }

  /** The records of a run split around entry `i`: those of the entries
      before it, its own, then those of the entries after it. */
  lemma FlattenAround(lookup: map<Key, map<string, Json>>, data: seq<Json>, i: nat, parse: string -> Option<Float>)
    requires Flatten(lookup, data, parse).Ok? && i < |data|
    ensures Flatten(lookup, data[..i], parse).Ok? && EntryRows(lookup, data[i], parse).Ok? && Flatten(lookup, data[i + 1..], parse).Ok?
    ensures Flatten(lookup, data, parse).value ==
              Flatten(lookup, data[..i], parse).value + EntryRows(lookup, data[i], parse).value + Flatten(lookup, data[i + 1..], parse).value
  {
    var before, x, after := data[..i], data[i], data[i + 1..];
    SplitAt(data, i);
    FlattenAppend(lookup, before + [x], after, parse);
    FlattenAppend(lookup, before, [x], parse);
    FlattenOne(lookup, x, parse);
  }

  /** Point `j` of entry `i` becomes the record right after the points of
      the entries before `i`. */
  lemma RecordIs(lookup: map<Key, map<string, Json>>, data: seq<Json>, i: nat, j: nat, parse: string -> Option<Float>)
    requires Flatten(lookup, data, parse).Ok?
    requires i < |data| && j < |PointsOf(data[i])|
    ensures EntryRows(lookup, data[i], parse).Ok? && |EntryRows(lookup, data[i], parse).value| == |PointsOf(data[i])|
    ensures AllPoints(data[..i]) + j < |Flatten(lookup, data, parse).value|
    ensures Flatten(lookup, data, parse).value[AllPoints(data[..i]) + j] == EntryRows(lookup, data[i], parse).value[j]
  {
    FlattenAround(lookup, data, i, parse);
    RecordCount(lookup, data[..i], parse);
    EntryRowsAt(lookup, data[i], parse);
    IndexMiddle(Flatten(lookup, data[..i], parse).value, EntryRows(lookup, data[i], parse).value, Flatten(lookup, data[i + 1..], parse).value, j);
  }

  /** Records follow entry order, then point order. Point `j` of entry `i`
      keeps the entry's `vectorId`; its `date` and `symbol` come from the
      point or default to ""; its value stays null when null and is
      otherwise `float()` of it; the series fields come from the looked-up
      object, defaulting to "" on a miss or an absent field, with
      `product_id`, `scalar_factor`, `frequency` and `uom` stringified. */
  lemma RecordAt(lookup: map<Key, map<string, Json>>, data: seq<Json>, i: nat, j: nat, parse: string -> Option<Float>)
    requires Flatten(lookup, data, parse).Ok?
    requires i < |data| && j < |PointsOf(data[i])|
    ensures AllPoints(data[..i]) + j < |Flatten(lookup, data, parse).value|
    ensures
      var vid := Get(ObjectOf(data[i].fields).fields, "vectorId");
      var point := PointsOf(data[i])[j];
      var row := Flatten(lookup, data, parse).value[AllPoints(data[..i]) + j];
      var hit := HashKey(vid).Some? && HashKey(vid).value in lookup;
      && point.JObj?
      && row.vectorId == vid
      && row.date == GetOr(point.fields, "refPer", JStr(""))
      && row.symbol == GetOr(point.fields, "symbolCode", JStr(""))
      && (Get(point.fields, "value") == JNull ==> row.value == JNull)
      && (Get(point.fields, "value") != JNull ==> Ok(row.value) == ToFloat(Get(point.fields, "value"), parse))
      && (!hit ==>
            && row.productId == ""
            && row.coordinate == JStr("")
            && row.seriesTitleEn == JStr("")
            && row.seriesTitleFr == JStr("")
            && row.scalarFactor == ""
            && row.frequency == ""
            && row.uom == "")
      && (hit ==>
            var meta := lookup[HashKey(vid).value];
            && row.productId == PyStr(GetOr(meta, "productId", JStr("")))
            && row.coordinate == GetOr(meta, "coordinate", JStr(""))
            && row.seriesTitleEn == GetOr(meta, "SeriesTitleEn", JStr(""))
            && row.seriesTitleFr == GetOr(meta, "SeriesTitleFr", JStr(""))
            && row.scalarFactor == PyStr(GetOr(meta, "scalarFactorCode", JStr("")))
            && row.frequency == PyStr(GetOr(meta, "frequencyCode", JStr("")))
            && row.uom == PyStr(GetOr(meta, "memberUomCode", JStr(""))))
  {
    RecordIs(lookup, data, i, j, parse);
    EntryRowsAt(lookup, data[i], parse);
  }

  // ---------------------------------------------------------------------
  // Validation

  /** A row has a str `date` and an int `vector_id` (so neither is null),
      and its other columns are of their declared types. */
  predicate RowHolds(r: LegacyRow) {
    && r.date.JStr?
    && r.vectorId.JInt?
    && HasType(r.coordinate, StringColumn)
    && HasType(r.seriesTitleEn, StringColumn)
    && HasType(r.seriesTitleFr, StringColumn)
    && HasType(r.value, DoubleColumn)
    && HasType(r.symbol, StringColumn)
  }

  predicate ColumnsHold(table: seq<LegacyRow>) {
    forall i :: 0 <= i < |table| ==> RowHolds(table[i])
  }

  /** The per-row rules, read column by column. */
  lemma RowRules(r: LegacyRow)
    ensures RowSatisfies(r, Column, TestRules) <==> RowHolds(r)
  {
    if RowSatisfies(r, Column, TestRules) {
      RulesGiveRow(r);
    }
    if RowHolds(r) {
      RowGivesRules(r);
    }
  }

  lemma RulesGiveRow(r: LegacyRow)
    requires RowSatisfies(r, Column, TestRules)
    ensures RowHolds(r)
  {
    var rules := TestRules;
    assert Column(r, rules.columns[0].0) == r.date;
    assert Column(r, rules.notNull[0]) == r.date;
    assert Column(r, rules.columns[1].0) == r.vectorId;
    assert Column(r, rules.notNull[1]) == r.vectorId;
    assert Column(r, rules.columns[3].0) == r.coordinate;
    assert Column(r, rules.columns[4].0) == r.seriesTitleEn;
    assert Column(r, rules.columns[5].0) == r.seriesTitleFr;
    assert Column(r, rules.columns[6].0) == r.value;
    assert Column(r, rules.columns[8].0) == r.symbol;
  }

  lemma RowGivesRules(r: LegacyRow)
    requires RowHolds(r)
    ensures RowSatisfies(r, Column, TestRules)
  {
    var rules := TestRules;
    forall k | 0 <= k < |rules.columns|
      ensures HasType(Column(r, rules.columns[k].0), rules.columns[k].1)
    {
      // The case split on `k` lets the verifier read each rule in turn.
      if k == 0 {} else if k == 1 {} else if k == 2 {} else if k == 3 {} else if k == 4 {}
      else if k == 5 {} else if k == 6 {} else if k == 7 {} else if k == 8 {} else if k == 9 {}
      else {}
    }
  }

  /** The named rule set: with no empty-result check of its own, an empty
      table is refused by the row minimum alone. */
  lemma TestVerdict(table: seq<LegacyRow>)
    ensures Test(table).Ok? <==> |table| >= MinRows && ColumnsHold(table)
    ensures table == [] ==> Test(table) == Err(ValidationError)
  {
    forall i | 0 <= i < |table|
      ensures RowSatisfies(table[i], Column, TestRules) <==> RowHolds(table[i])
    {
      RowRules(table[i]);
    }
  }

  // ---------------------------------------------------------------------
  // The imperative run

  /** The loop of lines 57-62, filling `series_lookup` */
  method BuildSeriesLookup(series: seq<Json>) returns (result: Result<map<Key, map<string, Json>>>)
    ensures result == BuildLookup(series)
  {
    var seriesLookup: map<Key, map<string, Json>> := map[];
    var i := 0;
    while i < |series|
      invariant 0 <= i <= |series|
      invariant BuildLookup(series[..i]) == Ok(seriesLookup)
    {
      PrefixStep(series, i);
      var item := series[i];
      if !item.JObj? {
        LookupStops(series, i + 1);
        return Err(AttributeError);
      }
      var obj := ObjectOf(item.fields);
      if !obj.JObj? {
        LookupStops(series, i + 1);
        return Err(AttributeError);
      }
      var vectorId := Get(obj.fields, "vectorId");
      if Truthy(vectorId) {
        var key := HashKey(vectorId);
        if key.None? {
          LookupStops(series, i + 1);
          return Err(TypeError);
        }
        seriesLookup := seriesLookup[key.value := obj.fields];
      }
      i := i + 1;
    }
    WholePrefix(series);
    return Ok(seriesLookup);
  }

  /** The head of one pass of the outer loop, lines 66-71: the entry's
      vector id, its series object (`{}` on a miss) and its points. The
      points' records are then those of the inner loop over them. */
  method EntryHeader(seriesLookup: map<Key, map<string, Json>>, response: Json, parse: string -> Option<Float>)
    returns (result: Result<(Json, map<string, Json>, seq<Json>)>)
    ensures result.Err? ==> EntryRows(seriesLookup, response, parse) == Err(result.error)
    ensures result.Ok? ==>
              EntryRows(seriesLookup, response, parse) == PointRows(result.value.0, result.value.1, result.value.2, parse)
  {
    if !response.JObj? {
      return Err(AttributeError);
    }
    var obj := ObjectOf(response.fields);
    if !obj.JObj? {
      return Err(AttributeError);
    }
    var vectorId := Get(obj.fields, "vectorId");
    var dataPoints := GetOr(obj.fields, "vectorDataPoint", JArr([]));
    var key := HashKey(vectorId);
    if key.None? {
      return Err(TypeError);
    }
    var seriesMeta := if key.value in seriesLookup then seriesLookup[key.value] else map[];
    var points :- LoopElements(dataPoints);
    return Ok((vectorId, seriesMeta, points));
  }

  /** The body of the inner loop, lines 74-87: one point's record */
  method PointRecord(vectorId: Json, seriesMeta: map<string, Json>, point: Json, parse: string -> Option<Float>)
    returns (result: Result<LegacyRow>)
    ensures result == PointRow(vectorId, seriesMeta, point, parse)
  {
    if !point.JObj? {
      return Err(AttributeError);
    }
    var value := Get(point.fields, "value");
    var coerced := JNull;
    if value != JNull {
      var f := ToFloat(value, parse);
      if f.Err? {
        return Err(f.error);
      }
      coerced := f.value;
    }
    return Ok(MakeRow(vectorId, point.fields, seriesMeta, coerced));
  }

  /** The inner loop of lines 73-87, appending one record per point */
  method AppendPoints(records: seq<LegacyRow>, vectorId: Json, seriesMeta: map<string, Json>, points: seq<Json>,
                      parse: string -> Option<Float>)
    returns (result: Result<seq<LegacyRow>>)
    ensures result == Chain(Ok(records), PointRows(vectorId, seriesMeta, points, parse))
  {
    var out := records;
    ghost var added: seq<LegacyRow> := [];
    var j := 0;
    while j < |points|
      invariant 0 <= j <= |points|
      invariant out == records + added
      invariant PointRows(vectorId, seriesMeta, points[..j], parse) == Ok(added)
    {
      PointRowsStep(vectorId, seriesMeta, points, j, parse);
      var row := PointRecord(vectorId, seriesMeta, points[j], parse);
      if row.Err? {
        PointRowsStop(vectorId, seriesMeta, points, j + 1, parse);
        return Err(row.error);
      }
      ConcatAssoc(records, added, [row.value]);
      out := out + [row.value];
      added := added + [row.value];
      j := j + 1;
    }
    WholePrefix(points);
    return Ok(out);
  }

  /** The outer loop of lines 65-87 over the data entries */
  method FlattenData(seriesLookup: map<Key, map<string, Json>>, data: seq<Json>, parse: string -> Option<Float>)
    returns (result: Result<seq<LegacyRow>>)
    ensures result == Flatten(seriesLookup, data, parse)
  {
    var records: seq<LegacyRow> := [];
    var n := 0;
    while n < |data|
      invariant 0 <= n <= |data|
      invariant Flatten(seriesLookup, data[..n], parse) == Ok(records)
    {
      FlattenStep(seriesLookup, data, n, parse);
      var header := EntryHeader(seriesLookup, data[n], parse);
      if header.Err? {
        FlattenStops(seriesLookup, data, n + 1, parse);
        return Err(header.error);
      }
      var (vectorId, seriesMeta, points) := header.value;
      var extended := AppendPoints(records, vectorId, seriesMeta, points, parse);
      if extended.Err? {
        FlattenStops(seriesLookup, data, n + 1, parse);
        return extended;
      }
      records := extended.value;
      n := n + 1;
    }
    WholePrefix(data);
    return Ok(records);
  }

  /** Lines 51-87 of `run()` */
  method BuildRecords(raw: Json, parse: string -> Option<Float>) returns (result: Result<seq<LegacyRow>>)
    ensures result == Records(raw, parse)
  {
    if !raw.JObj? {
      return Err(AttributeError);
    }
    var seriesInfo := GetOr(raw.fields, "series_info", JArr([]));
    var dataResponses := GetOr(raw.fields, "data", JArr([]));
    var series :- LoopElements(seriesInfo);
    var seriesLookup :- BuildSeriesLookup(series);
    var data :- LoopElements(dataResponses);
    result := FlattenData(seriesLookup, data, parse);
  }

  lemma {:induction false} LookupStops(series: seq<Json>, i: nat)
    requires i <= |series| && BuildLookup(series[..i]).Err?
    ensures BuildLookup(series) == BuildLookup(series[..i])
    decreases |series| - i
  {
    if i < |series| {
      PrefixStep(series, i);
      LookupStops(series, i + 1);
    } else {
      WholePrefix(series);
    }
  }

  /** One more entry of the outer loop */
  lemma FlattenStep(lookup: map<Key, map<string, Json>>, data: seq<Json>, n: nat, parse: string -> Option<Float>)
    requires n < |data|
    ensures Flatten(lookup, data[..n + 1], parse) == Chain(Flatten(lookup, data[..n], parse), EntryRows(lookup, data[n], parse))
  {
    PrefixStep(data, n);
  }

  lemma {:induction false} FlattenStops(lookup: map<Key, map<string, Json>>, data: seq<Json>, i: nat, parse: string -> Option<Float>)
    requires i <= |data| && Flatten(lookup, data[..i], parse).Err?
    ensures Flatten(lookup, data, parse) == Flatten(lookup, data[..i], parse)
    decreases |data| - i
  {
    if i < |data| {
      PrefixStep(data, i);
      FlattenStops(lookup, data, i + 1, parse);
    } else {
      WholePrefix(data);
    }
  }

  /** One more point of the inner loop */
  lemma PointRowsStep(vid: Json, meta: map<string, Json>, points: seq<Json>, j: nat, parse: string -> Option<Float>)
    requires j < |points|
    ensures PointRows(vid, meta, points[..j + 1], parse) ==
              match PointRows(vid, meta, points[..j], parse)
              case Err(e) => Err(e)
              case Ok(rows) =>
                match PointRow(vid, meta, points[j], parse)
                case Err(e) => Err(e)
                case Ok(row) => Ok(rows + [row])
  {
    PrefixStep(points, j);
  }

  lemma {:induction false} PointRowsStop(vid: Json, meta: map<string, Json>, points: seq<Json>, i: nat, parse: string -> Option<Float>)
    requires i <= |points| && PointRows(vid, meta, points[..i], parse).Err?
    ensures PointRows(vid, meta, points, parse) == PointRows(vid, meta, points[..i], parse)
    decreases |points| - i
  {
    if i < |points| {
      PrefixStep(points, i);
      PointRowsStop(vid, meta, points, i + 1, parse);
    } else {
      WholePrefix(points);
    }
  }

  /** `run()`: the records, then `test`, upload and publish, each only
      after the one before succeeded. An empty result is not refused
      before validation. */
  method Run(raw: Json, parse: string -> Option<Float>) returns (outcome: Result<seq<LegacyRow>>, calls: seq<Call>)
    ensures Records(raw, parse).Err? ==> outcome == Records(raw, parse)
    ensures Records(raw, parse).Ok? ==>
              outcome == (match Test(Records(raw, parse).value)
                          case Ok(_) => Records(raw, parse)
                          case Err(e) => Err(e))
    ensures calls <= FullRun(RawSlot, DatasetId, DefaultMode) && |calls| >= 1
    ensures Validate in calls <==> Records(raw, parse).Ok?
    ensures Publish(DatasetId) in calls <==> outcome.Ok?
    ensures Upload(DatasetId, DefaultMode) in calls <==> outcome.Ok?
  {
    ghost var full := FullRun(RawSlot, DatasetId, DefaultMode);
    calls := [LoadRaw(RawSlot)];
    var records := BuildRecords(raw, parse);
    if records.Err? {
      assert calls == full[..1];
      return records, calls;
    }
    calls := calls + [Validate];
    var verdict := Test(records.value);
    if verdict.Err? {
      assert calls == full[..2];
      return Err(verdict.error), calls;
    }
    calls := calls + [Upload(DatasetId, DefaultMode)];
    calls := calls + [Publish(DatasetId)];
    assert calls == full;
    return records, calls;
  }
}
