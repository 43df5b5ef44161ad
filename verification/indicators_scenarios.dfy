/** Worked documents for the economic-indicators package transform: a
    one-series document joined end to end, and a document whose only data
    entry failed. */
module IndicatorScenarios {
  import opened PyJson
  import opened IndicatorSchema
  import opened Indicators

  /** A successful series entry for vector 1 */
  const GdpSeries := JObj(map[
    "status" := JStr("SUCCESS"),
    "object" := JObj(map[
      "vectorId" := JInt(1),
      "SeriesTitleEn" := JStr("GDP"),
      "productId" := JInt(101),
      "coordinate" := JStr("1.1"),
      "frequencyCode" := JInt(12)])])

  /** The one data point of vector 1 */
  const GdpPoint := JObj(map[
    "refPer" := JStr("2024-01"),
    "value" := JFloat(Literal("100.5")),
    "scalarFactorCode" := JInt(0),
    "decimals" := JInt(1),
    "statusCode" := JInt(1),
    "symbolCode" := JInt(0),
    "releaseTime" := JStr("2024-02-01")])

  const GdpData := JObj(map[
    "status" := JStr("SUCCESS"),
    "object" := JObj(map["vectorId" := JInt(1), "vectorDataPoint" := JArr([GdpPoint])])])

  /** A failed data entry with no series counterpart */
  const FailedData := JObj(map[
    "status" := JStr("FAILED"),
    "object" := JObj(map["vectorId" := JInt(2), "vectorDataPoint" := JArr([GdpPoint])])])

  /** The metadata the lookup should hold for vector 1 */
  const GdpMeta := SeriesMeta(JStr("GDP"), JNull, "101", JStr("1.1"), JInt(12))

  /** The record the one-series document should yield */
  const GdpRow := Row(JInt(1), JStr("2024-01"), JNull, JFloat(Literal("100.5")), JInt(0), JInt(1), JInt(1), JInt(0),
                      JStr("2024-02-01"), JStr("GDP"), JNull, JStr("101"), JStr("1.1"), JInt(12))

  lemma ProductIdText()
    ensures IntToString(101) == "101"
  {
    assert NatToString(101) == NatToString(10) + [Digits[1]];
    assert NatToString(10) == NatToString(1) + [Digits[0]];
  }

  /** The series entry's metadata, with the product id stringified */
  lemma GdpMetaOf()
    ensures MetaOf(ObjectOf(GdpSeries.fields).fields) == GdpMeta
  {
    var obj := ObjectOf(GdpSeries.fields).fields;
    ProductIdText();
    assert PyStr(GetOr(obj, "productId", JStr(""))) == "101";
  }

  lemma GdpLookup()
    ensures BuildMetadata([GdpSeries]) == Ok(map[KInt(1) := GdpMeta])
  {
    var series := [GdpSeries];
    assert series[..|series| - 1] == [];
    var obj := ObjectOf(GdpSeries.fields).fields;
    assert IsSuccess(GdpSeries.fields);
    assert Truthy(Get(obj, "vectorId"));
    assert HashKey(Get(obj, "vectorId")) == Some(KInt(1));
    GdpMetaOf();
    assert SeriesEntry(GdpSeries) == Ok(Some((KInt(1), GdpMeta)));
  }

  lemma GdpPointRows()
    ensures PointRows(JInt(1), Some(GdpMeta), [GdpPoint]) == Ok([GdpRow])
  {
    assert MakeRow(JInt(1), GdpPoint.fields, Some(GdpMeta)) == GdpRow;
    var points := [GdpPoint];
    assert points[..|points| - 1] == [];
    var none: seq<Row> := [];
    assert PointRows(JInt(1), Some(GdpMeta), []) == Ok(none);
    assert none + [GdpRow] == [GdpRow];
  }

  lemma GdpEntry()
    ensures EntryRows(map[KInt(1) := GdpMeta], GdpData) == Ok([GdpRow])
  {
    var obj := ObjectOf(GdpData.fields).fields;
    assert IsSuccess(GdpData.fields);
    assert HashKey(Get(obj, "vectorId")) == Some(KInt(1));
    assert LoopElements(GetOr(obj, "vectorDataPoint", JArr([]))) == Ok([GdpPoint]);
    assert Join(map[KInt(1) := GdpMeta], KInt(1)) == Some(GdpMeta);
    GdpPointRows();
  }

  lemma GdpRows()
    ensures Flatten(map[KInt(1) := GdpMeta], [GdpData]) == Ok([GdpRow])
  {
    GdpEntry();
    FlattenOne(map[KInt(1) := GdpMeta], GdpData);
  }

  /** The one-series document yields exactly one row, carrying the point's
      fields and the series' title, stringified product id, coordinate and
      frequency; the absent French title and `refPer2` are null. */
  lemma OneSeriesScenario()
    ensures Records(JObj(map["series_info" := JArr([GdpSeries]), "data" := JArr([GdpData])])) == Ok([GdpRow])
  {
    GdpLookup();
    GdpRows();
  }

  /** A failed data entry contributes nothing and raises nothing by itself;
      when it is the only entry, the run fails with the empty-result error. */
  lemma FailedOnlyScenario()
    ensures Flatten(map[], [FailedData]) == Ok([])
    ensures Records(JObj(map["series_info" := JArr([]), "data" := JArr([FailedData])])) == Err(ValueError(NoDataMessage))
  {
    var data := [FailedData];
    assert data[..|data| - 1] == [];
    assert Flatten(map[], data) == Chain(Flatten(map[], []), EntryRows(map[], FailedData));
    assert Get(FailedData.fields, "status") == JStr("FAILED");
    assert EntryRows(map[], FailedData) == Ok([]);
    var none: seq<Row> := [];
    assert Flatten(map[], []) == Ok(none);
    assert none + none == none;
  }
}
