/** The economic-indicators transform of the package
    `transforms/economic_indicators/`: build a lookup from vector id to
    series metadata out of the SUCCESS entries of `series_info`, then emit
    one row per data point of every SUCCESS entry of `data`, joined against
    that lookup; fail when no row results; then validate, upload, publish. */
module Indicators {
  import opened PyJson
  import opened Sink
  import opened Seqs
  import opened IndicatorSchema
  import IndicatorsTest

  const DatasetId := "statcan_economic_indicators"
  const RawSlot := "economic_indicators"
  const NoDataMessage := "No economic indicator data found"

  /** What the lookup keeps per vector id */
  datatype SeriesMeta = SeriesMeta(titleEn: Json, titleFr: Json, productId: string, coordinate: Json, frequency: Json)

  predicate IsSuccess(item: map<string, Json>) {
    Get(item, "status") == JStr("SUCCESS")
  }

  /** `item.get('object', {})` */
  function ObjectOf(item: map<string, Json>): Json {
    GetOr(item, "object", JObj(map[]))
  }

  function MetaOf(obj: map<string, Json>): SeriesMeta {
    SeriesMeta(
      Get(obj, "SeriesTitleEn"),
      Get(obj, "SeriesTitleFr"),
      PyStr(GetOr(obj, "productId", JStr(""))),
      Get(obj, "coordinate"),
      Get(obj, "frequencyCode"))
  }

  /** One pass of the lookup loop over a `series_info` entry: `None` when
      the entry is passed over, or the key and metadata it stores. */
  function SeriesEntry(x: Json): Result<Option<(Key, SeriesMeta)>> {
    match AsDict(x)
    case Err(e) => Err(e)
    case Ok(item) =>
      if !IsSuccess(item) then Ok(None)
      else
        match AsDict(ObjectOf(item))
        case Err(e) => Err(e)
        case Ok(obj) =>
          var vid := Get(obj, "vectorId");
          if !Truthy(vid) then Ok(None)
          else
            match HashKey(vid)
            case None => Err(TypeError)
            case Some(k) => Ok(Some((k, MetaOf(obj))))
  }

  /** `vector_metadata` after the loop over `series` */
  function BuildMetadata(series: seq<Json>): Result<map<Key, SeriesMeta>>
    decreases |series|
  {
    if series == [] then Ok(map[])
    else
      match BuildMetadata(series[..|series| - 1])
      case Err(e) => Err(e)
      case Ok(m) =>
        match SeriesEntry(series[|series| - 1])
        case Err(e) => Err(e)
        case Ok(None) => Ok(m)
        case Ok(Some(entry)) => Ok(m[entry.0 := entry.1])
  }

  /** One record: the vector id, eight fields copied from the point, and
      five from the metadata, all null when the lookup had no entry. */
  function MakeRow(vid: Json, point: map<string, Json>, meta: Option<SeriesMeta>): Row {
    Row(
      vid,
      Get(point, "refPer"),
      Get(point, "refPer2"),
      Get(point, "value"),
      Get(point, "scalarFactorCode"),
      Get(point, "decimals"),
      Get(point, "statusCode"),
      Get(point, "symbolCode"),
      Get(point, "releaseTime"),
      if meta.Some? then meta.value.titleEn else JNull,
      if meta.Some? then meta.value.titleFr else JNull,
      if meta.Some? then JStr(meta.value.productId) else JNull,
      if meta.Some? then meta.value.coordinate else JNull,
      if meta.Some? then meta.value.frequency else JNull)
  }

  /** The records of the inner loop over the points of one entry */
  function PointRows(vid: Json, meta: Option<SeriesMeta>, points: seq<Json>): Result<seq<Row>>
    decreases |points|
  {
    if points == [] then Ok([])
    else
      match PointRows(vid, meta, points[..|points| - 1])
      case Err(e) => Err(e)
      case Ok(rows) =>
        match AsDict(points[|points| - 1])
        case Err(e) => Err(e)
        case Ok(p) => Ok(rows + [MakeRow(vid, p, meta)])
  }

  /** `vector_metadata.get(vector_id, {})`, as an option */
  function Join(lookup: map<Key, SeriesMeta>, k: Key): Option<SeriesMeta> {
    if k in lookup then Some(lookup[k]) else None
  }

  /** The records of one pass of the outer loop over a `data` entry */
  function EntryRows(lookup: map<Key, SeriesMeta>, x: Json): Result<seq<Row>> {
    match AsDict(x)
    case Err(e) => Err(e)
    case Ok(item) =>
      if !IsSuccess(item) then Ok([])
      else
        match AsDict(ObjectOf(item))
        case Err(e) => Err(e)
        case Ok(obj) =>
          var vid := Get(obj, "vectorId");
          match HashKey(vid)
          case None => Err(TypeError)
          case Some(k) =>
            match LoopElements(GetOr(obj, "vectorDataPoint", JArr([])))
            case Err(e) => Err(e)
            case Ok(points) => PointRows(vid, Join(lookup, k), points)
  }

  /** `records` after the outer loop over `data` */
  function Flatten(lookup: map<Key, SeriesMeta>, data: seq<Json>): Result<seq<Row>>
    decreases |data|
  {
    if data == [] then Ok([])
    else Chain(Flatten(lookup, data[..|data| - 1]), EntryRows(lookup, data[|data| - 1]))
  }

  /** The records `run()` builds from the raw snapshot, or the exception it
      raises before validation. */
  function Records(raw: Json): Result<seq<Row>> {
    match AsDict(raw)
    case Err(e) => Err(e)
    case Ok(doc) =>
      match LoopElements(GetOr(doc, "series_info", JArr([])))
      case Err(e) => Err(e)
      case Ok(series) =>
        match BuildMetadata(series)
        case Err(e) => Err(e)
        case Ok(lookup) =>
          match LoopElements(GetOr(doc, "data", JArr([])))
          case Err(e) => Err(e)
          case Ok(data) =>
            match Flatten(lookup, data)
            case Err(e) => Err(e)
            case Ok(rows) => if rows == [] then Err(ValueError(NoDataMessage)) else Ok(rows)
  }

  // ---------------------------------------------------------------------
  // The lookup

  /** The series entry is admitted under key `k`: a dict with status
      SUCCESS whose object is a dict with a truthy `vectorId` that stands
      for `k`. A null, 0 or empty vector id is never admitted. */
  predicate Admits(x: Json, k: Key) {
    && x.JObj?
    && IsSuccess(x.fields)
    && ObjectOf(x.fields).JObj?
    && Truthy(Get(ObjectOf(x.fields).fields, "vectorId"))
    && HashKey(Get(ObjectOf(x.fields).fields, "vectorId")) == Some(k)
  }

  lemma SeriesEntryAdmits(x: Json, k: Key)
    requires SeriesEntry(x).Ok?
    ensures Admits(x, k) <==> SeriesEntry(x).value.Some? && SeriesEntry(x).value.value.0 == k
    ensures Admits(x, k) ==> SeriesEntry(x).value.value.1 == MetaOf(ObjectOf(x.fields).fields)
  {
  }

  /** The lookup after one more entry: the entry's own key is set to its
      metadata when admitted, every other key keeps its value. */
  lemma LookupStep(series: seq<Json>, k: Key)
    requires series != [] && BuildMetadata(series).Ok?
    ensures BuildMetadata(series[..|series| - 1]).Ok?
    ensures Admits(series[|series| - 1], k) ==>
              k in BuildMetadata(series).value &&
              BuildMetadata(series).value[k] == MetaOf(ObjectOf(series[|series| - 1].fields).fields)
    ensures !Admits(series[|series| - 1], k) ==>
              (k in BuildMetadata(series).value <==> k in BuildMetadata(series[..|series| - 1]).value) &&
              (k in BuildMetadata(series).value ==>
                 BuildMetadata(series).value[k] == BuildMetadata(series[..|series| - 1]).value[k])
  {
    SeriesEntryAdmits(series[|series| - 1], k);
  }

  /** A vector id is in the lookup exactly when some series entry is
      admitted under it. */
  lemma {:induction false} LookupKeys(series: seq<Json>, k: Key)
    requires BuildMetadata(series).Ok?
    ensures k in BuildMetadata(series).value <==> exists i :: 0 <= i < |series| && Admits(series[i], k)
    decreases |series|
  {
    if series != [] {
      var n := |series| - 1;
      var front := series[..n];
      LookupStep(series, k);
      LookupKeys(front, k);
      ExistsSplit(series, front, x => Admits(x, k));
    }
  }

  /** The lookup holds the metadata of the LAST entry admitted under a key:
      a later duplicate overwrites an earlier one. */
  lemma {:induction false} LookupLastWins(series: seq<Json>, k: Key, i: nat)
    requires BuildMetadata(series).Ok?
    requires i < |series| && Admits(series[i], k)
    requires forall j :: i < j < |series| ==> !Admits(series[j], k)
    ensures k in BuildMetadata(series).value
    ensures BuildMetadata(series).value[k] == MetaOf(ObjectOf(series[i].fields).fields)
    decreases |series|
  {
    var n := |series| - 1;
    LookupStep(series, k);
    if i < n {
      var front := series[..n];
      assert front[i] == series[i];
      forall j | i < j < |front| ensures !Admits(front[j], k) {
        assert front[j] == series[j];
      }
      LookupLastWins(front, k, i);
    }
  }

  // ---------------------------------------------------------------------
  // Rows: count, order, contents

  /** The points a SUCCESS data entry holds; zero for any other entry, and
      for one whose `object` or `vectorDataPoint` is absent. */
  function PointsOf(x: Json): seq<Json> {
    if x.JObj? && IsSuccess(x.fields) && ObjectOf(x.fields).JObj? then
      match LoopElements(GetOr(ObjectOf(x.fields).fields, "vectorDataPoint", JArr([])))
      case Ok(points) => points
      case Err(_) => []
    else []
  }

  /** The sum of the point counts of the SUCCESS entries */
  function SuccessPoints(data: seq<Json>): nat
    decreases |data|
  {
    if data == [] then 0 else SuccessPoints(data[..|data| - 1]) + |PointsOf(data[|data| - 1])|
  }

  lemma {:induction false} PointRowsAt(vid: Json, meta: Option<SeriesMeta>, points: seq<Json>)
    requires PointRows(vid, meta, points).Ok?
    ensures |PointRows(vid, meta, points).value| == |points|
    ensures forall j :: 0 <= j < |points| ==>
              points[j].JObj? && PointRows(vid, meta, points).value[j] == MakeRow(vid, points[j].fields, meta)
    decreases |points|
  {
    if points != [] {
      var front := points[..|points| - 1];
      PointRowsAt(vid, meta, front);
      assert forall j :: 0 <= j < |front| ==> front[j] == points[j];
    }
  }

  lemma EntryRowsAt(lookup: map<Key, SeriesMeta>, x: Json)
    requires EntryRows(lookup, x).Ok?
    ensures |EntryRows(lookup, x).value| == |PointsOf(x)|
    ensures x.JObj? && IsSuccess(x.fields) ==>
              var obj := ObjectOf(x.fields).fields;
              var vid := Get(obj, "vectorId");
              HashKey(vid).Some? &&
              forall j :: 0 <= j < |PointsOf(x)| ==>
                PointsOf(x)[j].JObj? &&
                EntryRows(lookup, x).value[j] == MakeRow(vid, PointsOf(x)[j].fields, Join(lookup, HashKey(vid).value))
  {
    if x.JObj? && IsSuccess(x.fields) {
      var obj := ObjectOf(x.fields).fields;
      var vid := Get(obj, "vectorId");
      PointRowsAt(vid, Join(lookup, HashKey(vid).value), PointsOf(x));
    }
  }

  /** The number of records is the sum of the point counts of the SUCCESS
      data entries. */
  lemma {:induction false} RecordCount(lookup: map<Key, SeriesMeta>, data: seq<Json>)
    requires Flatten(lookup, data).Ok?
    ensures |Flatten(lookup, data).value| == SuccessPoints(data)
    decreases |data|
  {
    if data != [] {
      var n := |data| - 1;
      RecordCount(lookup, data[..n]);
      EntryRowsAt(lookup, data[n]);
    }
  }

  /** One entry alone yields its own records. */
  lemma FlattenOne(lookup: map<Key, SeriesMeta>, x: Json)
    ensures Flatten(lookup, [x]) == EntryRows(lookup, x)
  {
    assert [x][..0] == [];
    if EntryRows(lookup, x).Ok? {
      assert [] + EntryRows(lookup, x).value == EntryRows(lookup, x).value;
    }
  }

  /** The records of a run split around entry `i`: those of the entries
      before it, its own, then those of the entries after it. */
  lemma FlattenAround(lookup: map<Key, SeriesMeta>, data: seq<Json>, i: nat)
    requires Flatten(lookup, data).Ok? && i < |data|
    ensures Flatten(lookup, data[..i]).Ok? && EntryRows(lookup, data[i]).Ok? && Flatten(lookup, data[i + 1..]).Ok?
    ensures Flatten(lookup, data).value ==
              Flatten(lookup, data[..i]).value + EntryRows(lookup, data[i]).value + Flatten(lookup, data[i + 1..]).value
  {
    var before, x, after := data[..i], data[i], data[i + 1..];
    SplitAt(data, i);
    FlattenAppend(lookup, before + [x], after);
    FlattenAppend(lookup, before, [x]);
    FlattenOne(lookup, x);
  }

  /** Point `j` of SUCCESS entry `i` becomes the record right after the
      points of the SUCCESS entries before `i`. */
  lemma RecordIs(lookup: map<Key, SeriesMeta>, data: seq<Json>, i: nat, j: nat)
    requires Flatten(lookup, data).Ok?
    requires i < |data| && j < |PointsOf(data[i])|
    ensures EntryRows(lookup, data[i]).Ok? && |EntryRows(lookup, data[i]).value| == |PointsOf(data[i])|
    ensures SuccessPoints(data[..i]) + j < |Flatten(lookup, data).value|
    ensures Flatten(lookup, data).value[SuccessPoints(data[..i]) + j] == EntryRows(lookup, data[i]).value[j]
  {
    FlattenAround(lookup, data, i);
    RecordCount(lookup, data[..i]);
    EntryRowsAt(lookup, data[i]);
    IndexMiddle(Flatten(lookup, data[..i]).value, EntryRows(lookup, data[i]).value, Flatten(lookup, data[i + 1..]).value, j);
  }

  /** The records follow data-entry order, then point order: point `j` of
      SUCCESS entry `i` is the record right after the points of the SUCCESS
      entries before `i`. It carries the entry's `vectorId` (even a null
      one), eight fields copied from the point, and the lookup's metadata
      for the vector, or nulls when the lookup has none. */
  lemma RecordAt(lookup: map<Key, SeriesMeta>, data: seq<Json>, i: nat, j: nat)
    requires Flatten(lookup, data).Ok?
    requires i < |data| && data[i].JObj? && IsSuccess(data[i].fields)
    requires j < |PointsOf(data[i])|
    ensures SuccessPoints(data[..i]) + j < |Flatten(lookup, data).value|
    ensures
      var vid := Get(ObjectOf(data[i].fields).fields, "vectorId");
      var point := PointsOf(data[i])[j];
      var row := Flatten(lookup, data).value[SuccessPoints(data[..i]) + j];
      && point.JObj?
      && HashKey(vid).Some?
      && row.vectorId == vid
      && row.refPeriod == Get(point.fields, "refPer")
      && row.refPeriod2 == Get(point.fields, "refPer2")
      && row.value == Get(point.fields, "value")
      && row.scalarFactor == Get(point.fields, "scalarFactorCode")
      && row.decimals == Get(point.fields, "decimals")
      && row.statusCode == Get(point.fields, "statusCode")
      && row.symbolCode == Get(point.fields, "symbolCode")
      && row.releaseTime == Get(point.fields, "releaseTime")
      && (HashKey(vid).value in lookup ==>
            var meta := lookup[HashKey(vid).value];
            && row.titleEn == meta.titleEn
            && row.titleFr == meta.titleFr
            && row.productId == JStr(meta.productId)
            && row.coordinate == meta.coordinate
            && row.frequency == meta.frequency)
      && (HashKey(vid).value !in lookup ==>
            && row.titleEn == JNull
            && row.titleFr == JNull
            && row.productId == JNull
            && row.coordinate == JNull
            && row.frequency == JNull)
  {
    RecordIs(lookup, data, i, j);
    EntryRowsAt(lookup, data[i]);
  }

  /** Splitting the data splits the records: the first exception wins,
      otherwise the records of the first part precede those of the second. */
  lemma {:induction false} FlattenAppend(lookup: map<Key, SeriesMeta>, a: seq<Json>, b: seq<Json>)
    ensures Flatten(lookup, a + b) == Chain(Flatten(lookup, a), Flatten(lookup, b))
    decreases |b|
  {
    if b == [] {
      ConcatEmpty(a);
      if Flatten(lookup, a).Ok? {
        ConcatEmpty(Flatten(lookup, a).value);
      }
    } else {
      var n := |b| - 1;
      FlattenAppend(lookup, a, b[..n]);
      ConcatLast(a, b);
      var fa, fb, e := Flatten(lookup, a), Flatten(lookup, b[..n]), EntryRows(lookup, b[n]);
      if fa.Ok? && fb.Ok? && e.Ok? {
        ConcatAssoc(fa.value, fb.value, e.value);
      }
    }
  }

  /** A data entry whose status is not SUCCESS contributes no record, and
      taking it out changes nothing. */
  lemma SkippedEntry(lookup: map<Key, SeriesMeta>, a: seq<Json>, x: Json, b: seq<Json>)
    requires x.JObj? && !IsSuccess(x.fields)
    ensures Flatten(lookup, a + [x] + b) == Flatten(lookup, a + b)
  {
    FlattenAppend(lookup, a + [x], b);
    FlattenAppend(lookup, a, [x]);
    FlattenAppend(lookup, a, b);
    assert [x][..0] == [];
    if Flatten(lookup, a).Ok? {
      ConcatEmpty(Flatten(lookup, a).value);
    }
  }

  // ---------------------------------------------------------------------
  // The whole document

  /** A document whose `series_info` and `data` are lists */
  predicate Document(raw: Json, series: seq<Json>, data: seq<Json>) {
    && raw.JObj?
    && GetOr(raw.fields, "series_info", JArr([])) == JArr(series)
    && GetOr(raw.fields, "data", JArr([])) == JArr(data)
  }

  /** When nothing raises on the way, the run yields one record per point
      of a SUCCESS data entry, and fails with "No economic indicator data
      found" exactly when there are none. */
  lemma EmptyResult(raw: Json, series: seq<Json>, data: seq<Json>)
    requires Document(raw, series, data)
    requires BuildMetadata(series).Ok? && Flatten(BuildMetadata(series).value, data).Ok?
    ensures SuccessPoints(data) == 0 <==> Records(raw) == Err(ValueError(NoDataMessage))
    ensures SuccessPoints(data) > 0 ==> Records(raw).Ok? && |Records(raw).value| == SuccessPoints(data)
  {
    RecordCount(BuildMetadata(series).value, data);
  }

  /** Join correctness: the metadata of a record is that of the last
      admitted series entry for its vector id, and null when none was
      admitted (a failed, missing or falsy-id entry). */
  lemma JoinedMetadata(raw: Json, series: seq<Json>, data: seq<Json>, i: nat, j: nat)
    requires Document(raw, series, data) && Records(raw).Ok?
    requires i < |data| && data[i].JObj? && IsSuccess(data[i].fields)
    requires j < |PointsOf(data[i])|
    ensures SuccessPoints(data[..i]) + j < |Records(raw).value|
    ensures
      var vid := Get(ObjectOf(data[i].fields).fields, "vectorId");
      var row := Records(raw).value[SuccessPoints(data[..i]) + j];
      && HashKey(vid).Some?
      && (forall s :: 0 <= s < |series| && Admits(series[s], HashKey(vid).value) &&
                      (forall t :: s < t < |series| ==> !Admits(series[t], HashKey(vid).value)) ==>
            var obj := ObjectOf(series[s].fields).fields;
            && row.titleEn == Get(obj, "SeriesTitleEn")
            && row.titleFr == Get(obj, "SeriesTitleFr")
            && row.productId == JStr(PyStr(GetOr(obj, "productId", JStr(""))))
            && row.coordinate == Get(obj, "coordinate")
            && row.frequency == Get(obj, "frequencyCode"))
      && ((forall s :: 0 <= s < |series| ==> !Admits(series[s], HashKey(vid).value)) ==>
            && row.titleEn == JNull
            && row.titleFr == JNull
            && row.productId == JNull
            && row.coordinate == JNull
            && row.frequency == JNull)
  {
    var lookup := BuildMetadata(series).value;
    RecordIs(lookup, data, i, j);
    EntryRowsAt(lookup, data[i]);
    var vid := Get(ObjectOf(data[i].fields).fields, "vectorId");
    var k := HashKey(vid).value;
    LookupKeys(series, k);
    forall s | 0 <= s < |series| && Admits(series[s], k) && (forall t :: s < t < |series| ==> !Admits(series[t], k))
      ensures lookup[k] == MetaOf(ObjectOf(series[s].fields).fields)
    {
      LookupLastWins(series, k, s);
    }
  }

  // ---------------------------------------------------------------------
  // The imperative run

  /** The loop of lines 55-67, filling `vector_metadata` */
  method BuildLookup(series: seq<Json>) returns (result: Result<map<Key, SeriesMeta>>)
    ensures result == BuildMetadata(series)
  {
    var vectorMetadata: map<Key, SeriesMeta> := map[];
    var i := 0;
    while i < |series|
      invariant 0 <= i <= |series|
      invariant BuildMetadata(series[..i]) == Ok(vectorMetadata)
    {
      PrefixStep(series, i);
      var item := series[i];
      if !item.JObj? {
        MetadataStops(series, i + 1);
        return Err(AttributeError);
      }
      if Get(item.fields, "status") == JStr("SUCCESS") {
        var obj := ObjectOf(item.fields);
        if !obj.JObj? {
          MetadataStops(series, i + 1);
          return Err(AttributeError);
        }
        var vectorId := Get(obj.fields, "vectorId");
        if Truthy(vectorId) {
          var key := HashKey(vectorId);
          if key.None? {
            MetadataStops(series, i + 1);
            return Err(TypeError);
          }
          vectorMetadata := vectorMetadata[key.value := MetaOf(obj.fields)];
        }
      }
      i := i + 1;
    }
    WholePrefix(series);
    return Ok(vectorMetadata);
  }

  /** The inner loop of lines 79-95, appending one record per point */
  method AppendPoints(records: seq<Row>, vectorId: Json, metadata: Option<SeriesMeta>, points: seq<Json>)
    returns (result: Result<seq<Row>>)
    ensures result == Chain(Ok(records), PointRows(vectorId, metadata, points))
  {
    var out := records;
    ghost var added: seq<Row> := [];
    var j := 0;
    while j < |points|
      invariant 0 <= j <= |points|
      invariant out == records + added
      invariant PointRows(vectorId, metadata, points[..j]) == Ok(added)
    {
      PointRowsStep(vectorId, metadata, points, j);
      var point := points[j];
      if !point.JObj? {
        PointRowsStop(vectorId, metadata, points, j + 1);
        return Err(AttributeError);
      }
      out := out + [MakeRow(vectorId, point.fields, metadata)];
      added := added + [MakeRow(vectorId, point.fields, metadata)];
      j := j + 1;
    }
    WholePrefix(points);
    return Ok(out);
  }

  /** The head of one pass of the outer loop, lines 71-77: `None` for an
      entry whose status is not "SUCCESS" (skipped), otherwise the entry's
      vector id, its joined metadata and its points, whose records are then
      those of the inner loop over them. */
  method EntryHeader(vectorMetadata: map<Key, SeriesMeta>, item: Json)
    returns (result: Result<Option<(Json, Option<SeriesMeta>, seq<Json>)>>)
    ensures result.Err? ==> EntryRows(vectorMetadata, item) == Err(result.error)
    ensures result == Ok(None) ==> EntryRows(vectorMetadata, item) == Ok([])
    ensures result.Ok? && result.value.Some? ==>
              EntryRows(vectorMetadata, item) == PointRows(result.value.value.0, result.value.value.1, result.value.value.2)
  {
    if !item.JObj? {
      return Err(AttributeError);
    }
    if Get(item.fields, "status") != JStr("SUCCESS") {
      return Ok(None);
    }
    var obj := ObjectOf(item.fields);
    if !obj.JObj? {
      return Err(AttributeError);
    }
    var vectorId := Get(obj.fields, "vectorId");
    var vectorDataPoints := GetOr(obj.fields, "vectorDataPoint", JArr([]));
    var key := HashKey(vectorId);
    if key.None? {
      return Err(TypeError);
    }
    var metadata := if key.value in vectorMetadata then Some(vectorMetadata[key.value]) else None;
    var points :- LoopElements(vectorDataPoints);
    return Ok(Some((vectorId, metadata, points)));
  }

  /** The outer loop of lines 69-95 over the data entries */
  method FlattenData(vectorMetadata: map<Key, SeriesMeta>, data: seq<Json>) returns (result: Result<seq<Row>>)
    ensures result == Flatten(vectorMetadata, data)
  {
    var records: seq<Row> := [];
    var n := 0;
    while n < |data|
      invariant 0 <= n <= |data|
      invariant Flatten(vectorMetadata, data[..n]) == Ok(records)
    {
      FlattenStep(vectorMetadata, data, n);
      var header := EntryHeader(vectorMetadata, data[n]);
      if header.Err? {
        FlattenStops(vectorMetadata, data, n + 1);
        return Err(header.error);
      }
      if header.value.None? {
        ConcatEmpty(records);
        n := n + 1;
        continue;
      }
      var entry := header.value.value;
      var extended := AppendPoints(records, entry.0, entry.1, entry.2);
      if extended.Err? {
        FlattenStops(vectorMetadata, data, n + 1);
        return extended;
      }
      records := extended.value;
      n := n + 1;
    }
    WholePrefix(data);
    return Ok(records);
  }

  /** Lines 51-98 of `run()`: read the two lists, run both loops, and
      refuse an empty result. */
  method BuildRecords(raw: Json) returns (result: Result<seq<Row>>)
    ensures result == Records(raw)
  {
    if !raw.JObj? {
      return Err(AttributeError);
    }
    var seriesInfo := GetOr(raw.fields, "series_info", JArr([]));
    var dataResponse := GetOr(raw.fields, "data", JArr([]));
    var series :- LoopElements(seriesInfo);
    var vectorMetadata :- BuildLookup(series);
    var data :- LoopElements(dataResponse);
    var records :- FlattenData(vectorMetadata, data);
    if records == [] {
      return Err(ValueError(NoDataMessage));
    }
    return Ok(records);
  }

  lemma {:induction false} MetadataStops(series: seq<Json>, i: nat)
    requires i <= |series| && BuildMetadata(series[..i]).Err?
    ensures BuildMetadata(series) == BuildMetadata(series[..i])
    decreases |series| - i
  {
    if i < |series| {
      PrefixStep(series, i);
      MetadataStops(series, i + 1);
    } else {
      WholePrefix(series);
    }
  }

  /** One more entry of the outer loop */
  lemma FlattenStep(lookup: map<Key, SeriesMeta>, data: seq<Json>, n: nat)
    requires n < |data|
    ensures Flatten(lookup, data[..n + 1]) == Chain(Flatten(lookup, data[..n]), EntryRows(lookup, data[n]))
  {
    PrefixStep(data, n);
  }

  /** One more point of the inner loop */
  lemma PointRowsStep(vid: Json, meta: Option<SeriesMeta>, points: seq<Json>, j: nat)
    requires j < |points|
    ensures PointRows(vid, meta, points[..j + 1]) ==
              if PointRows(vid, meta, points[..j]).Err? then PointRows(vid, meta, points[..j])
              else if !points[j].JObj? then Err(AttributeError)
              else Ok(PointRows(vid, meta, points[..j]).value + [MakeRow(vid, points[j].fields, meta)])
  {
    PrefixStep(points, j);
  }

  lemma {:induction false} FlattenStops(lookup: map<Key, SeriesMeta>, data: seq<Json>, i: nat)
    requires i <= |data| && Flatten(lookup, data[..i]).Err?
    ensures Flatten(lookup, data) == Flatten(lookup, data[..i])
    decreases |data| - i
  {
    if i < |data| {
      PrefixStep(data, i);
      FlattenStops(lookup, data, i + 1);
    } else {
      WholePrefix(data);
    }
  }

  lemma {:induction false} PointRowsStop(vid: Json, meta: Option<SeriesMeta>, points: seq<Json>, i: nat)
    requires i <= |points| && PointRows(vid, meta, points[..i]).Err?
    ensures PointRows(vid, meta, points) == PointRows(vid, meta, points[..i])
    decreases |points| - i
  {
    if i < |points| {
      PrefixStep(points, i);
      PointRowsStop(vid, meta, points, i + 1);
    } else {
      WholePrefix(points);
    }
  }

  /** `run()`: the records, then `test`, upload and publish, each only
      after the one before succeeded. */
  method Run(raw: Json) returns (outcome: Result<seq<Row>>, calls: seq<Call>)
    ensures Records(raw).Err? ==> outcome == Records(raw)
    ensures Records(raw).Ok? ==>
              outcome == (match IndicatorsTest.Test(Records(raw).value)
                          case Ok(_) => Records(raw)
                          case Err(e) => Err(e))
    ensures calls <= FullRun(RawSlot, DatasetId, Overwrite) && |calls| >= 1
    ensures Validate in calls <==> Records(raw).Ok?
    ensures Publish(DatasetId) in calls <==> outcome.Ok?
    ensures Upload(DatasetId, Overwrite) in calls <==> outcome.Ok?
  {
    ghost var full := FullRun(RawSlot, DatasetId, Overwrite);
    calls := [LoadRaw(RawSlot)];
    var records := BuildRecords(raw);
    if records.Err? {
      assert calls == full[..1];
      return records, calls;
    }
    calls := calls + [Validate];
    var verdict := IndicatorsTest.Test(records.value);
    if verdict.Err? {
      assert calls == full[..2];
      return Err(verdict.error), calls;
    }
    calls := calls + [Upload(DatasetId, Overwrite)];
    calls := calls + [Publish(DatasetId)];
    assert calls == full;
    return records, calls;
  }
}
