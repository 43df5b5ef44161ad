/** The table the economic-indicators package writes: one row per data
    point, with the columns of its fixed schema. */
module IndicatorSchema {
  import opened PyJson

  /** One record of the table, a field per schema column. */
  datatype Row = Row(
    vectorId: Json,
    refPeriod: Json,
    refPeriod2: Json,
    value: Json,
    scalarFactor: Json,
    decimals: Json,
    statusCode: Json,
    symbolCode: Json,
    releaseTime: Json,
    titleEn: Json,
    titleFr: Json,
    productId: Json,
    coordinate: Json,
    frequency: Json)

  /** The schema's column names and types, in column order */
  const Schema: seq<(string, ColumnType)> := [
    ("vector_id", IntColumn),
    ("ref_period", StringColumn),
    ("ref_period_2", StringColumn),
    ("value", DoubleColumn),
    ("scalar_factor", IntColumn),
    ("decimals", IntColumn),
    ("status_code", IntColumn),
    ("symbol_code", IntColumn),
    ("release_time", StringColumn),
    ("title_en", StringColumn),
    ("title_fr", StringColumn),
    ("product_id", StringColumn),
    ("coordinate", StringColumn),
    ("frequency", IntColumn)
  ]

  /** The value a row holds in the named schema column */
  function Column(r: Row, name: string): Json {
    match name
    case "vector_id" => r.vectorId
    case "ref_period" => r.refPeriod
    case "ref_period_2" => r.refPeriod2
    case "value" => r.value
    case "scalar_factor" => r.scalarFactor
    case "decimals" => r.decimals
    case "status_code" => r.statusCode
    case "symbol_code" => r.symbolCode
    case "release_time" => r.releaseTime
    case "title_en" => r.titleEn
    case "title_fr" => r.titleFr
    case "product_id" => r.productId
    case "coordinate" => r.coordinate
    case "frequency" => r.frequency
    case _ => JNull
  }
}
