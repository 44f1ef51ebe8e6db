/** The checks `run_backtest` makes on the downloaded price table before any simulation:
    no table or an empty one is "not found" (HTTP 404), fewer than `MinBars` rows is
    "not enough data" (HTTP 400). */
module DataGuard {
  import opened Wrappers

  /** One daily OHLCV row, as the data provider delivers it (dates already formatted). */
  datatype Bar = Bar(time: string, open: real, high: real, low: real, close: real, volume: real)

  datatype HttpError = HttpError(status: int, detail: string)

  const MinBars: nat := 60

  const NotFound := HttpError(404, "找不到數據")
  const TooFewBars := HttpError(400, "數據不足 60 筆")

  /** `None` is a failed download (`df is None`); `Some([])` an empty table. */
  function CheckData(df: Option<seq<Bar>>): (r: Result<seq<Bar>, HttpError>)
    ensures r.Success? <==> df.Some? && |df.value| >= MinBars
    ensures r.Success? ==> r.value == df.value
    ensures r == Failure(NotFound) <==> df.None? || df.value == []
    ensures r == Failure(TooFewBars) <==> df.Some? && 0 < |df.value| < MinBars
  {
    if df.None? || |df.value| == 0 then Failure(NotFound)
    else if |df.value| < MinBars then Failure(TooFewBars)
    else Success(df.value)
  }
}
