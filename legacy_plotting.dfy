/** The single-panel chart composer: the price trace, its EMA overlays and
    the trade markers, in one trace list with no subplots. */
module LegacyPlotting {
  import opened Wrappers
  import opened Frames
  import opened PreProcessing
  import opened Traces

  /** Builds the figure trace by trace: the price trace, one overlay per
      EMA span, then one marker trace per action that has trades. */
  method PlotStockPrice(priceData: Table, tickerName: string,
                        buySellData: Option<seq<TradeRow>> := None,
                        candlestick: bool := true,
                        emaPeriods: Option<seq<int>> := Some([13, 26]))
    returns (r: Result<seq<Trace>>)
    ensures r == PricePanel(priceData, tickerName, buySellData, candlestick, emaPeriods)
  {
    var price :- PriceTrace(priceData, tickerName, candlestick);
    var traces := [price];
    var spans := SpansOf(emaPeriods);
    if spans != [] {
      traces :- AppendEmaOverlays(traces, priceData["Close"], spans);
    } else {
      assert traces == [price] + EmaTraces(priceData["Close"], spans);
    }
    if buySellData.Some? {
      traces := AppendMarkers(traces, buySellData.value, ActionOrder);
    }
    assert traces == [price] + EmaTraces(priceData["Close"], spans) + MarkerTraces(buySellData);
    assert ValidSpans(spans);
    r := Ok(traces);
  }
}
