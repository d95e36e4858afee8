/** The multi-panel chart composer: a layout chosen from the MACD and volume
    flags, and the ordered traces of the price panel, the MACD panels and
    the volume panel, each tagged with the row it is drawn in. */
module Plotting {
  import opened Wrappers
  import opened Frames
  import opened PreProcessing
  import opened Traces

  /** The subplot grid: its row count, the relative row heights (none given
      for a single row), and one title per row. */
  datatype Layout = Layout(rows: nat, rowHeights: Option<seq<real>>, titles: seq<string>)

  /** A trace and the (1-based) row it is added to. */
  datatype Placed = Placed(trace: Trace, row: nat)

  datatype Figure = Figure(layout: Layout, traces: seq<Placed>)

  const MacdArgsError := ValueError("If plot_macd=True, both fast_macd and slow_signal must be provided.")

  /** The layout table, keyed on (plot_macd, plot_volume). */
  function Subplots(ticker: string, plotMacd: bool, plotVolume: bool): (l: Layout)
    ensures l.rows == 1 + (if plotMacd then 2 else 0) + (if plotVolume then 1 else 0)
    ensures |l.titles| == l.rows && l.titles[0] == ticker + " Price"
    ensures plotMacd ==> l.titles[1] == "MACD" && l.titles[2] == "MACD Histogram"
    ensures plotVolume ==> l.titles[l.rows - 1] == "Volume"
    ensures l.rowHeights.None? <==> l.rows == 1
    ensures l.rowHeights.Some? ==>
      |l.rowHeights.value| == l.rows && forall i :: 0 <= i < l.rows ==> l.rowHeights.value[i] > 0.0
  {
    var price := ticker + " Price";
    if plotMacd then
      if plotVolume then Layout(4, Some([0.56, 0.14, 0.14, 0.14]), [price, "MACD", "MACD Histogram", "Volume"])
      else Layout(3, Some([0.6, 0.25, 0.15]), [price, "MACD", "MACD Histogram"])
    else
      if plotVolume then Layout(2, Some([0.65, 0.35]), [price, "Volume"])
      else Layout(1, None, [price])
  }

  function Sum(xs: seq<real>): real {
    if xs == [] then 0.0 else xs[0] + Sum(xs[1..])
  }

  /** The row heights given to the renderer (which treats them as relative
      weights): they add up to 1 for two and three rows, but only to 0.98
      for four. */
  lemma RowHeightSums(ticker: string, plotMacd: bool, plotVolume: bool)
    ensures var l := Subplots(ticker, plotMacd, plotVolume);
      && (l.rows == 2 ==> l.rowHeights == Some([0.65, 0.35]) && Sum(l.rowHeights.value) == 1.0)
      && (l.rows == 3 ==> l.rowHeights == Some([0.6, 0.25, 0.15]) && Sum(l.rowHeights.value) == 1.0)
      && (l.rows == 4 ==> l.rowHeights == Some([0.56, 0.14, 0.14, 0.14]) && Sum(l.rowHeights.value) == 0.98)
  {
    var l := Subplots(ticker, plotMacd, plotVolume);
    if l.rows == 4 {
      assert Sum([0.14]) == 0.14;
      assert Sum([0.14, 0.14]) == 0.14 + Sum([0.14]) by { assert [0.14, 0.14][1..] == [0.14]; }
      assert Sum([0.14, 0.14, 0.14]) == 0.14 + Sum([0.14, 0.14]) by { assert [0.14, 0.14, 0.14][1..] == [0.14, 0.14]; }
      assert l.rowHeights.value[1..] == [0.14, 0.14, 0.14];
    } else if l.rows == 3 {
      assert Sum([0.15]) == 0.15;
      assert Sum([0.25, 0.15]) == 0.25 + Sum([0.15]) by { assert [0.25, 0.15][1..] == [0.15]; }
      assert l.rowHeights.value[1..] == [0.25, 0.15];
    } else if l.rows == 2 {
      assert Sum([0.35]) == 0.35;
      assert l.rowHeights.value[1..] == [0.35];
    }
  }

  /** `volume_row`: assigned only in the two layouts that have a volume
      row, and then it is the last row. */
  function VolumeRow(plotMacd: bool, plotVolume: bool): (r: Option<nat>)
    ensures r.Some? <==> plotVolume
    ensures plotVolume ==> r.value == Subplots("", plotMacd, plotVolume).rows
  {
    if plotMacd then (if plotVolume then Some(4) else None)
    else (if plotVolume then Some(2) else None)
  }

  function InRow(ts: seq<Trace>, row: nat): (r: seq<Placed>)
    ensures |r| == |ts| && forall i :: 0 <= i < |ts| ==> r[i] == Placed(ts[i], row)
  {
    seq(|ts|, i requires 0 <= i < |ts| => Placed(ts[i], row))
  }

  /** The fast line (dashed) and signal line (dotted) in row 2, and their
      difference as a histogram in row 3. */
  function MacdTraces(fast: Series, slow: Series): seq<Placed>
    requires |fast| == |slow|
  {
    [Placed(Line("Fast MACD Line", fast, Dashed), 2),
     Placed(Line("Slow Signal Line", slow, Dotted), 2),
     Placed(Bar("MACD Histogram", Sub(fast, slow)), 3)]
  }

  /** The two MACD series line up one to one when they are plotted. */
  predicate MacdAligned(plotMacd: bool, fastMacd: Option<Series>, slowSignal: Option<Series>) {
    plotMacd && fastMacd.Some? && slowSignal.Some? ==> |fastMacd.value| == |slowSignal.value|
  }

  /** The volume bars in the volume row, if asked for; pandas' KeyError if
      the table has no Volume column. */
  function VolumeTraces(priceData: Table, plotMacd: bool, plotVolume: bool): (r: Result<seq<Placed>>)
    ensures !plotVolume ==> r == Ok([])
    ensures plotVolume && "Volume" !in priceData ==> r == Err(KeyError("Volume"))
    ensures plotVolume && "Volume" in priceData ==>
      r == Ok([Placed(Bar("Volume", priceData["Volume"]), Subplots("", plotMacd, true).rows)])
  {
    if plotVolume then
      var volume :- Column(priceData, "Volume");
      Ok([Placed(Bar("Volume", volume), VolumeRow(plotMacd, plotVolume).value)])
    else Ok([])
  }

  /** The figure `plot_stock_price` draws, or the error it raises: missing
      MACD series when MACD is asked for (checked first), a missing price
      column, an EMA span below 1, a missing Volume column. */
  function Chart(priceData: Table, ticker: string, buySellData: Option<seq<TradeRow>>,
                 candlestick: bool, emaPeriods: Option<seq<int>>,
                 plotMacd: bool, fastMacd: Option<Series>, slowSignal: Option<Series>,
                 plotVolume: bool): (r: Result<Figure>)
    requires MacdAligned(plotMacd, fastMacd, slowSignal)
    ensures r.Err? ==>
      || r.error == MacdArgsError || r.error == SpanError
      || (r.error.KeyError? && r.error.key !in priceData)
  {
    if plotMacd && (fastMacd.None? || slowSignal.None?) then Err(MacdArgsError)
    else
      var pricePanel :- PricePanel(priceData, ticker, buySellData, candlestick, emaPeriods);
      var macd := if plotMacd then MacdTraces(fastMacd.value, slowSignal.value) else [];
      var volume :- VolumeTraces(priceData, plotMacd, plotVolume);
      Ok(Figure(Subplots(ticker, plotMacd, plotVolume), InRow(pricePanel, 1) + macd + volume))
  }

  /** Row 1: the price trace, the EMA overlays and the trade markers. */
  method AddPriceRow(priceData: Table, tickerName: string, buySellData: Option<seq<TradeRow>>,
                     candlestick: bool, emaPeriods: Option<seq<int>>)
    returns (r: Result<seq<Placed>>)
    ensures PricePanel(priceData, tickerName, buySellData, candlestick, emaPeriods).Err? ==>
      r == Err(PricePanel(priceData, tickerName, buySellData, candlestick, emaPeriods).error)
    ensures PricePanel(priceData, tickerName, buySellData, candlestick, emaPeriods).Ok? ==>
      r == Ok(InRow(PricePanel(priceData, tickerName, buySellData, candlestick, emaPeriods).value, 1))
  {
    var price :- PriceTrace(priceData, tickerName, candlestick);
    var pricePanel := [price];
    var spans := SpansOf(emaPeriods);
    if spans != [] {
      pricePanel :- AppendEmaOverlays(pricePanel, priceData["Close"], spans);
    } else {
      assert pricePanel == [price] + EmaTraces(priceData["Close"], spans);
    }
    if buySellData.Some? {
      pricePanel := AppendMarkers(pricePanel, buySellData.value, ActionOrder);
    }
    assert pricePanel == [price] + EmaTraces(priceData["Close"], spans) + MarkerTraces(buySellData);
    assert ValidSpans(spans);
    r := Ok(InRow(pricePanel, 1));
  }

  /** Rows 2 and 3: the fast and signal lines, and the histogram of
      `fast_macd - slow_signal`. */
  method AddMacdPanel(traces: seq<Placed>, fast: Series, slow: Series) returns (r: seq<Placed>)
    requires |fast| == |slow|
    ensures r == traces + MacdTraces(fast, slow)
  {
    r := traces + [Placed(Line("Fast MACD Line", fast, Dashed), 2)];
    r := r + [Placed(Line("Slow Signal Line", slow, Dotted), 2)];
    var histogram := Sub(fast, slow);
    r := r + [Placed(Bar("MACD Histogram", histogram), 3)];
  }

  /** The last row, if asked for: the Volume column as bars in the
      `volume_row` the layout step chose. */
  method AddVolume(traces: seq<Placed>, priceData: Table, plotMacd: bool, plotVolume: bool)
    returns (r: Result<seq<Placed>>)
    ensures VolumeTraces(priceData, plotMacd, plotVolume).Err? ==>
      r == Err(VolumeTraces(priceData, plotMacd, plotVolume).error)
    ensures VolumeTraces(priceData, plotMacd, plotVolume).Ok? ==>
      r == Ok(traces + VolumeTraces(priceData, plotMacd, plotVolume).value)
  {
    var volumeRow := VolumeRow(plotMacd, plotVolume);
    if plotVolume {
      var volume :- Column(priceData, "Volume");
      assert VolumeTraces(priceData, plotMacd, plotVolume) == Ok([Placed(Bar("Volume", volume), volumeRow.value)]);
      return Ok(traces + [Placed(Bar("Volume", volume), volumeRow.value)]);
    }
    assert traces + VolumeTraces(priceData, plotMacd, plotVolume).value == traces;
    r := Ok(traces);
  }

  /** Builds the figure: checks the MACD arguments, picks the layout, then
      adds the price row, the MACD panel if asked for, and the volume bars
      in the volume row if asked for. */
  method PlotStockPrice(priceData: Table, tickerName: string,
                        buySellData: Option<seq<TradeRow>> := None,
                        candlestick: bool := true,
                        emaPeriods: Option<seq<int>> := Some([13, 26]),
                        plotMacd: bool := false,
                        fastMacd: Option<Series> := None,
                        slowSignal: Option<Series> := None,
                        plotVolume: bool := false)
    returns (r: Result<Figure>)
    requires MacdAligned(plotMacd, fastMacd, slowSignal)
    ensures r == Chart(priceData, tickerName, buySellData, candlestick, emaPeriods,
                       plotMacd, fastMacd, slowSignal, plotVolume)
  {
    if plotMacd && (fastMacd == None || slowSignal == None) {
      return Err(MacdArgsError);
    }
    var layout := Subplots(tickerName, plotMacd, plotVolume);
    var traces :- AddPriceRow(priceData, tickerName, buySellData, candlestick, emaPeriods);
    ghost var priceRow := traces;
    if plotMacd {
      traces := AddMacdPanel(traces, fastMacd.value, slowSignal.value);
    }
    ghost var macd := if plotMacd then MacdTraces(fastMacd.value, slowSignal.value) else [];
    assert traces == priceRow + macd;
    traces :- AddVolume(traces, priceData, plotMacd, plotVolume);
    r := Ok(Figure(layout, traces));
  }

  /** Asking for MACD without both series fails before anything is drawn,
      whichever of the two is missing and whatever else is passed. */
  lemma ChartRequiresMacdSeries(priceData: Table, ticker: string, buySellData: Option<seq<TradeRow>>,
                                candlestick: bool, emaPeriods: Option<seq<int>>,
                                fastMacd: Option<Series>, slowSignal: Option<Series>, plotVolume: bool)
    requires fastMacd.None? || slowSignal.None?
    ensures Chart(priceData, ticker, buySellData, candlestick, emaPeriods, true, fastMacd, slowSignal, plotVolume)
      == Err(MacdArgsError)
  {
  }

  /** Without MACD the two MACD series are ignored. */
  lemma ChartIgnoresMacdSeries(priceData: Table, ticker: string, buySellData: Option<seq<TradeRow>>,
                               candlestick: bool, emaPeriods: Option<seq<int>>,
                               fastMacd: Option<Series>, slowSignal: Option<Series>, plotVolume: bool)
    ensures Chart(priceData, ticker, buySellData, candlestick, emaPeriods, false, fastMacd, slowSignal, plotVolume)
      == Chart(priceData, ticker, buySellData, candlestick, emaPeriods, false, None, None, plotVolume)
  {
  }

  /** When the figure is drawn: the MACD series are there if asked for, the
      price columns exist, every span is at least 1, and the Volume column
      exists if volume is asked for. */
  lemma ChartSucceeds(priceData: Table, ticker: string, buySellData: Option<seq<TradeRow>>,
                      candlestick: bool, emaPeriods: Option<seq<int>>,
                      plotMacd: bool, fastMacd: Option<Series>, slowSignal: Option<Series>, plotVolume: bool)
    requires MacdAligned(plotMacd, fastMacd, slowSignal)
    ensures Chart(priceData, ticker, buySellData, candlestick, emaPeriods, plotMacd, fastMacd, slowSignal, plotVolume).Ok?
      <==> && (plotMacd ==> fastMacd.Some? && slowSignal.Some?)
           && "Close" in priceData
           && (candlestick ==> "Open" in priceData && "High" in priceData && "Low" in priceData)
           && ValidSpans(SpansOf(emaPeriods))
           && (plotVolume ==> "Volume" in priceData)
  {
  }

  /** A drawn figure is the layout of its flags and, in order, the price
      row, the MACD panel if asked for, and the volume bars if asked for. */
  lemma ChartParts(priceData: Table, ticker: string, buySellData: Option<seq<TradeRow>>,
                   candlestick: bool, emaPeriods: Option<seq<int>>,
                   plotMacd: bool, fastMacd: Option<Series>, slowSignal: Option<Series>, plotVolume: bool)
    requires MacdAligned(plotMacd, fastMacd, slowSignal)
    requires Chart(priceData, ticker, buySellData, candlestick, emaPeriods, plotMacd, fastMacd, slowSignal, plotVolume).Ok?
    ensures PricePanel(priceData, ticker, buySellData, candlestick, emaPeriods).Ok?
    ensures VolumeTraces(priceData, plotMacd, plotVolume).Ok?
    ensures plotMacd ==> fastMacd.Some? && slowSignal.Some?
    ensures Chart(priceData, ticker, buySellData, candlestick, emaPeriods, plotMacd, fastMacd, slowSignal, plotVolume).value
      == Figure(Subplots(ticker, plotMacd, plotVolume),
                InRow(PricePanel(priceData, ticker, buySellData, candlestick, emaPeriods).value, 1)
                + (if plotMacd then MacdTraces(fastMacd.value, slowSignal.value) else [])
                + VolumeTraces(priceData, plotMacd, plotVolume).value)
  {
  }

  /** The number of traces of a drawn figure: the price trace, one per EMA
      span, one per action that some trade carries, three for MACD, one
      for volume. */
  lemma ChartTraceCount(priceData: Table, ticker: string, buySellData: Option<seq<TradeRow>>,
                        candlestick: bool, emaPeriods: Option<seq<int>>,
                        plotMacd: bool, fastMacd: Option<Series>, slowSignal: Option<Series>, plotVolume: bool)
    requires MacdAligned(plotMacd, fastMacd, slowSignal)
    requires Chart(priceData, ticker, buySellData, candlestick, emaPeriods, plotMacd, fastMacd, slowSignal, plotVolume).Ok?
    ensures var f := Chart(priceData, ticker, buySellData, candlestick, emaPeriods, plotMacd, fastMacd, slowSignal, plotVolume).value;
      && f.layout == Subplots(ticker, plotMacd, plotVolume)
      && |f.traces| == 1 + |SpansOf(emaPeriods)| + |ActionsWithTrades(buySellData)|
                       + (if plotMacd then 3 else 0) + (if plotVolume then 1 else 0)
  {
    ChartParts(priceData, ticker, buySellData, candlestick, emaPeriods, plotMacd, fastMacd, slowSignal, plotVolume);
    PricePanelTraces(priceData, ticker, buySellData, candlestick, emaPeriods);
    MarkerTracesNames(buySellData);
  }

  /** The price trace, the EMA overlays and the markers all go to row 1,
      the first being a candlestick exactly when asked for; and every
      trace lies within the layout's rows. */
  lemma ChartRows(priceData: Table, ticker: string, buySellData: Option<seq<TradeRow>>,
                  candlestick: bool, emaPeriods: Option<seq<int>>,
                  plotMacd: bool, fastMacd: Option<Series>, slowSignal: Option<Series>, plotVolume: bool)
    requires MacdAligned(plotMacd, fastMacd, slowSignal)
    requires Chart(priceData, ticker, buySellData, candlestick, emaPeriods, plotMacd, fastMacd, slowSignal, plotVolume).Ok?
    ensures var f := Chart(priceData, ticker, buySellData, candlestick, emaPeriods, plotMacd, fastMacd, slowSignal, plotVolume).value;
      var n := 1 + |SpansOf(emaPeriods)| + |MarkerTraces(buySellData)|;
      && |f.traces| >= n
      && (forall i :: 0 <= i < n ==> f.traces[i].row == 1)
      && (f.traces[0].trace.Candlestick? <==> candlestick)
      && (forall i :: 0 <= i < |f.traces| ==> 1 <= f.traces[i].row <= f.layout.rows)
  {
    ChartParts(priceData, ticker, buySellData, candlestick, emaPeriods, plotMacd, fastMacd, slowSignal, plotVolume);
    PricePanelTraces(priceData, ticker, buySellData, candlestick, emaPeriods);
    var f := Chart(priceData, ticker, buySellData, candlestick, emaPeriods, plotMacd, fastMacd, slowSignal, plotVolume).value;
    var panel := InRow(PricePanel(priceData, ticker, buySellData, candlestick, emaPeriods).value, 1);
    var macd := if plotMacd then MacdTraces(fastMacd.value, slowSignal.value) else [];
    var volume := VolumeTraces(priceData, plotMacd, plotVolume).value;
    assert f.traces == panel + macd + volume;
    forall i | 0 <= i < |f.traces|
      ensures 1 <= f.traces[i].row <= f.layout.rows
    {
      if i < |panel| {
        assert f.traces[i] == panel[i];
      } else if i < |panel| + |macd| {
        assert f.traces[i] == macd[i - |panel|];
      } else {
        assert f.traces[i] == volume[i - |panel| - |macd|];
      }
    }
  }


  /** With MACD, the three MACD traces come right after the price row. */
  lemma ChartMacdSlice(priceData: Table, ticker: string, buySellData: Option<seq<TradeRow>>,
                       candlestick: bool, emaPeriods: Option<seq<int>>,
                       fastMacd: Option<Series>, slowSignal: Option<Series>, plotVolume: bool)
    requires MacdAligned(true, fastMacd, slowSignal)
    requires Chart(priceData, ticker, buySellData, candlestick, emaPeriods, true, fastMacd, slowSignal, plotVolume).Ok?
    ensures fastMacd.Some? && slowSignal.Some?
    ensures var f := Chart(priceData, ticker, buySellData, candlestick, emaPeriods, true, fastMacd, slowSignal, plotVolume).value;
      var n := 1 + |SpansOf(emaPeriods)| + |MarkerTraces(buySellData)|;
      |f.traces| >= n + 3 && f.traces[n..n + 3] == MacdTraces(fastMacd.value, slowSignal.value)
  {
    ChartParts(priceData, ticker, buySellData, candlestick, emaPeriods, true, fastMacd, slowSignal, plotVolume);
    PricePanelTraces(priceData, ticker, buySellData, candlestick, emaPeriods);
    var f := Chart(priceData, ticker, buySellData, candlestick, emaPeriods, true, fastMacd, slowSignal, plotVolume).value;
    var panel := InRow(PricePanel(priceData, ticker, buySellData, candlestick, emaPeriods).value, 1);
    var macd := MacdTraces(fastMacd.value, slowSignal.value);
    assert f.traces == panel + macd + VolumeTraces(priceData, true, plotVolume).value;
  }

  /** With MACD, the fast line (dashed) and the signal line (dotted) go to
      row 2, and in row 3 a histogram equal to fast minus signal at every
      point. */
  lemma ChartMacdPanel(priceData: Table, ticker: string, buySellData: Option<seq<TradeRow>>,
                       candlestick: bool, emaPeriods: Option<seq<int>>,
                       fastMacd: Option<Series>, slowSignal: Option<Series>, plotVolume: bool)
    requires MacdAligned(true, fastMacd, slowSignal)
    requires Chart(priceData, ticker, buySellData, candlestick, emaPeriods, true, fastMacd, slowSignal, plotVolume).Ok?
    ensures fastMacd.Some? && slowSignal.Some?
    ensures var f := Chart(priceData, ticker, buySellData, candlestick, emaPeriods, true, fastMacd, slowSignal, plotVolume).value;
      var n := 1 + |SpansOf(emaPeriods)| + |MarkerTraces(buySellData)|;
      var fast, slow := fastMacd.value, slowSignal.value;
      && |f.traces| >= n + 3
      && f.traces[n] == Placed(Line("Fast MACD Line", fast, Dashed), 2)
      && f.traces[n + 1] == Placed(Line("Slow Signal Line", slow, Dotted), 2)
      && f.traces[n + 2].row == 3 && f.traces[n + 2].trace.Bar?
      && f.traces[n + 2].trace.name == "MACD Histogram"
      && |f.traces[n + 2].trace.y| == |fast|
      && forall i :: 0 <= i < |fast| ==> f.traces[n + 2].trace.y[i] == fast[i] - slow[i]
  {
    ChartMacdSlice(priceData, ticker, buySellData, candlestick, emaPeriods, fastMacd, slowSignal, plotVolume);
    var f := Chart(priceData, ticker, buySellData, candlestick, emaPeriods, true, fastMacd, slowSignal, plotVolume).value;
    var n := 1 + |SpansOf(emaPeriods)| + |MarkerTraces(buySellData)|;
    var macd := MacdTraces(fastMacd.value, slowSignal.value);
    assert f.traces[n] == macd[0] && f.traces[n + 1] == macd[1] && f.traces[n + 2] == macd[2];
  }

  /** With volume, the last trace is the Volume bar series of the price
      table, in the layout's last row, titled "Volume". */
  lemma ChartVolumeLast(priceData: Table, ticker: string, buySellData: Option<seq<TradeRow>>,
                        candlestick: bool, emaPeriods: Option<seq<int>>,
                        plotMacd: bool, fastMacd: Option<Series>, slowSignal: Option<Series>)
    requires MacdAligned(plotMacd, fastMacd, slowSignal)
    requires Chart(priceData, ticker, buySellData, candlestick, emaPeriods, plotMacd, fastMacd, slowSignal, true).Ok?
    ensures var f := Chart(priceData, ticker, buySellData, candlestick, emaPeriods, plotMacd, fastMacd, slowSignal, true).value;
      && "Volume" in priceData
      && |f.traces| >= 2
      && f.traces[|f.traces| - 1] == Placed(Bar("Volume", priceData["Volume"]), f.layout.rows)
      && f.layout.titles[f.layout.rows - 1] == "Volume"
  {
    ChartParts(priceData, ticker, buySellData, candlestick, emaPeriods, plotMacd, fastMacd, slowSignal, true);
  }
}
