# Trading analytics: indicators, trade preprocessing and chart composition

This project models the computational core of a small trading-analytics
toolkit, in Dafny, and proves properties of the model.

- **Technical indicators** (`TechnicalAnalysis`, over `Frames`). A
  `TechnicalIndicators` object holds a price table with a `Close` column.
  It computes the MACD fast line, the EMA of the closes over a short span
  minus the EMA over a long span, and stores it. It then computes the
  signal line, the EMA of the stored fast line. Asking for the signal
  line first is an error. The EMA is the `adjust=False` recurrence:
  y[0] = x[0] and y[t] = a·x[t] + (1−a)·y[t−1], with a = 2/(span+1).
- **Trade-history preprocessing** (`PreProcessing`). Every trade is
  labelled with its side: buy, sell or "Unknown action". This label is
  added to the caller's frame in place. Trades whose raw action is in the
  exclusion set are dropped. The rest are sorted by time into a new frame
  indexed 0..n−1.
- **Chart composition** (`Traces`, `Plotting`, `LegacyPlotting`). A chart
  is a list of trace records, not pixels.
  - The price panel is:
    - a candlestick, or a close-price line;
    - one dashed `EMA_{span}` overlay per span;
    - one marker trace per trade action that has rows, in the order
      Market buy, Market sell, Limit buy, Limit sell.
  - The multi-panel composer also does four things:
    - it picks a subplot layout from the MACD and volume flags;
    - it refuses MACD without both series;
    - it adds the MACD fast and signal lines in row 2 and their histogram
      in row 3;
    - it puts the volume bars in the last row.
  - The legacy composer draws only the price panel.

Python exceptions become the `Err` branch of `Wrappers.Result`: a
`ValueError` with the message the program raises, or pandas' `KeyError`
for a missing column. pandas' own error for an EWM span below 1 is
modelled as `Frames.SpanError`. Prices are `real` and times are `int`. A
price table is a map from column names to series. The type does not
force the columns to have equal lengths; the members that need it say so
in their contracts.

Where the intended behaviour and the code differ, the model follows the
code:
- The four-row layout's row heights add up to 0.98, not 1
  (`Plotting.RowHeightSums`). The two- and three-row layouts add up to 1.
- A single-row layout is given no row heights at all, rather than [1.0]
  (`Plotting.Subplots`).
- The "short" and "long" spans of the fast line are not ordered. Passing
  them swapped just negates the line (`TechnicalAnalysis.FastLineSwappedSpans`).
- The sort by time uses pandas' default sort, which is not stable. Tied
  trades are therefore not promised to keep their input order
  (`PreProcessing.SortByTime`).
- The EMA of an empty series is the empty series, not an error: neither
  pandas nor the code rejects it (`Frames.Ema`).

## Model

| member | source | states |
|---|---|---|
| Frames.Column | src/TechnicalAnalysis.py:37 | a column lookup returns the named column when it exists, and otherwise pandas' KeyError for exactly that name |
| Frames.Alpha | src/TechnicalAnalysis.py:37 | the smoothing factor of a span of at least 1 lies in (0, 1] |
| Frames.Ema | src/TechnicalAnalysis.py:37-38 | the EWM mean (adjust=False) has one value per input, and its first value is the first input |
| Frames.EmaRecurrence | src/TechnicalAnalysis.py:37-38 | every later EMA value is alpha times the input plus (1 − alpha) times the previous EMA value |
| Frames.EmaBounded | src/TechnicalAnalysis.py:45 | every EMA value stays within any bounds that all inputs respect, because it is a running weighted average |
| Frames.EmaOfConstant | src/TechnicalAnalysis.py:37-38 | the EMA of a flat series is that series, whatever the span |
| Frames.Sub | src/plotting.py:188 | the difference of two aligned series, point by point |
| TechnicalAnalysis.FastLine | src/TechnicalAnalysis.py:36-40 | the fast line has one value per close, and each is the short-span EMA minus the long-span EMA at that point |
| TechnicalAnalysis.FastLineStartsAtZero | src/TechnicalAnalysis.py:37-39 | the fast line of a non-empty price series starts at 0 |
| TechnicalAnalysis.FastLineSwappedSpans | src/TechnicalAnalysis.py:36-39 | swapping the two spans negates the fast line at every point |
| TechnicalAnalysis.FastLineOfFlatPrice | src/TechnicalAnalysis.py:37-39 | a flat price gives a fast line of zeros |
| TechnicalAnalysis.FastLineSample | tests/test_indicators.py:9-19 | on the test closes with spans 3 and 6 the fast line has 8 values and is not all zero: its second value is 3/7 |
| TechnicalAnalysis.TechnicalIndicators.constructor | src/TechnicalAnalysis.py:4-9 | a table with a Close column gives an object holding it, with no fast line and no signal line yet |
| TechnicalAnalysis.TechnicalIndicators.Create | src/TechnicalAnalysis.py:4-9 | construction fails with the "must contain a 'Close' column" ValueError exactly when Close is missing; otherwise the new object holds the table and no indicators |
| TechnicalAnalysis.TechnicalIndicators.CalculateMacdFastLine | src/TechnicalAnalysis.py:36-40 | default spans 12 and 26; returns the fast line of the Close column and stores it as `macd`; a span below 1 fails and stores nothing |
| TechnicalAnalysis.TechnicalIndicators.CalculateMacdEmaSlowSignal | src/TechnicalAnalysis.py:42-46 | default span 9; without a stored fast line it fails with the "MACD must be calculated" ValueError and stores nothing; otherwise it returns and stores the EMA of the fast line, which has one value per close; the fast line and the table are unchanged |
| TechnicalAnalysis.SignalAfterFastLine | tests/test_indicators.py:22-32 | fast line with spans 3 and 6, then signal with span 2, on an 8-close table: both succeed and have 8 values |
| TechnicalAnalysis.SignalBeforeFastLine | tests/test_indicators.py:43-50 | a new object asked for the signal line fails with the "MACD must be calculated" error and stores nothing |
| TechnicalAnalysis.CreateWithoutClose | tests/test_indicators.py:35-40 | a table with only an Open column is refused with the missing-Close ValueError |
| PreProcessing.ActionBinary | src/pre_processing.py:9-11 | Market buy and Limit buy are exactly the buys, Market sell and Limit sell exactly the sells, and every other label is "Unknown action" |
| PreProcessing.WithActionBinary | src/pre_processing.py:9-11 | the same rows in the same order, each carrying the side of its own action |
| PreProcessing.Exclude | src/pre_processing.py:14 | a row is kept exactly when it is an input row whose action is not excluded |
| PreProcessing.ExcludeCount | src/pre_processing.py:14 | every kept row is kept as often as it occurs in the input; excluded rows occur zero times |
| PreProcessing.ExcludeNothing | src/pre_processing.py:14 | excluding labels that no row carries leaves the rows unchanged |
| PreProcessing.Insert | src/pre_processing.py:16 | inserting into a time-sorted sequence keeps it sorted and adds exactly that one row |
| PreProcessing.SortByTime | src/pre_processing.py:16 | the result is sorted by time and is a permutation of the input |
| PreProcessing.SortedPermutationUnique | src/pre_processing.py:16 | with distinct times there is only one sorted permutation, so the sort's result is determined |
| PreProcessing.Range | src/pre_processing.py:16 | the fresh index is 0, 1, ..., n−1 |
| PreProcessing.PreprocessedRows | src/pre_processing.py:9-16 | a row is in the output exactly when it is a classified input row with a non-excluded action; it occurs as often as in the input and carries its own side |
| PreProcessing.PreprocessingRerun | src/pre_processing.py:4-16 | preprocessing the output again with the same exclusions keeps it sorted with the same rows; with distinct times it gives back the same sequence |
| PreProcessing.HistoryPreprocessing | src/pre_processing.py:4-16 | the caller's frame gains the side column with its rows and index otherwise unchanged; the new frame holds the non-excluded classified rows, sorted by time, as a permutation, indexed 0..n−1 |
| Traces.PriceTrace | src/plotting.py:107-123 | succeeds exactly when the needed price columns exist, otherwise a KeyError for a missing one; a candlestick "{ticker} Price" of Open/High/Low/Close exactly when asked for, else the "{ticker} Close Price" line |
| Traces.DecimalStringSpells | src/plotting.py:136 | the span's text in the overlay name is made of decimal digits, spells the span and has no leading zero |
| Traces.EmaNameSpellsSpan | src/plotting.py:136 | an overlay name is "EMA_" followed by the span in decimal |
| Traces.EmaNameInjective | src/plotting.py:136 | distinct spans give distinct overlay names |
| Traces.EmaTraces | src/plotting.py:127-138 | one dashed `EMA_{span}` line per span, in the order of the spans, each plotting that span's EMA of the closes |
| Traces.AppendEmaOverlays | src/plotting.py:127-138 | the overlay loop appends exactly the EMA traces of the spans to the traces so far, or fails with the span error if any span is below 1 |
| Traces.MarkerStyleMatchesSide | src/plotting.py:143-148 | the green up-triangle style is given exactly to the buy labels and the red down-triangle style exactly to the sell labels, matching the preprocessing side |
| Traces.Subset | src/plotting.py:150 | the subset of one action holds exactly the rows carrying that action |
| Traces.SubsetCount | src/plotting.py:150 | every row of the action is kept as often as it occurs, repeated trades included; rows of other actions occur zero times |
| Traces.SubsetEmpty | src/plotting.py:150-151 | an action's subset is empty exactly when no row carries that action |
| Traces.MarkerTrace | src/plotting.py:152-164 | the marker trace of an action is named after it, has its style (symbol and colour from the style table) and carries, row by row, the time, price, total and result of its subset |
| Traces.MarkerGroups | src/plotting.py:149-164 | the marker loop's reference: no more traces than actions |
| Traces.MarkerTraces | src/plotting.py:142-164 | the markers of the trade data number at most four, the size of the style table |
| Traces.MarkerGroupsContents | src/plotting.py:149-164 | no more traces than actions; each is the marker trace of one of the actions, whose subset is not empty |
| Traces.CarriedActionsMembers | src/plotting.py:149-151 | the reference list of actions with trades holds exactly the actions that some row carries |
| Traces.MarkerGroupsNames | src/plotting.py:149-164 | the marker traces are named, in order, by exactly the actions that some row carries |
| Traces.MarkerTracesNames | src/plotting.py:142-164 | one marker trace per style-table action that some trade carries, in the table's order, never two for the same action |
| Traces.MarkerTracesAreMarkers | src/plotting.py:152-156 | every marker trace is a scatter of markers |
| Traces.MarkerGroupsPresence | src/plotting.py:149-151 | an action gets a marker trace exactly when it is one of the actions and some row carries it |
| Traces.MarkerGroupsOrdered | src/plotting.py:149 | marker traces appear in the order of the action-style keys |
| Traces.MarkerTracesOnlyKnownActions | src/plotting.py:143-150 | rows whose action is none of the four labels appear in no marker trace |
| Traces.AppendMarkers | src/plotting.py:149-164 | the marker loop appends exactly the marker groups of the actions it is given, in order; both composers give it the four style-table actions |
| Traces.PricePanel | plotting.py:61-117 | the panel both composers build fails only with a KeyError for a missing column or the span error, and otherwise holds at least the price trace |
| Traces.PricePanelSucceeds | plotting.py:61-117 | the price panel is built exactly when the price columns exist and every span is at least 1; a missing column fails with a KeyError before any span is looked at |
| Traces.PricePanelTraces | plotting.py:61-117 | the panel is the price trace (candlestick exactly when asked for), then one EMA line per span in order, then the marker traces |
| Traces.PricePanelHasNoBars | plotting.py:61-117 | the price panel holds no bar trace and at most four marker traces |
| LegacyPlotting.PlotStockPrice | plotting.py:7-117 | the single-panel composer yields exactly the price panel, or its error |
| Plotting.Subplots | src/plotting.py:76-103 | 1, 2, 3 or 4 rows depending on the flags; the first title is "{ticker} Price", the MACD rows are titled "MACD" and "MACD Histogram", the volume row "Volume" and comes last; positive row heights are given for more than one row |
| Plotting.RowHeightSums | src/plotting.py:79-94 | the row heights are the layout table's values; they add up to 1 for two and three rows, and to 0.98 for four |
| Plotting.VolumeRow | src/plotting.py:76-98 | `volume_row` is set exactly when volume is asked for, and then it is the layout's last row |
| Plotting.VolumeTraces | src/plotting.py:198-209 | without volume, nothing; with volume, the Volume column as bars in the last row, or a KeyError when the column is missing |
| Plotting.AddPriceRow | src/plotting.py:106-164 | row 1 receives exactly the price panel, or the price panel's error |
| Plotting.AddMacdPanel | src/plotting.py:167-194 | appends the dashed fast line and dotted signal line in row 2 and the "MACD Histogram" bars of their difference in row 3 |
| Plotting.AddVolume | src/plotting.py:197-209 | appends exactly the volume bars, or fails with the missing Volume column's KeyError |
| Plotting.Chart | src/plotting.py:10-209 | the figure's only failures are the MACD-arguments ValueError, the span error, and a KeyError that names a column the price table lacks |
| Plotting.PlotStockPrice | src/plotting.py:10-209 | the multi-panel composer yields exactly the figure described by Chart, or its error |
| Plotting.ChartRequiresMacdSeries | src/plotting.py:72-74 | asking for MACD without the fast or the signal series fails with the "both fast_macd and slow_signal" ValueError, whatever else is passed |
| Plotting.ChartIgnoresMacdSeries | src/plotting.py:168 | without MACD the MACD series have no effect on the figure |
| Plotting.ChartSucceeds | src/plotting.py:72-209 | the figure is drawn exactly when the MACD series are there if needed, the price columns exist, every span is at least 1, and Volume exists if asked for |
| Plotting.ChartParts | src/plotting.py:76-209 | a drawn figure has the flags' layout and, in order, the price panel in row 1, the MACD traces if asked for, and the volume bars if asked for |
| Plotting.ChartTraceCount | src/plotting.py:106-209 | a drawn figure holds 1 + one per span + one per style-table action that some trade carries + 3 with MACD + 1 with volume traces |
| Plotting.ChartRows | src/plotting.py:106-164 | the price, EMA and marker traces all go to row 1, the first is a candlestick exactly when asked for, and every trace lies within the layout's rows |
| Plotting.ChartMacdPanel | src/plotting.py:168-194 | right after the price row come the fast line (row 2), the signal line (row 2) and a row-3 histogram equal to fast minus signal at every point |
| Plotting.ChartVolumeLast | src/plotting.py:198-209 | with volume, the last trace is the Volume column as bars in the layout's last row, titled "Volume" |

## Left out

- Rendering: `fig.show()`, `fig.update_layout` (titles, sizes, axis
  formats, the range slider) and `make_subplots`' shared axes and
  vertical spacing. These only affect the drawing.
- `logging.basicConfig` and the unused `yfinance` import. Both are
  side effects with no effect on the values produced.
- `calculate_resistance`: a stub that returns None. Nothing to model.
- Trace styling: colours of lines and bars, line widths, marker size,
  opacity and the hover templates. Only the dash style and the buy/sell
  marker symbol and colour are kept.
- The x coordinates of price-indexed traces (`price_data.index`,
  `ema_vals.index`, `fast_macd.index`): these traces are drawn against
  the table's own index. Only marker traces carry explicit times.
- `pd.to_datetime(..., format="ISO8601")`: times are modelled as
  already-parsed integers, so the reassignment of the Time column is the
  identity. A malformed timestamp's parse error is not modelled.
- Floating point and NaN: series are exact reals. pandas' EWM handling of
  missing values, and the NaN that index alignment produces, are not
  modelled.
- Missing columns in the trade table (Action, Time, Price / share,
  Total, Result) are not modelled: a trade row always has every field.
  Only missing price-table columns raise KeyError in the model.
- PreProcessing.SortByTime: states only that the result is sorted by
  time and is a permutation. pandas' default sort is not stable, so the
  order of trades with equal times is not promised.
- PreProcessing.HistoryPreprocessing: the output order is promised only
  up to ties in time, for the same reason. The frames are separate
  objects, so pandas' copy-on-write and view semantics are not modelled.
- Plotting.PlotStockPrice: requires the fast and signal series to have
  the same length. pandas would align them by index and fill NaN, which
  is not modelled.
- Plotting.Chart: the same equal-length requirement as PlotStockPrice.
- Plotting.AddMacdPanel: the same equal-length requirement as
  PlotStockPrice.
- TechnicalAnalysis.TechnicalIndicators: the stored table and series are
  values. Aliasing between the returned series and the stored `macd`
  attribute, and between the stored table and the caller's DataFrame,
  is not modelled.
