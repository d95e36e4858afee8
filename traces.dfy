/** The chart as data: the trace records both chart composers build, and
    the parts they share (the price trace, the EMA overlays, the
    trade-marker groups). Drawing them is left to the renderer. */
module Traces {
  import opened Wrappers
  import opened Frames
  import opened PreProcessing

  datatype Dash = Solid | Dashed | Dotted
  datatype Symbol = TriangleUp | TriangleDown
  datatype Color = Green | Red

  /** One trace, with the data it plots. Candlesticks and lines are drawn
      against the price table's own index. */
  datatype Trace =
    | Candlestick(name: string, open: Series, high: Series, low: Series, close: Series)
    | Line(name: string, y: Series, dash: Dash)
    | Markers(name: string, time: seq<int>, price: Series, symbol: Symbol, color: Color,
              total: Series, result: seq<Option<real>>)
    | Bar(name: string, y: Series)

  function Names(ts: seq<Trace>): (r: seq<string>)
    ensures |r| == |ts| && forall i :: 0 <= i < |ts| ==> r[i] == ts[i].name
  {
    seq(|ts|, i requires 0 <= i < |ts| => ts[i].name)
  }

  // ---------------------------------------------------------------- price

  /** The first trace: a candlestick of Open/High/Low/Close, or a line of
      the close price. A missing column raises pandas' KeyError. */
  function PriceTrace(priceData: Table, ticker: string, candlestick: bool): (r: Result<Trace>)
    ensures r.Ok? <==> "Close" in priceData && (candlestick ==> "Open" in priceData && "High" in priceData && "Low" in priceData)
    ensures r.Err? ==> r.error.KeyError? && r.error.key !in priceData
    ensures r.Ok? ==> (r.value.Candlestick? <==> candlestick) && (r.value.Line? <==> !candlestick)
    ensures r.Ok? && candlestick ==>
      r.value == Candlestick(ticker + " Price", priceData["Open"], priceData["High"], priceData["Low"], priceData["Close"])
    ensures r.Ok? && !candlestick ==> r.value == Line(ticker + " Close Price", priceData["Close"], Solid)
  {
    if candlestick then
      var open :- Column(priceData, "Open");
      var high :- Column(priceData, "High");
      var low :- Column(priceData, "Low");
      var close :- Column(priceData, "Close");
      Ok(Candlestick(ticker + " Price", open, high, low, close))
    else
      var close :- Column(priceData, "Close");
      Ok(Line(ticker + " Close Price", close, Solid))
  }

  // ---------------------------------------------------------------- EMA overlays

  function DigitChar(d: nat): (c: char)
    requires d < 10
    ensures '0' <= c <= '9' && c as int - '0' as int == d
  {
    ('0' as int + d) as char
  }

  predicate IsDigits(s: string) {
    forall i :: 0 <= i < |s| ==> '0' <= s[i] <= '9'
  }

  /** The number a string of decimal digits spells. */
  function DigitsValue(s: string): nat
    requires IsDigits(s)
  {
    if s == [] then 0
    else 10 * DigitsValue(s[..|s| - 1]) + (s[|s| - 1] as int - '0' as int)
  }

  /** `str(n)` for a natural number. */
  function DecimalString(n: nat): (s: string)
    ensures |s| >= 1
  {
    if n < 10 then [DigitChar(n)] else DecimalString(n / 10) + [DigitChar(n % 10)]
  }

  /** `str(n)` is n in decimal: digits only, spelling n, with no leading
      zero. */
  lemma {:induction false} DecimalStringSpells(n: nat)
    ensures var s := DecimalString(n);
      IsDigits(s) && DigitsValue(s) == n && (s[0] == '0' ==> n == 0)
    decreases n
  {
    if n >= 10 {
      DecimalStringSpells(n / 10);
      var init := DecimalString(n / 10);
      var s := init + [DigitChar(n % 10)];
      assert s[..|s| - 1] == init;
    }
  }

  /** `f'EMA_{span}'`. */
  function EmaName(span: nat): string {
    "EMA_" + DecimalString(span)
  }

  /** An overlay name is "EMA_" followed by the span in decimal, so
      distinct spans give distinct names. */
  lemma EmaNameSpellsSpan(span: nat)
    ensures var r := EmaName(span);
      |r| >= 5 && r[..4] == "EMA_" && IsDigits(r[4..]) && DigitsValue(r[4..]) == span
  {
    DecimalStringSpells(span);
    assert EmaName(span)[4..] == DecimalString(span);
  }

  lemma EmaNameInjective(a: nat, b: nat)
    requires EmaName(a) == EmaName(b)
    ensures a == b
  {
    EmaNameSpellsSpan(a);
    EmaNameSpellsSpan(b);
  }

  /** The dashed overlay for one span, named `EMA_{span}`. */
  function EmaTrace(close: Series, span: int): Trace
    requires span >= 1
  {
    Line(EmaName(span), Ema(close, span), Dashed)
  }

  predicate ValidSpans(spans: seq<int>) {
    forall i | 0 <= i < |spans| :: spans[i] >= 1
  }

  /** The spans of `ema_periods`; None adds no overlay. */
  function SpansOf(emaPeriods: Option<seq<int>>): seq<int> {
    if emaPeriods.Some? then emaPeriods.value else []
  }

  /** One overlay per span, in the order of the spans. */
  function EmaTraces(close: Series, spans: seq<int>): (r: seq<Trace>)
    requires ValidSpans(spans)
    ensures |r| == |spans|
    ensures forall k :: 0 <= k < |spans| ==> r[k] == EmaTrace(close, spans[k])
  {
    if spans == [] then []
    else EmaTraces(close, spans[..|spans| - 1]) + [EmaTrace(close, spans[|spans| - 1])]
  }

  /** One more span adds its overlay at the end. */
  lemma EmaTracesStep(close: Series, spans: seq<int>, i: int)
    requires 0 <= i < |spans| && ValidSpans(spans[..i]) && spans[i] >= 1
    ensures ValidSpans(spans[..i + 1])
    ensures EmaTraces(close, spans[..i + 1]) == EmaTraces(close, spans[..i]) + [EmaTrace(close, spans[i])]
  {
    assert spans[..i + 1] == spans[..i] + [spans[i]];
    assert spans[..i + 1][..i] == spans[..i];
  }

  /** A span below 1 anywhere makes the spans invalid. */
  lemma InvalidSpan(spans: seq<int>, i: int)
    requires 0 <= i < |spans| && spans[i] < 1
    ensures !ValidSpans(spans)
  {
  }

  // ---------------------------------------------------------------- trade markers

  /** The keys of `action_styles`, in their order. */
  const ActionOrder: seq<string> := ["Market buy", "Market sell", "Limit buy", "Limit sell"]

  function SymbolOf(action: string): Symbol {
    if action in BuyActions then TriangleUp else TriangleDown
  }

  function ColorOf(action: string): Color {
    if action in BuyActions then Green else Red
  }

  /** The marker style agrees with the side preprocessing assigns: buys
      are green up-triangles, sells red down-triangles. */
  lemma MarkerStyleMatchesSide(action: string)
    requires action in ActionOrder
    ensures SymbolOf(action) == TriangleUp && ColorOf(action) == Green <==> ActionBinary(action) == Buy
    ensures SymbolOf(action) == TriangleDown && ColorOf(action) == Red <==> ActionBinary(action) == Sell
  {
  }

  /** `rows[rows['Action'] == action]`: the rows of one action, in order. */
  function Subset(rows: seq<TradeRow>, action: string): (r: seq<TradeRow>)
    ensures |r| <= |rows|
    ensures forall x :: x in r <==> x in rows && x.action == action
  {
    if rows == [] then []
    else (if rows[0].action == action then [rows[0]] else []) + Subset(rows[1..], action)
  }

  /** The subset keeps every row of its action as often as it occurs, so
      repeated identical trades are all plotted. */
  lemma {:induction false} SubsetCount(rows: seq<TradeRow>, action: string, x: TradeRow)
    ensures multiset(Subset(rows, action))[x] == if x.action == action then multiset(rows)[x] else 0
  {
    if rows != [] {
      SubsetCount(rows[1..], action, x);
      assert rows == [rows[0]] + rows[1..];
    }
  }

  /** The marker trace of one action's rows: their times and prices, the
      style of the action, and each row's Total and Result. */
  function MarkerTrace(action: string, subset: seq<TradeRow>): (t: Trace)
    ensures t.Markers? && t.name == action
    ensures t.symbol == SymbolOf(action) && t.color == ColorOf(action)
    ensures |t.time| == |t.price| == |t.total| == |t.result| == |subset|
    ensures forall i :: 0 <= i < |subset| ==>
      && t.time[i] == subset[i].time && t.price[i] == subset[i].price
      && t.total[i] == subset[i].total && t.result[i] == subset[i].result
  {
    Markers(action,
            seq(|subset|, i requires 0 <= i < |subset| => subset[i].time),
            seq(|subset|, i requires 0 <= i < |subset| => subset[i].price),
            SymbolOf(action), ColorOf(action),
            seq(|subset|, i requires 0 <= i < |subset| => subset[i].total),
            seq(|subset|, i requires 0 <= i < |subset| => subset[i].result))
  }

  /** The marker group of one action: none for an empty subset. */
  function MarkerGroup(rows: seq<TradeRow>, action: string): seq<Trace> {
    var subset := Subset(rows, action);
    if subset == [] then [] else [MarkerTrace(action, subset)]
  }

  /** The marker groups of `actions`, taken in order: at most one per
      action, each a marker trace named after one of the actions. */
  function MarkerGroups(rows: seq<TradeRow>, actions: seq<string>): (r: seq<Trace>)
    ensures |r| <= |actions|
  {
    if actions == [] then []
    else MarkerGroups(rows, actions[..|actions| - 1]) + MarkerGroup(rows, actions[|actions| - 1])
  }

  /** The markers of `buy_sell_data`, if there is any: at most four marker
      traces, each named after one of the four action labels. */
  function MarkerTraces(buySellData: Option<seq<TradeRow>>): (r: seq<Trace>)
    ensures |r| <= |ActionOrder|
  {
    if buySellData.Some? then MarkerGroups(buySellData.value, ActionOrder) else []
  }

  predicate HasAction(rows: seq<TradeRow>, a: string) {
    exists i :: 0 <= i < |rows| && rows[i].action == a
  }

  /** The actions of `actions`, in their order, that some row carries: the
      reference for which marker traces are drawn. */
  function CarriedActions(rows: seq<TradeRow>, actions: seq<string>): (r: seq<string>)
    ensures |r| <= |actions|
  {
    if actions == [] then []
    else
      var last := actions[|actions| - 1];
      CarriedActions(rows, actions[..|actions| - 1]) + (if HasAction(rows, last) then [last] else [])
  }

  /** The carried actions are exactly those of `actions` that some row
      carries. */
  lemma {:induction false} CarriedActionsMembers(rows: seq<TradeRow>, actions: seq<string>, a: string)
    ensures a in CarriedActions(rows, actions) <==> a in actions && HasAction(rows, a)
  {
    if actions != [] {
      var init, last := actions[..|actions| - 1], actions[|actions| - 1];
      CarriedActionsMembers(rows, init, a);
      assert actions == init + [last];
    }
  }

  /** The actions of `buy_sell_data` that get a marker trace. */
  function ActionsWithTrades(buySellData: Option<seq<TradeRow>>): seq<string> {
    if buySellData.Some? then CarriedActions(buySellData.value, ActionOrder) else []
  }

  predicate Distinct(s: seq<string>) {
    forall i, j | 0 <= i < j < |s| :: s[i] != s[j]
  }

  /** Where `a` stands in `s` (its last occurrence). */
  function Position(s: seq<string>, a: string): (p: nat)
    requires a in s
    ensures p < |s| && s[p] == a
  {
    if s[|s| - 1] == a then |s| - 1 else Position(s[..|s| - 1], a)
  }

  /** Each marker group is the marker trace of one of `actions` whose
      subset is not empty. */
  lemma {:induction false} MarkerGroupsContents(rows: seq<TradeRow>, actions: seq<string>)
    ensures var m := MarkerGroups(rows, actions);
      && |m| <= |actions|
      && forall i :: 0 <= i < |m| ==>
           m[i].name in actions && Subset(rows, m[i].name) != [] &&
           m[i] == MarkerTrace(m[i].name, Subset(rows, m[i].name))
  {
    if actions != [] {
      var init := actions[..|actions| - 1];
      MarkerGroupsContents(rows, init);
      assert forall a :: a in init ==> a in actions;
    }
  }

  /** One action's subset is empty exactly when no row carries it. */
  lemma SubsetEmpty(rows: seq<TradeRow>, a: string)
    ensures Subset(rows, a) != [] <==> HasAction(rows, a)
  {
    if HasAction(rows, a) {
      var i :| 0 <= i < |rows| && rows[i].action == a;
      assert rows[i] in rows;
      assert rows[i] in Subset(rows, a);
    }
  }

  /** The marker traces are named, in order, by exactly the actions that
      some row carries. */
  lemma {:induction false} MarkerGroupsNames(rows: seq<TradeRow>, actions: seq<string>)
    ensures Names(MarkerGroups(rows, actions)) == CarriedActions(rows, actions)
  {
    if actions != [] {
      var init, last := actions[..|actions| - 1], actions[|actions| - 1];
      MarkerGroupsNames(rows, init);
      SubsetEmpty(rows, last);
      var prev, g := MarkerGroups(rows, init), MarkerGroup(rows, last);
      assert MarkerGroups(rows, actions) == prev + g;
      assert Names(prev + g) == Names(prev) + Names(g);
      assert Names(g) == if HasAction(rows, last) then [last] else [];
    }
  }

  /** One marker trace per action that has trades, in the order of the
      action-style keys, and never two for the same action. */
  lemma MarkerTracesNames(buySellData: Option<seq<TradeRow>>)
    ensures Names(MarkerTraces(buySellData)) == ActionsWithTrades(buySellData)
    ensures |MarkerTraces(buySellData)| == |ActionsWithTrades(buySellData)|
    ensures Distinct(Names(MarkerTraces(buySellData)))
  {
    if buySellData.Some? {
      var rows := buySellData.value;
      MarkerGroupsNames(rows, ActionOrder);
      MarkerGroupsContents(rows, ActionOrder);
      MarkerGroupsOrdered(rows, ActionOrder);
      var m := MarkerTraces(buySellData);
      forall i, j | 0 <= i < j < |m|
        ensures Names(m)[i] != Names(m)[j]
      {
        assert Position(ActionOrder, m[i].name) < Position(ActionOrder, m[j].name);
      }
    }
  }

  /** An action has a marker group exactly when it is one of `actions`
      and some row carries it. */
  lemma MarkerGroupsPresence(rows: seq<TradeRow>, actions: seq<string>, a: string)
    ensures a in Names(MarkerGroups(rows, actions)) <==> a in actions && HasAction(rows, a)
  {
    MarkerGroupsNames(rows, actions);
    CarriedActionsMembers(rows, actions, a);
  }

  /** The marker groups follow the order of `actions`. */
  lemma {:induction false} MarkerGroupsOrdered(rows: seq<TradeRow>, actions: seq<string>)
    requires Distinct(actions)
    ensures var m := MarkerGroups(rows, actions);
      forall i, j :: 0 <= i < j < |m| ==>
        m[i].name in actions && m[j].name in actions &&
        Position(actions, m[i].name) < Position(actions, m[j].name)
  {
    MarkerGroupsContents(rows, actions);
    if actions != [] {
      var init, last := actions[..|actions| - 1], actions[|actions| - 1];
      assert Distinct(init);
      MarkerGroupsOrdered(rows, init);
      MarkerGroupsContents(rows, init);
      var prev, g := MarkerGroups(rows, init), MarkerGroup(rows, last);
      var m := prev + g;
      assert last !in init;
      forall i, j | 0 <= i < j < |m|
        ensures Position(actions, m[i].name) < Position(actions, m[j].name)
      {
        assert m[i] == prev[i];
        assert Position(actions, m[i].name) == Position(init, m[i].name);
        if j >= |prev| {
          assert m[j].name == last;
        } else {
          assert m[j] == prev[j];
        }
      }
    }
  }

  /** Every marker trace holds only rows of its own action: rows whose
      action is none of the four labels are plotted nowhere. */
  lemma MarkerTracesOnlyKnownActions(rows: seq<TradeRow>, x: TradeRow)
    requires x in rows && x.action !in ActionOrder
    ensures forall i :: 0 <= i < |MarkerTraces(Some(rows))| ==>
      x !in Subset(rows, MarkerTraces(Some(rows))[i].name)
  {
    MarkerGroupsContents(rows, ActionOrder);
  }

  // ---------------------------------------------------------------- the two loops

  /** The `for span in ema_periods` loop: appends one overlay per span, in
      order; a span below 1 stops it with pandas' error. */
  method AppendEmaOverlays(traces: seq<Trace>, close: Series, spans: seq<int>) returns (r: Result<seq<Trace>>)
    ensures ValidSpans(spans) ==> r == Ok(traces + EmaTraces(close, spans))
    ensures !ValidSpans(spans) ==> r == Err(SpanError)
  {
    var acc := traces;
    for i := 0 to |spans|
      invariant ValidSpans(spans[..i])
      invariant acc == traces + EmaTraces(close, spans[..i])
    {
      if spans[i] < 1 {
        InvalidSpan(spans, i);
        return Err(SpanError);
      }
      EmaTracesStep(close, spans, i);
      acc := acc + [EmaTrace(close, spans[i])];
    }
    assert spans[..|spans|] == spans;
    r := Ok(acc);
  }

  /** One more action adds its marker group at the end. */
  lemma MarkerGroupsStep(rows: seq<TradeRow>, actions: seq<string>, j: int)
    requires 0 <= j < |actions|
    ensures MarkerGroups(rows, actions[..j + 1]) == MarkerGroups(rows, actions[..j]) + MarkerGroup(rows, actions[j])
  {
    assert actions[..j + 1][..j] == actions[..j];
    assert actions[..j + 1][j] == actions[j];
  }

  /** The `for action, style in action_styles.items()` loop: appends the
      marker trace of every action, in order, whose subset has rows. */
  method AppendMarkers(traces: seq<Trace>, rows: seq<TradeRow>, actions: seq<string>) returns (r: seq<Trace>)
    ensures r == traces + MarkerGroups(rows, actions)
  {
    r := traces;
    for j := 0 to |actions|
      invariant r == traces + MarkerGroups(rows, actions[..j])
    {
      MarkerGroupsStep(rows, actions, j);
      var action := actions[j];
      var subset := Subset(rows, action);
      if subset != [] {
        r := r + [MarkerTrace(action, subset)];
      }
    }
    assert actions[..|actions|] == actions;
  }

  // ---------------------------------------------------------------- the price panel

  /** The price panel both composers build: the price trace, one EMA
      overlay per span and the trade markers; or the error raised on the
      way: a missing price column, or an EMA span below 1. */
  function PricePanel(priceData: Table, ticker: string, buySellData: Option<seq<TradeRow>>,
                      candlestick: bool, emaPeriods: Option<seq<int>>): (r: Result<seq<Trace>>)
    ensures r.Err? ==> r.error == SpanError || (r.error.KeyError? && r.error.key !in priceData)
    ensures r.Ok? ==> |r.value| >= 1
  {
    var price :- PriceTrace(priceData, ticker, candlestick);
    var spans := SpansOf(emaPeriods);
    if !ValidSpans(spans) then Err(SpanError)
    else Ok([price] + EmaTraces(priceData["Close"], spans) + MarkerTraces(buySellData))
  }

  /** When the panel can be built: the price columns exist and every EMA
      span is at least 1. Otherwise it fails, with the KeyError of a
      missing column before any span is looked at. */
  lemma PricePanelSucceeds(priceData: Table, ticker: string, buySellData: Option<seq<TradeRow>>,
                      candlestick: bool, emaPeriods: Option<seq<int>>)
    ensures var r := PricePanel(priceData, ticker, buySellData, candlestick, emaPeriods);
      && (r.Ok? <==> PriceTrace(priceData, ticker, candlestick).Ok? && ValidSpans(SpansOf(emaPeriods)))
      && (PriceTrace(priceData, ticker, candlestick).Err? ==> r.Err? && r.error.KeyError?)
      && (PriceTrace(priceData, ticker, candlestick).Ok? && !ValidSpans(SpansOf(emaPeriods)) ==> r == Err(SpanError))
  {
  }

  /** A built panel unfolded: the price trace exists, every span is valid,
      and the panel is the price trace, the overlays and the markers. */
  lemma PricePanelParts(priceData: Table, ticker: string, buySellData: Option<seq<TradeRow>>,
                        candlestick: bool, emaPeriods: Option<seq<int>>)
    requires PricePanel(priceData, ticker, buySellData, candlestick, emaPeriods).Ok?
    ensures PriceTrace(priceData, ticker, candlestick).Ok? && "Close" in priceData
    ensures ValidSpans(SpansOf(emaPeriods))
    ensures PricePanel(priceData, ticker, buySellData, candlestick, emaPeriods).value
      == [PriceTrace(priceData, ticker, candlestick).value]
         + EmaTraces(priceData["Close"], SpansOf(emaPeriods)) + MarkerTraces(buySellData)
  {
  }

  /** The traces of a built panel: the price trace (a candlestick exactly
      when asked for), one dashed `EMA_{span}` line per span in the given
      order, then the marker traces. */
  lemma PricePanelTraces(priceData: Table, ticker: string, buySellData: Option<seq<TradeRow>>,
                    candlestick: bool, emaPeriods: Option<seq<int>>)
    requires PricePanel(priceData, ticker, buySellData, candlestick, emaPeriods).Ok?
    ensures var ts := PricePanel(priceData, ticker, buySellData, candlestick, emaPeriods).value;
      var spans := SpansOf(emaPeriods);
      && "Close" in priceData
      && |ts| == 1 + |spans| + |MarkerTraces(buySellData)|
      && (ts[0].Candlestick? <==> candlestick) && (ts[0].Line? <==> !candlestick)
      && (forall k :: 0 <= k < |spans| ==>
            ts[1 + k] == Line(EmaName(spans[k]), Ema(priceData["Close"], spans[k]), Dashed))
      && ts[1 + |spans|..] == MarkerTraces(buySellData)
  {
    PricePanelParts(priceData, ticker, buySellData, candlestick, emaPeriods);
    var spans := SpansOf(emaPeriods);
    var price := PriceTrace(priceData, ticker, candlestick).value;
    var overlays := EmaTraces(priceData["Close"], spans);
    var markers := MarkerTraces(buySellData);
    var ts := PricePanel(priceData, ticker, buySellData, candlestick, emaPeriods).value;
    assert ts == [price] + overlays + markers;
    assert ts[0] == price;
    assert forall k :: 0 <= k < |spans| ==> ts[1 + k] == overlays[k];
    assert ts[1 + |spans|..] == markers;
  }

  /** Every marker trace is a scatter of markers. */
  lemma MarkerTracesAreMarkers(buySellData: Option<seq<TradeRow>>)
    ensures forall i :: 0 <= i < |MarkerTraces(buySellData)| ==> MarkerTraces(buySellData)[i].Markers?
  {
    if buySellData.Some? {
      MarkerGroupsContents(buySellData.value, ActionOrder);
    }
  }

  /** The price panel has no MACD and no volume: none of its traces
      is a bar, and there are at most four marker traces. */
  lemma PricePanelHasNoBars(priceData: Table, ticker: string, buySellData: Option<seq<TradeRow>>,
                       candlestick: bool, emaPeriods: Option<seq<int>>)
    requires PricePanel(priceData, ticker, buySellData, candlestick, emaPeriods).Ok?
    ensures var ts := PricePanel(priceData, ticker, buySellData, candlestick, emaPeriods).value;
      && |MarkerTraces(buySellData)| <= 4
      && forall i :: 0 <= i < |ts| ==> !ts[i].Bar?
  {
    var spans := SpansOf(emaPeriods);
    var markers := MarkerTraces(buySellData);
    var ts := PricePanel(priceData, ticker, buySellData, candlestick, emaPeriods).value;
    PricePanelTraces(priceData, ticker, buySellData, candlestick, emaPeriods);
    MarkerTracesAreMarkers(buySellData);
    forall i | 0 <= i < |ts|
      ensures !ts[i].Bar?
    {
      if i > |spans| {
        assert ts[i] == markers[i - 1 - |spans|];
      }
    }
  }


}
