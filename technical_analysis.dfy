/** The indicator engine: the MACD fast line and its signal line, held by a
    small stateful object that must compute the fast line before the
    signal line. */
module TechnicalAnalysis {
  import opened Wrappers
  import opened Frames

  const MissingClose := ValueError("price_data must contain a 'Close' column")
  const SignalBeforeMacd := ValueError("MACD must be calculated before the signal line.")

  /** `EMA(close, short_span) - EMA(close, long_span)`. Neither span is
      required to be the smaller one. */
  function FastLine(close: Series, shortSpan: int, longSpan: int): (r: Series)
    requires shortSpan >= 1 && longSpan >= 1
    ensures |r| == |close|
    ensures forall i :: 0 <= i < |r| ==> r[i] == Ema(close, shortSpan)[i] - Ema(close, longSpan)[i]
  {
    Sub(Ema(close, shortSpan), Ema(close, longSpan))
  }

  /** Both averages start at the first close, so the fast line starts at 0. */
  lemma FastLineStartsAtZero(close: Series, shortSpan: int, longSpan: int)
    requires shortSpan >= 1 && longSpan >= 1
    requires close != []
    ensures FastLine(close, shortSpan, longSpan)[0] == 0.0
  {
  }

  /** Swapping the spans negates the fast line: no order between them is
      enforced, and a "reversed" pair just flips the sign. */
  lemma FastLineSwappedSpans(close: Series, shortSpan: int, longSpan: int)
    requires shortSpan >= 1 && longSpan >= 1
    ensures forall i :: 0 <= i < |close| ==>
      FastLine(close, longSpan, shortSpan)[i] == -FastLine(close, shortSpan, longSpan)[i]
  {
  }

  /** A flat price has a fast line of zeros, for any pair of spans. */
  lemma FastLineOfFlatPrice(close: Series, shortSpan: int, longSpan: int, c: real)
    requires shortSpan >= 1 && longSpan >= 1
    requires forall i :: 0 <= i < |close| ==> close[i] == c
    ensures forall i :: 0 <= i < |close| ==> FastLine(close, shortSpan, longSpan)[i] == 0.0
  {
    EmaOfConstant(close, shortSpan, c);
    EmaOfConstant(close, longSpan, c);
  }

  /** The closes used by the indicator tests, with spans 3 and 6: eight
      values, and the second one is 101 - 704/7 = 3/7, not zero. */
  lemma FastLineSample()
    ensures var r := FastLine([100.0, 102.0, 101.0, 105.0, 107.0, 106.0, 108.0, 110.0], 3, 6);
      |r| == 8 && r[1] == 3.0 / 7.0
  {
    var close := [100.0, 102.0, 101.0, 105.0, 107.0, 106.0, 108.0, 110.0];
    EmaRecurrence(close, 3, 1);
    EmaRecurrence(close, 6, 1);
    assert Alpha(3) == 0.5;
    assert Alpha(6) == 2.0 / 7.0;
  }

  /** A price table with its two computed indicators. `macd` and
      `macdSignal` are absent until computed; the object's invariant is
      that the table has a Close column and every computed indicator is
      aligned with it. */
  class TechnicalIndicators {
    var priceData: Table
    var macd: Option<Series>
    var macdSignal: Option<Series>

    ghost predicate Valid()
      reads this
    {
      && "Close" in priceData
      && (macd.Some? ==> |macd.value| == |priceData["Close"]|)
      && (macdSignal.Some? ==> |macdSignal.value| == |priceData["Close"]|)
    }

    /** The successful branch of construction: Create runs the Close check. */
    constructor (priceData: Table)
      requires "Close" in priceData
      ensures Valid()
      ensures this.priceData == priceData && macd == None && macdSignal == None
    {
      this.priceData := priceData;
      macd := None;
      macdSignal := None;
    }

    /** Construction, with its one error: a table with no Close column. */
    static method Create(priceData: Table) returns (r: Result<TechnicalIndicators>)
      ensures r.Err? <==> "Close" !in priceData
      ensures r.Err? ==> r.error == MissingClose
      ensures r.Ok? ==> fresh(r.value) && r.value.Valid() && r.value.priceData == priceData
      ensures r.Ok? ==> r.value.macd == None && r.value.macdSignal == None
    {
      if "Close" !in priceData {
        return Err(MissingClose);
      }
      var ti := new TechnicalIndicators(priceData);
      r := Ok(ti);
    }

    /** Computes the fast line of the Close column and stores it in `macd`,
        replacing any earlier one. A span below 1 fails in pandas before
        anything is stored. */
    method CalculateMacdFastLine(shortSpan: int := 12, longSpan: int := 26) returns (r: Result<Series>)
      requires Valid()
      modifies this`macd
      ensures Valid()
      ensures shortSpan < 1 || longSpan < 1 ==> r == Err(SpanError) && macd == old(macd)
      ensures shortSpan >= 1 && longSpan >= 1 ==>
        && r == Ok(FastLine(priceData["Close"], shortSpan, longSpan))
        && macd == Some(r.value)
    {
      var close := priceData["Close"];
      if shortSpan < 1 || longSpan < 1 {
        return Err(SpanError);
      }
      var line := Sub(Ema(close, shortSpan), Ema(close, longSpan));
      macd := Some(line);
      r := Ok(line);
    }

    /** Computes the signal line, the EMA of the stored fast line, and
        stores it in `macdSignal`. Without a fast line it fails and
        stores nothing. The fast line and the table are left as they were. */
    method CalculateMacdEmaSlowSignal(signalSpan: int := 9) returns (r: Result<Series>)
      requires Valid()
      modifies this`macdSignal
      ensures Valid()
      ensures macd == old(macd) && priceData == old(priceData)
      ensures macd == None ==> r == Err(SignalBeforeMacd) && macdSignal == old(macdSignal)
      ensures macd != None && signalSpan < 1 ==> r == Err(SpanError) && macdSignal == old(macdSignal)
      ensures macd != None && signalSpan >= 1 ==>
        && r == Ok(Ema(macd.value, signalSpan))
        && |r.value| == |priceData["Close"]|
        && macdSignal == Some(r.value)
    {
      if macd == None {
        return Err(SignalBeforeMacd);
      }
      if signalSpan < 1 {
        return Err(SpanError);
      }
      var signal := Ema(macd.value, signalSpan);
      macdSignal := Some(signal);
      r := Ok(signal);
    }
  }

  /** The closes the indicator tests use. */
  const SampleClose: Series := [100.0, 102.0, 101.0, 105.0, 107.0, 106.0, 108.0, 110.0]

  /** The indicator tests as a client: the fast line with spans 3 and 6,
      then the signal line with span 2, both as long as the closes. */
  method SignalAfterFastLine() returns (fast: Result<Series>, signal: Result<Series>)
    ensures fast.Ok? && fast.value == FastLine(SampleClose, 3, 6) && |fast.value| == 8
    ensures signal.Ok? && signal.value == Ema(fast.value, 2) && |signal.value| == 8
  {
    var data := map["Close" := SampleClose];
    assert "Close" in data && data["Close"] == SampleClose;
    var ti := new TechnicalIndicators(data);
    fast := ti.CalculateMacdFastLine(3, 6);
    signal := ti.CalculateMacdEmaSlowSignal(2);
  }

  /** Asking a new object for the signal line fails and stores nothing. */
  method SignalBeforeFastLine() returns (early: Result<Series>, stored: Option<Series>)
    ensures early == Err(SignalBeforeMacd) && stored == None
  {
    var data := map["Close" := SampleClose];
    assert "Close" in data;
    var ti := new TechnicalIndicators(data);
    early := ti.CalculateMacdEmaSlowSignal();
    stored := ti.macdSignal;
  }

  /** A table with no Close column is refused. */
  method CreateWithoutClose() returns (refused: Result<TechnicalIndicators>)
    ensures refused == Err(MissingClose)
  {
    var noClose := map["Open" := [100.0, 102.0]];
    assert "Close" !in noClose;
    refused := TechnicalIndicators.Create(noClose);
  }
}
