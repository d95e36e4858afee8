/** Trade-history preprocessing: label every trade with its side, drop the
    trades whose action the caller excludes, and order the rest by time
    under a fresh 0..n-1 index. */
module PreProcessing {
  import opened Wrappers

  /** The `action_binary` classes and their labels. */
  datatype Side = Buy | Sell | UnknownAction {
    function Label(): string {
      match this
      case Buy => "buy"
      case Sell => "sell"
      case UnknownAction => "Unknown action"
    }
  }

  /** One trade: its (already parsed) time, raw action label, price per
      share, total value, realised result (may be missing) and the
      `action_binary` column, absent until preprocessing adds it. */
  datatype TradeRow = TradeRow(
    time: int,
    action: string,
    price: real,
    total: real,
    result: Option<real>,
    actionBinary: Option<Side>)

  const BuyActions: set<string> := {"Market buy", "Limit buy"}
  const SellActions: set<string> := {"Market sell", "Limit sell"}

  /** The nested `np.where`: the two buy labels are buys, the two sell
      labels are sells, and any other label, however unusual, is
      classified as unknown rather than rejected. */
  function ActionBinary(action: string): (r: Side)
    ensures r == Buy <==> action == "Market buy" || action == "Limit buy"
    ensures r == Sell <==> action == "Market sell" || action == "Limit sell"
    ensures r.Label() == "Unknown action" <==> action !in BuyActions + SellActions
  {
    if action in BuyActions then Buy
    else if action in SellActions then Sell
    else UnknownAction
  }

  /** The frame after `df['action_binary'] = ...`: the same rows in the same
      order, each now carrying the class of its own action. */
  function WithActionBinary(rows: seq<TradeRow>): (r: seq<TradeRow>)
    ensures |r| == |rows|
    ensures forall i :: 0 <= i < |r| ==>
      r[i] == rows[i].(actionBinary := Some(ActionBinary(rows[i].action)))
  {
    seq(|rows|, i requires 0 <= i < |rows| => rows[i].(actionBinary := Some(ActionBinary(rows[i].action))))
  }

  /** `df[~df['Action'].isin(remove)]`: the rows, in order, whose raw action
      is not excluded. */
  function Exclude(rows: seq<TradeRow>, remove: set<string>): (r: seq<TradeRow>)
    ensures forall x :: x in r <==> x in rows && x.action !in remove
  {
    if rows == [] then []
    else (if rows[0].action in remove then [] else [rows[0]]) + Exclude(rows[1..], remove)
  }

  /** Exclusion keeps every kept row exactly as often as it occurs. */
  lemma {:induction false} ExcludeCount(rows: seq<TradeRow>, remove: set<string>, x: TradeRow)
    ensures multiset(Exclude(rows, remove))[x] == if x.action in remove then 0 else multiset(rows)[x]
  {
    if rows != [] {
      ExcludeCount(rows[1..], remove, x);
      assert rows == [rows[0]] + rows[1..];
    }
  }

  /** Excluding labels no row carries changes nothing. */
  lemma {:induction false} ExcludeNothing(rows: seq<TradeRow>, remove: set<string>)
    requires forall x :: x in rows ==> x.action !in remove
    ensures Exclude(rows, remove) == rows
  {
    if rows != [] {
      ExcludeNothing(rows[1..], remove);
      assert rows == [rows[0]] + rows[1..];
    }
  }

  ghost predicate SortedByTime(rows: seq<TradeRow>) {
    forall i, j :: 0 <= i < j < |rows| ==> rows[i].time <= rows[j].time
  }

  ghost predicate DistinctTimes(rows: seq<TradeRow>) {
    forall i, j :: 0 <= i < j < |rows| ==> rows[i].time != rows[j].time
  }

  function Insert(x: TradeRow, s: seq<TradeRow>): (r: seq<TradeRow>)
    requires SortedByTime(s)
    ensures forall y :: y in r <==> y == x || y in s
    ensures SortedByTime(r)
    ensures multiset(r) == multiset(s) + multiset{x}
  {
    if s == [] || x.time <= s[0].time then [x] + s
    else
      var rest := Insert(x, s[1..]);
      assert forall j :: 0 <= j < |rest| ==> rest[j] in rest;
      assert forall j :: 0 <= j < |rest| ==> s[0].time <= rest[j].time;
      assert multiset(s) == multiset{s[0]} + multiset(s[1..]) by {
        assert s == [s[0]] + s[1..];
      }
      [s[0]] + rest
  }

  /** A stand-in for `sort_values('Time')`: a sort by time. Only sortedness
      and the permutation are promised, not where tied rows end up. */
  function SortByTime(s: seq<TradeRow>): (r: seq<TradeRow>)
    ensures SortedByTime(r)
    ensures multiset(r) == multiset(s)
  {
    if s == [] then []
    else
      assert s == [s[0]] + s[1..];
      Insert(s[0], SortByTime(s[1..]))
  }

  lemma SortedHead(s: seq<TradeRow>, y: TradeRow)
    requires SortedByTime(s) && y in s
    ensures s[0].time <= y.time
  {
    var j :| 0 <= j < |s| && s[j] == y;
    if j > 0 {
      assert s[0].time <= s[j].time;
    }
  }

  lemma TailOrdered(s: seq<TradeRow>)
    requires s != []
    ensures SortedByTime(s) ==> SortedByTime(s[1..])
    ensures DistinctTimes(s) ==> DistinctTimes(s[1..])
  {
    assert forall i :: 0 <= i < |s| - 1 ==> s[1..][i] == s[i + 1];
  }

  lemma SameHead(a: seq<TradeRow>, b: seq<TradeRow>)
    requires SortedByTime(a) && SortedByTime(b) && DistinctTimes(a)
    requires multiset(a) == multiset(b) && a != [] && b != []
    ensures a[0] == b[0]
  {
    assert a[0] in multiset(b) && b[0] in multiset(a);
    SortedHead(b, a[0]);
    SortedHead(a, b[0]);
    var k :| 0 <= k < |a| && a[k] == b[0];
    assert k == 0;
  }

  /** A sorted permutation of a sorted sequence with distinct times is that
      sequence: with distinct times, sorting by time has one answer. */
  lemma {:induction false} SortedPermutationUnique(a: seq<TradeRow>, b: seq<TradeRow>)
    requires SortedByTime(a) && SortedByTime(b) && DistinctTimes(a)
    requires multiset(a) == multiset(b)
    ensures a == b
    decreases |a|
  {
    assert |a| == |multiset(a)| == |multiset(b)| == |b|;
    if a != [] {
      SameHead(a, b);
      assert multiset(a[1..]) == multiset(b[1..]) by {
        assert a == [a[0]] + a[1..] && b == [b[0]] + b[1..];
        assert multiset(a) == multiset{a[0]} + multiset(a[1..]);
        assert multiset(b) == multiset{b[0]} + multiset(b[1..]);
        assert multiset(a[1..]) == multiset(a) - multiset{a[0]};
        assert multiset(b[1..]) == multiset(b) - multiset{b[0]};
      }
      TailOrdered(a);
      TailOrdered(b);
      SortedPermutationUnique(a[1..], b[1..]);
      assert a == [a[0]] + a[1..] && b == [b[0]] + b[1..];
    }
  }

  /** What `history_preprocessing` returns for `rows`: the classified rows
      whose action is not excluded, in some order sorted by time. */
  ghost predicate IsPreprocessed(rows: seq<TradeRow>, remove: set<string>, out: seq<TradeRow>) {
    SortedByTime(out) && multiset(out) == multiset(Exclude(WithActionBinary(rows), remove))
  }

  /** The rows of a preprocessed frame: exactly the classified input rows
      whose raw action is not excluded, each as often as in the input, and
      none of them carries an excluded action. */
  lemma PreprocessedRows(rows: seq<TradeRow>, remove: set<string>, out: seq<TradeRow>, x: TradeRow)
    requires IsPreprocessed(rows, remove, out)
    ensures x in out <==> x in WithActionBinary(rows) && x.action !in remove
    ensures x in out ==> x.action !in remove && x.actionBinary == Some(ActionBinary(x.action))
    ensures multiset(out)[x] == if x.action in remove then 0 else multiset(WithActionBinary(rows))[x]
  {
    ExcludeCount(WithActionBinary(rows), remove, x);
    assert x in out <==> x in multiset(out);
  }

  /** Preprocessing a preprocessed frame again with the same exclusions
      drops nothing and stays sorted; when no two trades share a time it
      gives back the very same rows. */
  lemma PreprocessingRerun(rows: seq<TradeRow>, remove: set<string>, out: seq<TradeRow>, again: seq<TradeRow>)
    requires IsPreprocessed(rows, remove, out)
    requires IsPreprocessed(out, remove, again)
    ensures SortedByTime(again) && multiset(again) == multiset(out)
    ensures DistinctTimes(out) ==> again == out
  {
    forall x | x in out
      ensures x.action !in remove && x.actionBinary == Some(ActionBinary(x.action))
    {
      PreprocessedRows(rows, remove, out, x);
    }
    assert WithActionBinary(out) == out;
    ExcludeNothing(out, remove);
    if DistinctTimes(out) {
      SortedPermutationUnique(out, again);
    }
  }

  /** A DataFrame of trades: its index labels and its rows. */
  class TradeFrame {
    var index: seq<int>
    var rows: seq<TradeRow>

    constructor (index: seq<int>, rows: seq<TradeRow>)
      ensures this.index == index && this.rows == rows
    {
      this.index := index;
      this.rows := rows;
    }
  }

  /** The labels 0, 1, ..., n-1 that `reset_index(drop=True)` assigns. */
  function Range(n: nat): (r: seq<int>)
    ensures |r| == n && forall i :: 0 <= i < n ==> r[i] == i
  {
    seq(n, i => i)
  }

  /** Adds the `action_binary` column to the caller's frame in place, then
      returns a new frame of its non-excluded rows sorted by time, indexed
      0..n-1. */
  method HistoryPreprocessing(df: TradeFrame, removeActionTypes: set<string>) returns (out: TradeFrame)
    modifies df
    ensures df.rows == WithActionBinary(old(df.rows)) && df.index == old(df.index)
    ensures fresh(out)
    ensures IsPreprocessed(old(df.rows), removeActionTypes, out.rows)
    ensures out.index == Range(|out.rows|)
  {
    df.rows := WithActionBinary(df.rows);
    var kept := Exclude(df.rows, removeActionTypes);
    var sorted := SortByTime(kept);
    out := new TradeFrame(Range(|sorted|), sorted);
  }
}
