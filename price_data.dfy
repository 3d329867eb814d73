/**
 * Price rows, trades and the chart's interleaved `PriceOrTrade` entries, and the
 * `PriceDataInterval` bucket size chosen for a price query.
 * Dates are seconds since the reference date, as `real`.
 */
module PriceModel {
  import opened Wrappers

  /** One bucket of the price query. */
  datatype PriceData = PriceData(
    timeSecond: real,
    avgPriceInSol: real,
    transactionCount: int,
    minPriceInSol: real,
    maxPriceInSol: real)

  /** One executed trade of a position (the fields the chart uses). */
  datatype PositionTradeData = PositionTradeData(
    marketId: string,
    positionTradeIdx: int,
    isBuy: bool,
    actualBaseTokenAmount: int,
    actualQuoteTokenAmount: int,
    confirmTime: real)

  datatype PriceOrTrade = Price(price: PriceData) | Trade(trade: PositionTradeData)
  {
    /** The `price` accessor: the payload of a `.price` case, nil otherwise. */
    function PriceValue(): (r: Option<PriceData>)
      ensures r.Some? <==> Price?
      ensures Price? ==> r == Some(price)
    {
      match this
      case Price(p) => Some(p)
      case _ => None
    }

    /** The `trade` accessor: the payload of a `.trade` case, nil otherwise. */
    function TradeValue(): (r: Option<PositionTradeData>)
      ensures r.Some? <==> Trade?
      ensures Trade? ==> r == Some(trade)
    {
      match this
      case Trade(t) => Some(t)
      case _ => None
    }

    /** The `time` accessor: a trade's confirmation time or a price bucket's time. */
    function Time(): (t: real)
      ensures Trade? ==> t == trade.confirmTime
      ensures Price? ==> t == price.timeSecond
    {
      match this
      case Trade(t) => t.confirmTime
      case Price(p) => p.timeSecond
    }
  }

  /** Exactly one of the two accessors is non-nil, and it gives back the entry. */
  lemma AccessorsPartition(e: PriceOrTrade)
    ensures e.PriceValue().Some? != e.TradeValue().Some?
    ensures e.PriceValue().Some? ==> e == Price(e.PriceValue().value)
    ensures e.TradeValue().Some? ==> e == Trade(e.TradeValue().value)
  {
  }

  datatype PriceDataInterval = OneSecond | OneMinute | OneHour
  {
    /** `rawValue` of the String-backed enum: the case name. */
    function RawValue(): string {
      match this
      case OneSecond => "oneSecond"
      case OneMinute => "oneMinute"
      case OneHour => "oneHour"
    }

    /** Short label shown in the UI. */
    function DisplayName(): (s: string)
      ensures |s| == 2 && s[0] == '1'
      ensures s[1] == Sql()[0]
    {
      match this
      case OneSecond => "1s"
      case OneMinute => "1m"
      case OneHour => "1h"
    }

    /** Unit handed to DuckDB's `date_trunc`. */
    function Sql(): (s: string)
      ensures s in {"second", "minute", "hour"}
    {
      match this
      case OneSecond => "second"
      case OneMinute => "minute"
      case OneHour => "hour"
    }

    /** No interval needs grouping beyond `date_trunc`. */
    function NeedsCustomGrouping(): (b: bool)
      ensures !b
    {
      false
    }

    /** Every interval is one `date_trunc` unit wide. */
    function SecondsMultiplier(): (m: int)
      ensures m == 1
    {
      1
    }

    /** Position in the coarseness order second < minute < hour. */
    function Rank(): (k: nat)
      ensures k < 3
    {
      match this
      case OneSecond => 0
      case OneMinute => 1
      case OneHour => 2
    }
  }

  /** `CaseIterable.allCases`, in declaration order. */
  const AllIntervals: seq<PriceDataInterval> := [OneSecond, OneMinute, OneHour]

  /** Interval for a chart zoom scale: finer below 10, coarsest from 40 on. */
  function InitFromScale(scale: real): (r: PriceDataInterval)
    ensures r == OneSecond <==> scale < 10.0
    ensures r == OneMinute <==> 10.0 <= scale < 40.0
    ensures r == OneHour <==> scale >= 40.0
  {
    if scale < 10.0 then OneSecond
    else if scale < 40.0 then OneMinute
    else OneHour
  }

  /** Interval for a number of rows: one-second buckets below 360, hours from 21600 on. */
  function InitFromDataCount(count: int): (r: PriceDataInterval)
    ensures r == OneSecond <==> count < 360
    ensures r == OneMinute <==> 360 <= count < 21600
    ensures r == OneHour <==> count >= 21600
  {
    if count < 360 then OneSecond
    else if count < 21600 then OneMinute
    else OneHour
  }

  /** A larger scale never selects a finer interval. */
  lemma InitFromScaleMonotone(a: real, b: real)
    requires a <= b
    ensures InitFromScale(a).Rank() <= InitFromScale(b).Rank()
  {
  }

  /** A larger row count never selects a finer interval. */
  lemma InitFromDataCountMonotone(a: int, b: int)
    requires a <= b
    ensures InitFromDataCount(a).Rank() <= InitFromDataCount(b).Rank()
  {
  }

  /** Labels, SQL units and raw values each tell the three intervals apart, and
      `allCases` lists every interval once. */
  lemma IntervalNamesDistinct(x: PriceDataInterval, y: PriceDataInterval)
    ensures x.DisplayName() == y.DisplayName() ==> x == y
    ensures x.Sql() == y.Sql() ==> x == y
    ensures x.RawValue() == y.RawValue() ==> x == y
    ensures x in AllIntervals && |AllIntervals| == 3
  {
    if x != y {
      assert x.DisplayName()[1] != y.DisplayName()[1];
      assert x.Sql()[0] != y.Sql()[0] || |x.Sql()| != |y.Sql()|;
      assert x.RawValue()[3] != y.RawValue()[3];
    }
  }
}
