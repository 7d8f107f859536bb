/**
 * The trade rows both engines read, the profit rows they write, and the names of
 * the files they write them to.
 */
module Trades {
  import opened Wrappers
  import opened Text

  /**
   * An execution time at second precision, split into its calendar year (the
   * `年份` column both engines derive from `交易时间`) and the second within it.
   */
  datatype Stamp = Stamp(year: nat, second: nat)

  /** Execution times in time order: by year, then by second within the year. */
  predicate StampLe(a: Stamp, b: Stamp)
  {
    a.year < b.year || (a.year == b.year && a.second <= b.second)
  }

  /** `StampLe` is a total order on stamps, as the order of `交易时间` values is. */
  lemma StampLeTotalOrder(a: Stamp, b: Stamp, c: Stamp)
    ensures StampLe(a, a)
    ensures StampLe(a, b) || StampLe(b, a)
    ensures StampLe(a, b) && StampLe(b, a) ==> a == b
    ensures StampLe(a, b) && StampLe(b, c) ==> StampLe(a, c)
  {
  }

  /**
   * One row of the trade history: 股票代码, 数量, 成交价格, 买卖方向, 结算币种,
   * 合计手续费, 交易时间. A `None` price is a not-a-number cell.
   */
  datatype Trade = Trade(
    symbol: string,
    quantity: real,
    price: Option<real>,
    side: string,
    currency: string,
    fee: real,
    time: Stamp)

  /** The history sorted by execution time (the stable sort both engines apply). */
  ghost predicate Chronological(trades: seq<Trade>)
  {
    forall i, j :: 0 <= i < j < |trades| ==> StampLe(trades[i].time, trades[j].time)
  }

  /** In a history sorted by time the 年份 column never decreases. */
  lemma ChronologicalYears(trades: seq<Trade>, i: nat, j: nat)
    requires Chronological(trades) && i <= j < |trades|
    ensures trades[i].time.year <= trades[j].time.year
  {
    if i < j {
      assert StampLe(trades[i].time, trades[j].time);
    }
  }

  lemma ChronologicalPrefix(trades: seq<Trade>, n: nat)
    requires Chronological(trades) && n <= |trades|
    ensures Chronological(trades[..n])
  {
    assert forall i :: 0 <= i < n ==> trades[..n][i] == trades[i];
  }

  /** Python's `min` of two numbers (the first one on a tie). */
  function Min(a: real, b: real): real
  {
    if b < a then b else a
  }

  /** `Min` is the smaller of its arguments, and the first one on a tie. */
  lemma MinIsSmaller(a: real, b: real)
    ensures Min(a, b) <= a && Min(a, b) <= b
    ensures Min(a, b) == a || Min(a, b) == b
    ensures a <= b ==> Min(a, b) == a
  {
  }

  /**
   * One output row: 配对原因, 股票代码, 卖出价格, 成本价, 数量, 利润, 时间, 结算币种.
   */
  datatype Record = Record(
    reason: string,
    symbol: string,
    sellPrice: real,
    costPrice: real,
    quantity: real,
    profit: real,
    time: Stamp,
    currency: string)

  /** The two side tags the exporters write. */
  const BuyTag := "OrderSide.Buy"
  const SellTag := "OrderSide.Sell"

  /** 配对原因 of the rows the engines write. */
  const ShortCovered := "做空了结"
  const LongClosed := "做多了结"
  const PositionClosed := "平仓了结"
  const YearTotal := "年度汇总"

  /** 股票代码 of the two summary rows: every profit, and only the positive ones. */
  const ByYear := "按年度计算"
  const PerTrade := "按单次计算"

  /** The method names in the two engines' output file names. */
  const Method2 := "method2"
  const MovingAvg := "moving_avg"

  /** A written CSV file: the year it summarises, its path, and its rows. */
  datatype ProfitFile = ProfitFile(year: nat, path: string, rows: seq<Record>)

  /** `data/{platform}_{methodName}_profit_{year}.csv`. */
  function ProfitPath(platform: string, methodName: string, year: nat): (path: string)
    ensures |path| >= 9 && path[..5] == "data/" && path[|path| - 4..] == ".csv"
  {
    "data/" + platform + "_" + methodName + "_profit_" + YearText(year) + ".csv"
  }
}
