/**
 * The moving-average engine (get_tax_moving_avg.py): a buy folds price and fee
 * into the position's average cost, a sell realises profit against that average
 * on the part of the position it closes, and a driver writes one profit file per
 * calendar year that has records.
 */
module MovingAverage {
  import opened Wrappers
  import opened Trades
  import opened YearSummary

  /** `holdings[symbol]`: quantity held and its average cost, fees included. */
  datatype Position = Position(quantity: real, avgCost: real)

  /** The defaultdict's entry for a symbol not seen before. */
  const Flat := Position(0.0, 0.0)

  /** `holdings[symbol]` on the defaultdict: a symbol not seen before reads as flat. */
  function PositionIn(holdings: map<string, Position>, symbol: string): Position
  {
    if symbol in holdings then holdings[symbol] else Flat
  }

  /** Storing a position for one symbol is read back there and changes no other symbol's. */
  lemma PositionInUpdate(holdings: map<string, Position>, symbol: string, p: Position, other: string)
    ensures PositionIn(holdings[symbol := p], symbol) == p
    ensures other != symbol ==> PositionIn(holdings[symbol := p], other) == PositionIn(holdings, other)
  {
  }

  // ---------------------------------------------------------------------------
  // One buy and one sell (get_tax_moving_avg.py:6-72)

  /**
   * A buy: the total cost basis (fee included) is spread over the new quantity,
   * and a position that does not end up long has average cost 0.
   */
  function BuyStep(p: Position, qty: real, price: real, fee: real): (r: Position)
    ensures r.quantity == p.quantity + qty
    ensures r.quantity > 0.0 ==> r.avgCost * r.quantity == p.quantity * p.avgCost + qty * price + fee
    ensures r.quantity <= 0.0 ==> r.avgCost == 0.0
  {
    var newQty := p.quantity + qty;
    Position(newQty, if newQty > 0.0 then (p.quantity * p.avgCost + qty * price + fee) / newQty else 0.0)
  }

  /** A sell's new position and the records it returns. */
  datatype Sale = Sale(position: Position, records: seq<Record>)

  /**
   * A sell: the quantity always drops by the whole sale (it may go negative) and
   * the average cost never moves; a record appears exactly when both the sale and
   * the position are positive, for `min(qty, cur)` at the pre-sale average cost, its
   * profit net of the sale's fee share `close/qty`, which lies in (0, 1].
   */
  function SellStep(p: Position, qty: real, price: real, fee: real, symbol: string, time: Stamp,
                    currency: string): (r: Sale)
    ensures r.position == Position(p.quantity - qty, p.avgCost)
    ensures |r.records| <= 1
    ensures r.records != [] <==> qty > 0.0 && p.quantity > 0.0
    ensures r.records != [] ==>
      var rec := r.records[0];
      && rec.quantity == Min(qty, p.quantity) && rec.quantity <= qty && rec.quantity <= p.quantity
      && 0.0 < rec.quantity / qty <= 1.0
      && rec.profit == rec.quantity * (price - p.avgCost) - fee * (rec.quantity / qty)
      && rec.reason == PositionClosed && rec.sellPrice == price && rec.costPrice == p.avgCost
      && rec.symbol == symbol && rec.time == time && rec.currency == currency
  {
    var close := Min(qty, p.quantity);
    assert close > 0.0 <==> qty > 0.0 && p.quantity > 0.0;
    var records :=
      if close > 0.0 then
        var feeRatio := if qty > 0.0 then close / qty else 0.0;
        [Record(PositionClosed, symbol, price, p.avgCost, close, close * price - close * p.avgCost - fee * feeRatio,
                time, currency)]
      else [];
    Sale(Position(p.quantity - qty, p.avgCost), records)
  }

  /** The per-symbol book that `main` creates and the two handlers update in place. */
  class Ledger {
    var holdings: map<string, Position>

    constructor ()
      ensures holdings == map[]
    {
      holdings := map[];
    }

    /** `process_buy`. */
    method ProcessBuy(trade: Trade)
      requires trade.price.Some?
      modifies this
      ensures holdings == old(holdings)[trade.symbol :=
        BuyStep(PositionIn(old(holdings), trade.symbol), trade.quantity, trade.price.value, trade.fee)]
    {
      var symbol, qty, price, fee := trade.symbol, trade.quantity, trade.price.value, trade.fee;
      var hold := PositionIn(holdings, symbol);
      var curQty := hold.quantity;
      var totalCost := curQty * hold.avgCost + qty * price + fee;
      var newQty := curQty + qty;
      ghost var target := BuyStep(hold, qty, price, fee);
      hold := hold.(avgCost := if newQty > 0.0 then totalCost / newQty else 0.0);
      hold := hold.(quantity := newQty);
      assert hold.quantity == target.quantity && hold.avgCost == target.avgCost;
      holdings := holdings[symbol := hold];
    }

    /** `process_sell`. */
    method ProcessSell(trade: Trade) returns (records: seq<Record>)
      requires trade.price.Some?
      modifies this
      ensures var sale := SellStep(PositionIn(old(holdings), trade.symbol), trade.quantity, trade.price.value,
                                   trade.fee, trade.symbol, trade.time, trade.currency);
              holdings == old(holdings)[trade.symbol := sale.position] && records == sale.records
    {
      var symbol, qty, price, fee := trade.symbol, trade.quantity, trade.price.value, trade.fee;
      var currency, tradeTime := trade.currency, trade.time;
      var hold := PositionIn(holdings, symbol);
      var curQty := hold.quantity;
      records := [];
      ghost var sale := SellStep(hold, qty, price, fee, symbol, tradeTime, currency);
      var closeQty := Min(qty, curQty);
      if closeQty > 0.0 {
        var totalCost := closeQty * hold.avgCost;
        var feeRatio := if qty > 0.0 then closeQty / qty else 0.0;
        var allocatedFee := fee * feeRatio;
        var profit := closeQty * price - totalCost - allocatedFee;
        records := records + [Record(PositionClosed, symbol, price, hold.avgCost, closeQty, profit, tradeTime, currency)];
        assert |sale.records| == 1 && sale.records[0].profit == profit;
      }
      hold := hold.(quantity := curQty - qty);
      holdings := holdings[symbol := hold];
    }
  }

  // ---------------------------------------------------------------------------
  // One year's file (get_tax_moving_avg.py:75-113)

  /** `summary_year`: nothing is written for a year without records. */
  method SummaryYear(allProfits: seq<Record>, platform: string, year: nat) returns (written: Option<ProfitFile>)
    ensures written.None? <==> allProfits == []
    ensures written.Some? ==> written.value == YearFile(platform, MovingAvg, year, allProfits)
  {
    if allProfits == [] {
      return None;
    }
    var rows := Summarise(allProfits);
    written := Some(ProfitFile(year, ProfitPath(platform, MovingAvg, year), rows));
  }

  // ---------------------------------------------------------------------------
  // The year-flush driver (get_tax_moving_avg.py:116-166)

  /** A dispatched trade has a price (an undispatched side never reads it). */
  predicate Priced(t: Trade)
  {
    (t.side == BuyTag || t.side == SellTag) ==> t.price.Some?
  }

  ghost predicate AllPriced(trades: seq<Trade>)
  {
    forall i :: 0 <= i < |trades| ==> Priced(trades[i])
  }

  lemma AllPricedPrefix(trades: seq<Trade>, n: nat)
    requires AllPriced(trades) && n <= |trades|
    ensures AllPriced(trades[..n])
  {
    assert forall i :: 0 <= i < n ==> trades[..n][i] == trades[i];
  }

  /** `main`'s loop state: the ledger, `cur_year`, `all_profits`, and the files written. */
  datatype Run = Run(holdings: map<string, Position>, curYear: Option<nat>, buffer: seq<Record>,
                     files: seq<ProfitFile>)

  const Start := Run(map[], None, [], [])

  /** The files after `summary_year` for `year`. */
  function Flush(platform: string, files: seq<ProfitFile>, year: nat, buffer: seq<Record>): (out: seq<ProfitFile>)
    ensures files <= out
    ensures |out| == |files| + (if buffer == [] then 0 else 1)
    ensures buffer != [] ==> var f := out[|files|];
              f.year == year && |f.rows| >= |buffer| && f.rows[..|buffer|] == buffer
  {
    if buffer == [] then files else files + [YearFile(platform, MovingAvg, year, buffer)]
  }

  /** The effect of one trade on the ledger and the year's records, by its side tag. */
  function Dispatch(holdings: map<string, Position>, buffer: seq<Record>, t: Trade): (r: (map<string, Position>, seq<Record>))
    requires Priced(t)
    ensures t.side != BuyTag && t.side != SellTag ==> r == (holdings, buffer)
    ensures t.side != SellTag ==> r.1 == buffer
    ensures buffer <= r.1 && |r.1| <= |buffer| + 1
    ensures forall s :: s in holdings && s != t.symbol ==> s in r.0 && r.0[s] == holdings[s]
    ensures forall s :: s in r.0 ==> s in holdings || s == t.symbol
  {
    var p := PositionIn(holdings, t.symbol);
    if t.side == BuyTag then
      (holdings[t.symbol := BuyStep(p, t.quantity, t.price.value, t.fee)], buffer)
    else if t.side == SellTag then
      var sale := SellStep(p, t.quantity, t.price.value, t.fee, t.symbol, t.time, t.currency);
      (holdings[t.symbol := sale.position], buffer + sale.records)
    else (holdings, buffer)
  }

  /** One loop iteration: flush on a change of year, open the trade's year, dispatch. */
  function Observe(platform: string, st: Run, t: Trade): (next: Run)
    requires Priced(t)
    ensures next.curYear == Some(t.time.year)
    ensures st.files <= next.files && |next.files| <= |st.files| + 1
    ensures st.curYear.Some? && t.time.year != st.curYear.value ==> |next.buffer| <= 1
    ensures !(st.curYear.Some? && t.time.year != st.curYear.value) ==> next.files == st.files && st.buffer <= next.buffer
  {
    var flushed := if st.curYear.Some? && t.time.year != st.curYear.value
                   then st.(files := Flush(platform, st.files, st.curYear.value, st.buffer), buffer := [])
                   else st;
    var after := Dispatch(flushed.holdings, flushed.buffer, t);
    flushed.(holdings := after.0, curYear := Some(t.time.year), buffer := after.1)
  }

  function Replay(platform: string, trades: seq<Trade>): (st: Run)
    requires AllPriced(trades)
    ensures st.curYear == (if trades == [] then None else Some(trades[|trades| - 1].time.year))
    ensures |st.files| <= |trades|
  {
    if trades == [] then Start
    else
      AllPricedPrefix(trades, |trades| - 1);
      Observe(platform, Replay(platform, trades[..|trades| - 1]), trades[|trades| - 1])
  }

  /** The final flush, made only when some trade was seen. */
  function Finish(platform: string, st: Run): (files: seq<ProfitFile>)
    ensures st.files <= files
    ensures |files| == |st.files| + (if st.curYear.Some? && st.buffer != [] then 1 else 0)
  {
    if st.curYear.Some? then Flush(platform, st.files, st.curYear.value, st.buffer) else st.files
  }

  /** `main` on an already sorted history: the files it writes. */
  method RunMovingAvg(platform: string, trades: seq<Trade>) returns (files: seq<ProfitFile>)
    requires AllPriced(trades)
    ensures files == Finish(platform, Replay(platform, trades))
  {
    var ledger := new Ledger();
    var allProfits: seq<Record> := [];
    var curYear: Option<nat> := None;
    files := [];
    for i := 0 to |trades|
      invariant AllPriced(trades[..i])
      invariant Replay(platform, trades[..i]) == Run(ledger.holdings, curYear, allProfits, files)
    {
      AllPricedPrefix(trades, i + 1);
      assert trades[..i + 1][..i] == trades[..i];
      var trade := trades[i];
      if curYear.Some? && trade.time.year != curYear.value {
        var written := SummaryYear(allProfits, platform, curYear.value);
        if written.Some? {
          files := files + [written.value];
        }
        allProfits := [];
      }
      curYear := Some(trade.time.year);
      if trade.side == BuyTag {
        ledger.ProcessBuy(trade);
      } else if trade.side == SellTag {
        var profitRecords := ledger.ProcessSell(trade);
        allProfits := allProfits + profitRecords;
      }
    }
    assert trades[..|trades|] == trades;
    if curYear.Some? {
      var written := SummaryYear(allProfits, platform, curYear.value);
      if written.Some? {
        files := files + [written.value];
      }
    }
  }

  // ---------------------------------------------------------------------------
  // What the driver guarantees

  /** A trade with neither side tag touches no holding and adds no record, but opens its year. */
  lemma UnknownSideIgnored(platform: string, st: Run, t: Trade)
    requires t.side != BuyTag && t.side != SellTag
    ensures var next := Observe(platform, st, t);
            && next.holdings == st.holdings && next.curYear == Some(t.time.year)
            && (st.curYear.Some? && t.time.year != st.curYear.value ==>
                  next.buffer == [] && next.files == Flush(platform, st.files, st.curYear.value, st.buffer))
            && (!(st.curYear.Some? && t.time.year != st.curYear.value) ==>
                  next.buffer == st.buffer && next.files == st.files)
  {
  }

  /** Written files are well named and year-pure; buffered records belong to `cur_year`. */
  ghost predicate WellFormed(platform: string, st: Run)
  {
    && (forall f :: f in st.files ==> FileOk(platform, MovingAvg, f))
    && (forall r :: r in st.buffer ==> st.curYear.Some? && r.time.year == st.curYear.value && r.reason != YearTotal)
  }

  lemma FlushOk(platform: string, files: seq<ProfitFile>, year: nat, buffer: seq<Record>)
    requires forall f :: f in files ==> FileOk(platform, MovingAvg, f)
    requires forall r :: r in buffer ==> r.time.year == year
    ensures forall f :: f in Flush(platform, files, year, buffer) ==> FileOk(platform, MovingAvg, f)
  {
    YearFileOk(platform, MovingAvg, year, buffer);
  }

  /** What one iteration does to the buffer, the files and `cur_year`. */
  lemma ObserveShape(platform: string, st: Run, t: Trade)
    requires Priced(t)
    ensures var next, flush := Observe(platform, st, t), st.curYear.Some? && t.time.year != st.curYear.value;
            var p := PositionIn(st.holdings, t.symbol);
            var added := if t.side == SellTag
                         then SellStep(p, t.quantity, t.price.value, t.fee, t.symbol, t.time, t.currency).records
                         else [];
            && next.curYear == Some(t.time.year)
            && next.files == (if flush then Flush(platform, st.files, st.curYear.value, st.buffer) else st.files)
            && next.buffer == (if flush then [] else st.buffer) + added
  {
  }

  lemma {:induction false} ReplayWellFormed(platform: string, trades: seq<Trade>)
    requires AllPriced(trades)
    ensures WellFormed(platform, Replay(platform, trades))
  {
    if trades != [] {
      var init, t := trades[..|trades| - 1], trades[|trades| - 1];
      AllPricedPrefix(trades, |trades| - 1);
      ReplayWellFormed(platform, init);
      var st := Replay(platform, init);
      ObserveShape(platform, st, t);
      if st.curYear.Some? && t.time.year != st.curYear.value {
        FlushOk(platform, st.files, st.curYear.value, st.buffer);
      }
    }
  }

  /** Every file the run writes carries one year's rows and that year's name. */
  lemma FilesArePure(platform: string, trades: seq<Trade>)
    requires AllPriced(trades)
    ensures forall f :: f in Finish(platform, Replay(platform, trades)) ==> FileOk(platform, MovingAvg, f)
  {
    ReplayWellFormed(platform, trades);
    var st := Replay(platform, trades);
    if st.curYear.Some? {
      FlushOk(platform, st.files, st.curYear.value, st.buffer);
    }
  }

  lemma {:induction false} ReplayOrdered(platform: string, trades: seq<Trade>)
    requires AllPriced(trades) && Chronological(trades)
    ensures Ordered(Replay(platform, trades).files, Replay(platform, trades).curYear)
    ensures trades != [] ==> Replay(platform, trades).curYear == Some(trades[|trades| - 1].time.year)
  {
    if trades != [] {
      var init, t := trades[..|trades| - 1], trades[|trades| - 1];
      AllPricedPrefix(trades, |trades| - 1);
      ChronologicalPrefix(trades, |trades| - 1);
      ReplayOrdered(platform, init);
      var st := Replay(platform, init);
      ObserveShape(platform, st, t);
      if st.curYear.Some? {
        assert StampLe(init[|init| - 1].time, t.time);
      }
      var flushed := st.curYear.Some? && t.time.year != st.curYear.value && st.buffer != [];
      OrderedStep(st.files, st.curYear, t.time.year, flushed,
                  YearFile(platform, MovingAvg, if st.curYear.Some? then st.curYear.value else 0, st.buffer));
    }
  }

  /**
   * On a chronological history each year is flushed at most once: file years
   * strictly increase, and the last file, if the last year had records, is that
   * of the last trade.
   */
  lemma YearsIncrease(platform: string, trades: seq<Trade>)
    requires AllPriced(trades) && Chronological(trades)
    ensures var files := Finish(platform, Replay(platform, trades));
            forall i, j :: 0 <= i < j < |files| ==> files[i].year < files[j].year
    ensures var st := Replay(platform, trades);
            st.buffer != [] ==>
              (trades != [] && Finish(platform, st)[|Finish(platform, st)| - 1].year == trades[|trades| - 1].time.year)
  {
    ReplayOrdered(platform, trades);
    ReplayWellFormed(platform, trades);
    var st := Replay(platform, trades);
    if st.curYear.Some? {
      var flushed := st.buffer != [];
      OrderedStep(st.files, st.curYear, st.curYear.value + 1, flushed,
                  YearFile(platform, MovingAvg, st.curYear.value, st.buffer));
    }
  }

  /** The ledger over the whole history, records concatenated, years ignored. */
  datatype Book = Book(holdings: map<string, Position>, records: seq<Record>)

  function Ledgered(trades: seq<Trade>): Book
    requires AllPriced(trades)
  {
    if trades == [] then Book(map[], [])
    else
      AllPricedPrefix(trades, |trades| - 1);
      var b := Ledgered(trades[..|trades| - 1]);
      var after := Dispatch(b.holdings, b.records, trades[|trades| - 1]);
      Book(after.0, after.1)
  }

  /** Dispatch only appends to the records it is given. */
  lemma DispatchAppends(holdings: map<string, Position>, a: seq<Record>, b: seq<Record>, t: Trade)
    requires Priced(t)
    ensures Dispatch(holdings, a + b, t).0 == Dispatch(holdings, b, t).0
    ensures Dispatch(holdings, a + b, t).1 == a + Dispatch(holdings, b, t).1
  {
  }

  lemma {:induction false} ReplayKeepsRecords(platform: string, trades: seq<Trade>)
    requires AllPriced(trades)
    ensures var st := Replay(platform, trades);
            st.holdings == Ledgered(trades).holdings && Detail(Flatten(st.files)) + st.buffer == Ledgered(trades).records
  {
    if trades != [] {
      var init, t := trades[..|trades| - 1], trades[|trades| - 1];
      AllPricedPrefix(trades, |trades| - 1);
      ReplayKeepsRecords(platform, init);
      ReplayWellFormed(platform, init);
      var st, b := Replay(platform, init), Ledgered(init);
      var flush := st.curYear.Some? && t.time.year != st.curYear.value;
      var kept := if flush then [] else st.buffer;
      var done := Detail(Flatten(if flush then Flush(platform, st.files, st.curYear.value, st.buffer) else st.files));
      if flush && st.buffer != [] {
        FlushKeeps(platform, MovingAvg, st.files, st.curYear.value, st.buffer);
      }
      assert done + kept == b.records;
      DispatchAppends(st.holdings, done, kept, t);
    }
  }

  /** No record is lost or invented: the files' detail rows are the ledger's records. */
  lemma NothingLost(platform: string, trades: seq<Trade>)
    requires AllPriced(trades)
    ensures Detail(Flatten(Finish(platform, Replay(platform, trades)))) == Ledgered(trades).records
  {
    ReplayKeepsRecords(platform, trades);
    ReplayWellFormed(platform, trades);
    var st := Replay(platform, trades);
    if st.buffer != [] {
      FlushKeeps(platform, MovingAvg, st.files, st.curYear.value, st.buffer);
    } else {
      assert Detail(Flatten(st.files)) + [] == Detail(Flatten(st.files));
    }
  }

  /** A symbol's bought minus sold quantity, over the dispatched trades only. */
  function NetQuantity(trades: seq<Trade>, symbol: string): real
  {
    if trades == [] then 0.0
    else
      var t := trades[|trades| - 1];
      var delta := if t.symbol != symbol then 0.0
                   else if t.side == BuyTag then t.quantity
                   else if t.side == SellTag then -t.quantity
                   else 0.0;
      NetQuantity(trades[..|trades| - 1], symbol) + delta
  }

  /** The position is buys minus sells, oversells included. */
  lemma {:induction false} NetPosition(trades: seq<Trade>, symbol: string)
    requires AllPriced(trades)
    ensures PositionIn(Ledgered(trades).holdings, symbol).quantity == NetQuantity(trades, symbol)
  {
    if trades != [] {
      AllPricedPrefix(trades, |trades| - 1);
      NetPosition(trades[..|trades| - 1], symbol);
    }
  }

  // ---------------------------------------------------------------------------
  // Single trades worked through

  /** From flat, a buy's average cost is its price plus its fee per unit. */
  /**
   * The first trade of a symbol meets the defaultdict's flat entry: a buy opens at its
   * price plus its fee per unit, and a sell goes short by its size and books nothing.
   */
  lemma FirstTradeOpens(holdings: map<string, Position>, symbol: string, qty: real, price: real, fee: real,
                        time: Stamp, currency: string)
    requires symbol !in holdings && qty > 0.0
    ensures BuyStep(PositionIn(holdings, symbol), qty, price, fee) == Position(qty, price + fee / qty)
    ensures SellStep(PositionIn(holdings, symbol), qty, price, fee, symbol, time, currency) == Sale(Position(-qty, 0.0), [])
  {
    BuyFromFlat(Flat, qty, price, fee);
  }

  lemma BuyFromFlat(p: Position, qty: real, price: real, fee: real)
    requires p.quantity == 0.0 && qty > 0.0
    ensures BuyStep(p, qty, price, fee).avgCost == price + fee / qty
  {
    assert (0.0 * p.avgCost + qty * price + fee) / qty == (qty * price) / qty + fee / qty;
  }

  /**
   * Buy 100 at 10, then sell 150 at 12 (no fees): 100 close at a profit of 200,
   * and the position is left at -50 with the average cost still 10.
   */
  lemma Oversell(symbol: string, t: Stamp)
    ensures var bought := BuyStep(Flat, 100.0, 10.0, 0.0);
            && bought == Position(100.0, 10.0)
            && SellStep(bought, 150.0, 12.0, 0.0, symbol, t, "USD") ==
               Sale(Position(-50.0, 10.0), [Record(PositionClosed, symbol, 12.0, 10.0, 100.0, 200.0, t, "USD")])
  {
    BuyFromFlat(Flat, 100.0, 10.0, 0.0);
    var sale := SellStep(Position(100.0, 10.0), 150.0, 12.0, 0.0, symbol, t, "USD");
    assert sale.records[0].profit == 200.0;
  }
}
