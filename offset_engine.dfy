/**
 * The average-cost offset engine (get_tax2.py): a signed position per symbol, with
 * an opposing fill realising profit against the position's average cost, and a
 * driver that writes one profit file per calendar year.
 */
module OffsetEngine {
  import opened Wrappers
  import opened Trades
  import opened OptionSymbol
  import opened YearSummary

  // ---------------------------------------------------------------------------
  // Trade normalisation (get_tax2.py:7-21)

  function Abs(x: real): real { if x < 0.0 then -x else x }

  /** A trade after signing and option-price normalisation. */
  datatype Fill = Fill(symbol: string, qty: real, price: real, fee: real, currency: string, time: Stamp)

  /** The engine can price the trade: the price is a number, or the symbol is an option (NaN becomes 0). */
  predicate PriceKnown(t: Trade)
  {
    t.price.Some? || IsOptionSymbol(t.symbol)
  }

  ghost predicate AllPriced(trades: seq<Trade>)
  {
    forall i :: 0 <= i < |trades| ==> PriceKnown(trades[i])
  }

  /**
   * Signs the quantity (only the exact tag "OrderSide.Buy" buys) and, for a symbol
   * the option regular expression matches, multiplies the price by the contract
   * size 100, or takes 0 for a NaN price.
   */
  function Normalise(t: Trade): (f: Fill)
    requires PriceKnown(t)
    ensures t.side == BuyTag ==> f.qty == t.quantity
    ensures t.side != BuyTag ==> f.qty == -t.quantity
    ensures MatchesPattern(t.symbol) && t.price.None? ==> f.price == 0.0
    ensures MatchesPattern(t.symbol) && t.price.Some? ==> f.price == 100.0 * t.price.value
    ensures !MatchesPattern(t.symbol) ==> t.price.Some? && f.price == t.price.value
    ensures f.symbol == t.symbol && f.fee == t.fee && f.currency == t.currency && f.time == t.time
  {
    IsOptionSymbolMatches(t.symbol);
    var qty := if t.side == BuyTag then t.quantity else -t.quantity;
    var price := if !IsOptionSymbol(t.symbol) then t.price.value
                 else if t.price.None? then 0.0
                 else t.price.value * 100.0;
    Fill(t.symbol, qty, price, t.fee, t.currency, t.time)
  }

  // ---------------------------------------------------------------------------
  // The position ledger and one fill (get_tax2.py:22-87)

  /**
   * `holdings[symbol]`: signed quantity, average cost, fee not yet charged to a
   * close, and the "price" key that a short-to-long flip writes (absent until then).
   */
  datatype Holding = Holding(quantity: real, avgCost: real, totalFee: real, price: Option<real>)

  /** The defaultdict's entry for a symbol not seen before. */
  const Fresh := Holding(0.0, 0.0, 0.0, None)

  /** `holdings[symbol]` on the defaultdict: a symbol not seen before reads as flat. */
  function HoldingIn(holdings: map<string, Holding>, symbol: string): Holding
  {
    if symbol in holdings then holdings[symbol] else Fresh
  }

  /** Storing a holding for one symbol is read back there and changes no other symbol's. */
  lemma HoldingInUpdate(holdings: map<string, Holding>, symbol: string, h: Holding, other: string)
    ensures HoldingIn(holdings[symbol := h], symbol) == h
    ensures other != symbol ==> HoldingIn(holdings[symbol := h], other) == HoldingIn(holdings, other)
  {
  }

  /** A fill's effect on its symbol's holding and the records it returns. */
  datatype Step = Step(holding: Holding, records: seq<Record>)

  /** How a fill of signed quantity `q` meets a position `cur`. */
  datatype Move = Idle | Open | Reduce | Close | Flip

  function MoveOf(cur: real, q: real): Move
  {
    if q == 0.0 then Idle
    else if (q > 0.0 && cur >= 0.0) || (q < 0.0 && cur <= 0.0) then Open
    else if Abs(q) < Abs(cur) then Reduce
    else if Abs(q) == Abs(cur) then Close
    else Flip
  }

  /** Same direction or from flat: blend the fill into the average cost and keep its fee. */
  function Blend(h: Holding, f: Fill): (r: Holding)
    requires f.qty != 0.0
    ensures r.quantity == h.quantity + f.qty && r.totalFee == h.totalFee + f.fee && r.price == h.price
    ensures r.avgCost * (Abs(f.qty) + Abs(h.quantity)) == h.avgCost * Abs(h.quantity) + Abs(f.qty) * f.price
  {
    Holding(h.quantity + f.qty,
            (h.avgCost * Abs(h.quantity) + Abs(f.qty) * f.price) / (Abs(f.qty) + Abs(h.quantity)),
            h.totalFee + f.fee, h.price)
  }

  /** A buy against a short: 做空了结, the short's average cost being its sale price. */
  function Cover(h: Holding, f: Fill): (r: Step)
    requires f.qty > 0.0 && h.quantity < 0.0
    ensures r.holding.quantity == h.quantity + f.qty
    ensures |r.records| <= 1
    ensures r.records != [] <==> f.qty >= -h.quantity
    ensures r.records != [] ==>
      var rec := r.records[0];
      && rec.quantity == -h.quantity && rec.quantity > 0.0
      && rec.sellPrice == h.avgCost
      && rec.costPrice == (h.totalFee + Abs(rec.quantity / f.qty) * f.fee + rec.quantity * f.price) / rec.quantity
      && rec.profit == rec.quantity * (rec.sellPrice - rec.costPrice)
      && rec.reason == ShortCovered && rec.symbol == f.symbol && rec.time == f.time && rec.currency == f.currency
  {
    var overlap := Min(f.qty, Abs(h.quantity));
    var cost := h.totalFee + Abs(overlap / f.qty) * f.fee + overlap * f.price;
    SpreadProfit(overlap, h.avgCost, cost);
    var rec := Record(ShortCovered, f.symbol, h.avgCost, cost / overlap, overlap, overlap * h.avgCost - cost,
                      f.time, f.currency);
    var records := if overlap == Abs(h.quantity) then [rec] else [];
    var delta := f.qty - Abs(h.quantity);
    if delta > 0.0 then
      Step(Holding(delta, h.avgCost, delta / f.qty * f.fee, Some(f.price)), records)
    else
      var rest := h.quantity - Abs(f.qty);
      Step(Holding(delta, if rest == 0.0 then 0.0 else (Abs(f.qty) * h.avgCost - cost) / Abs(rest), 0.0, h.price),
           records)
  }

  /** A sell against a long: 做多了结, the whole position cost charged against the proceeds. */
  function Sell(h: Holding, f: Fill): (r: Step)
    requires f.qty < 0.0 && h.quantity > 0.0
    ensures r.holding.quantity == h.quantity + f.qty
    ensures |r.records| <= 1
    ensures r.records != [] <==> -f.qty >= h.quantity
    ensures r.records != [] ==>
      var rec := r.records[0];
      && rec.quantity == h.quantity
      && rec.sellPrice == f.price
      && rec.costPrice == (h.totalFee + Abs(rec.quantity / f.qty) * f.fee + rec.quantity * h.avgCost) / rec.quantity
      && rec.profit == rec.quantity * (rec.sellPrice - rec.costPrice)
      && rec.reason == LongClosed && rec.symbol == f.symbol && rec.time == f.time && rec.currency == f.currency
  {
    var sold := -f.qty;
    var overlap := Min(sold, h.quantity);
    var cost := h.totalFee + Abs(overlap / f.qty) * f.fee + h.quantity * h.avgCost;
    var rec := Record(LongClosed, f.symbol, f.price, cost / overlap, overlap, overlap * f.price - cost,
                      f.time, f.currency);
    var records := if overlap == h.quantity then [rec] else [];
    if sold > h.quantity then
      Step(Holding(h.quantity - sold, f.price, ((sold - h.quantity) / sold) * f.fee, h.price), records)
    else if sold == h.quantity then
      Step(Holding(0.0, 0.0, 0.0, h.price), records)
    else
      Step(Holding(h.quantity - sold, (cost - sold * f.price) / (h.quantity - sold), 0.0, h.price), records)
  }

  /**
   * One fill against its symbol's holding. The quantity always moves by the signed
   * fill; a record appears exactly when an opposing fill closes the whole position
   * (exactly, or flipping it), and then it closes exactly the old position, which
   * is no larger than the fill, at a profit of quantity times the price spread.
   * An opposing fill is a cover or a sale, whose contracts give the prices.
   */
  function OffsetStep(h: Holding, f: Fill): (r: Step)
    ensures r.holding.quantity == h.quantity + f.qty
    ensures |r.records| <= 1
    ensures r.records != [] <==> MoveOf(h.quantity, f.qty) == Close || MoveOf(h.quantity, f.qty) == Flip
    ensures r.records != [] ==>
      var rec := r.records[0];
      && rec.quantity == Abs(h.quantity) && rec.quantity <= Abs(f.qty) && rec.quantity > 0.0
      && rec.profit == rec.quantity * (rec.sellPrice - rec.costPrice)
      && rec.symbol == f.symbol && rec.time == f.time && rec.currency == f.currency
    ensures r.records != [] ==> r.records[0].reason == (if f.qty > 0.0 then ShortCovered else LongClosed)
    ensures f.qty > 0.0 && h.quantity < 0.0 ==> r == Cover(h, f)
    ensures f.qty < 0.0 && h.quantity > 0.0 ==> r == Sell(h, f)
    ensures MoveOf(h.quantity, f.qty) == Open ==> r == Step(Blend(h, f), [])
    ensures MoveOf(h.quantity, f.qty) == Idle ==> r == Step(h, [])
  {
    if f.qty == 0.0 then Step(h, [])
    else if f.qty > 0.0 && h.quantity < 0.0 then Cover(h, f)
    else if f.qty < 0.0 && h.quantity > 0.0 then Sell(h, f)
    else Step(Blend(h, f), [])
  }

  /** `process_item`, lines 26-49: a buy against a short position. */
  method CoverShort(start: Holding, fill: Fill) returns (hold: Holding, records: seq<Record>)
    requires fill.qty > 0.0 && start.quantity < 0.0
    ensures Step(hold, records) == Cover(start, fill)
  {
    var symbol, qty, price, fee := fill.symbol, fill.qty, fill.price, fill.fee;
    var currency, tradeTime := fill.currency, fill.time;
    records := [];
    hold := start;
    var curQty := hold.quantity;
    var qty1 := Min(qty, Abs(curQty));
    var totalBuyCost := hold.totalFee + Abs(qty1 / qty) * fee + qty1 * price;
    var earn := qty1 * hold.avgCost - totalBuyCost;
    if qty1 == Abs(curQty) {
      records := [Record(ShortCovered, symbol, hold.avgCost, totalBuyCost / qty1, qty1, earn, tradeTime, currency)];
    }
    var deltaQty := qty - Abs(curQty);
    hold := hold.(quantity := deltaQty);
    if deltaQty > 0.0 {
      hold := hold.(totalFee := deltaQty / qty * fee);
      hold := hold.(price := Some(price));
    } else {
      curQty := curQty - Abs(qty);
      hold := hold.(avgCost := if curQty == 0.0 then 0.0
                               else (Abs(qty) * hold.avgCost - totalBuyCost) / Abs(curQty));
      hold := hold.(totalFee := 0.0);
    }
    ghost var target := Cover(start, fill);
    assert |records| == |target.records|;
    assert records != [] ==> records[0].costPrice == target.records[0].costPrice;
    assert records != [] ==> records[0].profit == target.records[0].profit;
    assert records != [] ==> records[0] == target.records[0];
    assert hold.quantity == target.holding.quantity;
    assert hold.avgCost == target.holding.avgCost;
    assert hold.totalFee == target.holding.totalFee;
    assert hold.price == target.holding.price;
  }

  /** `process_item`, lines 50-54: a buy from flat or onto a long position. */
  method AddBuy(start: Holding, fill: Fill) returns (hold: Holding)
    requires fill.qty > 0.0 && start.quantity >= 0.0
    ensures hold == Blend(start, fill)
  {
    var qty, price, fee := fill.qty, fill.price, fill.fee;
    hold := start;
    var totalBuyCost := hold.avgCost * hold.quantity + qty * price;
    hold := hold.(avgCost := totalBuyCost / (qty + hold.quantity));
    hold := hold.(quantity := hold.quantity + qty);
    hold := hold.(totalFee := hold.totalFee + fee);
  }

  /** `process_item`, lines 57-80: a sell against a long position. */
  method CloseLong(start: Holding, fill: Fill) returns (hold: Holding, records: seq<Record>)
    requires fill.qty < 0.0 && start.quantity > 0.0
    ensures Step(hold, records) == Sell(start, fill)
  {
    var symbol, qty, price, fee := fill.symbol, fill.qty, fill.price, fill.fee;
    var currency, tradeTime := fill.currency, fill.time;
    records := [];
    hold := start;
    var curQty := hold.quantity;
    var qty1 := Min(Abs(qty), curQty);
    var totalBuyCost := hold.totalFee + Abs(qty1 / qty) * fee + curQty * hold.avgCost;
    var earn := Abs(qty1) * price - totalBuyCost;
    ghost var target := Sell(start, fill);
    if qty1 == curQty {
      records := records + [Record(LongClosed, symbol, price, totalBuyCost / qty1, Abs(qty1), earn,
                                   tradeTime, currency)];
      assert |target.records| == 1 && target.records[0].costPrice == totalBuyCost / qty1;
      assert target.records[0].profit == earn;
    }
    var deltaQty := curQty - Abs(qty);
    hold := hold.(quantity := deltaQty);
    if deltaQty < 0.0 {
      hold := hold.(totalFee := (Abs(deltaQty) / Abs(qty)) * fee);
      hold := hold.(avgCost := price);
    } else {
      curQty := curQty - Abs(qty);
      hold := hold.(avgCost := if curQty == 0.0 then 0.0 else (totalBuyCost - Abs(qty) * price) / curQty);
      hold := hold.(totalFee := 0.0);
    }
    assert hold.quantity == target.holding.quantity && hold.avgCost == target.holding.avgCost;
    assert hold.totalFee == target.holding.totalFee && hold.price == target.holding.price;
  }

  /** `process_item`, lines 81-85: a sell from flat or onto a short position. */
  method AddSell(start: Holding, fill: Fill) returns (hold: Holding)
    requires fill.qty < 0.0 && start.quantity <= 0.0
    ensures hold == Blend(start, fill)
  {
    var qty, price, fee := fill.qty, fill.price, fill.fee;
    hold := start;
    var totalSellCost := hold.avgCost * Abs(hold.quantity) + Abs(qty) * price;
    hold := hold.(avgCost := totalSellCost / (Abs(qty) + Abs(hold.quantity)));
    hold := hold.(quantity := hold.quantity + qty);
    hold := hold.(totalFee := hold.totalFee + fee);
  }

  /** The per-symbol book that `main` creates and `process_item` updates in place. */
  class Ledger {
    var holdings: map<string, Holding>

    constructor ()
      ensures holdings == map[]
    {
      holdings := map[];
    }

    /**
     * `process_item`: normalises the trade, updates `holdings[symbol]` and returns
     * the records of this trade.
     */
    method ProcessItem(trade: Trade) returns (records: seq<Record>)
      requires PriceKnown(trade)
      modifies this
      ensures holdings == old(holdings)[trade.symbol := OffsetStep(HoldingIn(old(holdings), trade.symbol), Normalise(trade)).holding]
      ensures records == OffsetStep(HoldingIn(old(holdings), trade.symbol), Normalise(trade)).records
    {
      var fill := Normalise(trade);
      var hold := HoldingIn(holdings, fill.symbol);
      records := [];
      if fill.qty > 0.0 {
        if hold.quantity < 0.0 {
          hold, records := CoverShort(hold, fill);
        } else {
          hold := AddBuy(hold, fill);
        }
      }
      if fill.qty < 0.0 {
        if hold.quantity > 0.0 {
          hold, records := CloseLong(hold, fill);
        } else {
          hold := AddSell(hold, fill);
        }
      }
      holdings := holdings[fill.symbol := hold];
    }
  }

  // ---------------------------------------------------------------------------
  // One year's file (get_tax2.py:89-118)

  /**
   * `summary_year`: the year's records followed by two summary rows per currency.
   * pandas cannot group an empty frame by 结算币种 (a KeyError), so an empty year
   * aborts the run before anything is written: `None`.
   */
  method SummaryYear(allProfits: seq<Record>) returns (written: Option<seq<Record>>)
    ensures written.None? <==> allProfits == []
    ensures written.Some? ==> written.value == allProfits + SummaryRows(allProfits)
  {
    if allProfits == [] {
      return None;
    }
    var rows := Summarise(allProfits);
    return Some(rows);
  }

  // ---------------------------------------------------------------------------
  // The year-flush driver (get_tax2.py:121-137)

  /**
   * The state `main` carries between trades: the ledger, `cur_year`, the year's
   * records `all_profits`, the files written so far, and whether a flush of an empty
   * year has aborted the run.
   */
  datatype Run = Run(holdings: map<string, Holding>, curYear: Option<nat>, buffer: seq<Record>,
                     files: seq<ProfitFile>, crashed: bool)

  const Start := Run(map[], None, [], [], false)

  /** One loop iteration: flush on a change of year, then process the trade. */
  function Observe(platform: string, st: Run, t: Trade): (next: Run)
    requires PriceKnown(t)
    ensures st.crashed ==> next == st
    ensures !st.crashed ==>
              (next.crashed <==> st.curYear.Some? && t.time.year != st.curYear.value && st.buffer == [])
    ensures !st.crashed && next.crashed ==> next.files == st.files && next.buffer == []
    ensures !next.crashed ==> next.curYear == Some(t.time.year)
    ensures st.files <= next.files && |next.files| <= |st.files| + 1
  {
    if st.crashed then st
    else if st.curYear.Some? && t.time.year != st.curYear.value && st.buffer == [] then
      st.(crashed := true)
    else
      var flushed := if st.curYear.Some? && t.time.year != st.curYear.value
                     then st.(files := st.files + [YearFile(platform, Method2, st.curYear.value, st.buffer)], buffer := [])
                     else st;
      var step := OffsetStep(HoldingIn(flushed.holdings, t.symbol), Normalise(t));
      flushed.(holdings := flushed.holdings[t.symbol := step.holding], curYear := Some(t.time.year),
               buffer := flushed.buffer + step.records)
  }

  lemma AllPricedPrefix(trades: seq<Trade>, n: nat)
    requires AllPriced(trades) && n <= |trades|
    ensures AllPriced(trades[..n])
  {
    assert forall i :: 0 <= i < n ==> trades[..n][i] == trades[i];
  }

  /** The loop over the sorted history, trade by trade. */
  function Replay(platform: string, trades: seq<Trade>): (st: Run)
    requires AllPriced(trades)
    ensures st.crashed ==> st.buffer == []
    ensures !st.crashed ==> st.curYear == (if trades == [] then None else Some(trades[|trades| - 1].time.year))
    ensures |st.files| <= |trades|
  {
    if trades == [] then Start
    else
      AllPricedPrefix(trades, |trades| - 1);
      Observe(platform, Replay(platform, trades[..|trades| - 1]), trades[|trades| - 1])
  }

  /** The files of a run, and whether it reached its end. */
  datatype Outcome = Outcome(files: seq<ProfitFile>, completed: bool)

  /** The final, unconditional `summary_year` call after the loop. */
  function Finish(platform: string, st: Run): (out: Outcome)
    ensures out.completed <==> !st.crashed && st.buffer != [] && st.curYear.Some?
    ensures st.files <= out.files && |out.files| == |st.files| + (if out.completed then 1 else 0)
    ensures out.completed ==> var f := out.files[|st.files|];
              f.year == st.curYear.value && |f.rows| >= |st.buffer| && f.rows[..|st.buffer|] == st.buffer
  {
    if st.crashed || st.buffer == [] || st.curYear.None? then Outcome(st.files, false)
    else Outcome(st.files + [YearFile(platform, Method2, st.curYear.value, st.buffer)], true)
  }

  /** A crashed run stays crashed, with the files it had written. */
  lemma {:induction false} CrashIsFinal(platform: string, trades: seq<Trade>, n: nat)
    requires AllPriced(trades) && n <= |trades|
    requires AllPriced(trades[..n]) && Replay(platform, trades[..n]).crashed
    ensures Replay(platform, trades).crashed
    ensures Replay(platform, trades).files == Replay(platform, trades[..n]).files
    decreases |trades| - n
  {
    if n < |trades| {
      AllPricedPrefix(trades, n + 1);
      assert trades[..n + 1][..n] == trades[..n];
      CrashIsFinal(platform, trades, n + 1);
    } else {
      assert trades[..n] == trades;
    }
  }

  /** `main` on an already sorted history (`platform` names the input and output files). */
  method RunOffset(platform: string, trades: seq<Trade>) returns (result: Outcome)
    requires AllPriced(trades)
    ensures result == Finish(platform, Replay(platform, trades))
  {
    var ledger := new Ledger();
    var allProfits: seq<Record> := [];
    var curYear: Option<nat> := None;
    var files: seq<ProfitFile> := [];
    for i := 0 to |trades|
      invariant AllPriced(trades[..i])
      invariant Replay(platform, trades[..i]) == Run(ledger.holdings, curYear, allProfits, files, false)
    {
      AllPricedPrefix(trades, i + 1);
      assert trades[..i + 1][..i] == trades[..i];
      var trade := trades[i];
      if curYear.Some? && trade.time.year != curYear.value {
        var written := SummaryYear(allProfits);
        if written.None? {
          CrashIsFinal(platform, trades, i + 1);
          return Outcome(files, false);
        }
        files := files + [ProfitFile(curYear.value, ProfitPath(platform, Method2, curYear.value), written.value)];
        allProfits := [];
      }
      curYear := Some(trade.time.year);
      var profit := ledger.ProcessItem(trade);
      allProfits := allProfits + profit;
    }
    assert trades[..|trades|] == trades;
    var written := SummaryYear(allProfits);
    if written.None? || curYear.None? {
      return Outcome(files, false);
    }
    result := Outcome(files + [ProfitFile(curYear.value, ProfitPath(platform, Method2, curYear.value), written.value)], true);
  }

  // ---------------------------------------------------------------------------
  // What the driver guarantees

  /** Written files are well named and year-pure; buffered records belong to `cur_year`. */
  ghost predicate WellFormed(platform: string, st: Run)
  {
    && (forall f :: f in st.files ==> FileOk(platform, Method2, f))
    && (forall r :: r in st.buffer ==> st.curYear.Some? && r.time.year == st.curYear.value && r.reason != YearTotal)
  }

  lemma {:induction false} ReplayWellFormed(platform: string, trades: seq<Trade>)
    requires AllPriced(trades)
    ensures WellFormed(platform, Replay(platform, trades))
  {
    if trades != [] {
      var init, t := trades[..|trades| - 1], trades[|trades| - 1];
      AllPricedPrefix(trades, |trades| - 1);
      ReplayWellFormed(platform, init);
      ObserveWellFormed(platform, Replay(platform, init), t);
    }
  }

  /** One loop iteration keeps the files well formed and the buffer in the current year. */
  lemma ObserveWellFormed(platform: string, st: Run, t: Trade)
    requires PriceKnown(t) && WellFormed(platform, st)
    ensures WellFormed(platform, Observe(platform, st, t))
  {
    var next := Observe(platform, st, t);
    if !st.crashed && !next.crashed {
      var change := st.curYear.Some? && t.time.year != st.curYear.value;
      var kept := if change then [] else st.buffer;
      var step := OffsetStep(HoldingIn(st.holdings, t.symbol), Normalise(t));
      assert next.buffer == kept + step.records;
      assert forall r :: r in step.records ==> r.time.year == t.time.year && r.reason != YearTotal by {
        assert step.records == [] || step.records == [step.records[0]];
      }
      assert forall r :: r in kept ==> r.time.year == t.time.year && r.reason != YearTotal;
      if change {
        YearFileOk(platform, Method2, st.curYear.value, st.buffer);
        assert next.files == st.files + [YearFile(platform, Method2, st.curYear.value, st.buffer)];
      } else {
        assert next.files == st.files;
      }
    }
  }

  /** Every file the run writes carries one year's rows and that year's name. */
  lemma FilesArePure(platform: string, trades: seq<Trade>)
    requires AllPriced(trades)
    ensures forall f :: f in Finish(platform, Replay(platform, trades)).files ==> FileOk(platform, Method2, f)
  {
    ReplayWellFormed(platform, trades);
    var st := Replay(platform, trades);
    if !(st.crashed || st.buffer == [] || st.curYear.None?) {
      YearFileOk(platform, Method2, st.curYear.value, st.buffer);
    }
  }

  /** How one iteration moves `cur_year` and the written files. */
  lemma ObserveYears(platform: string, st: Run, t: Trade)
    requires PriceKnown(t)
    ensures var next := Observe(platform, st, t);
            && (next.crashed ==> next.files == st.files && next.curYear == st.curYear)
            && (!next.crashed ==> next.curYear == Some(t.time.year) && !st.crashed)
            && (!next.crashed && st.curYear.Some? && t.time.year != st.curYear.value ==>
                  next.files == st.files + [YearFile(platform, Method2, st.curYear.value, st.buffer)])
            && (!next.crashed && !(st.curYear.Some? && t.time.year != st.curYear.value) ==> next.files == st.files)
  {
  }

  lemma {:induction false} ReplayOrdered(platform: string, trades: seq<Trade>)
    requires AllPriced(trades) && Chronological(trades)
    ensures Ordered(Replay(platform, trades).files, Replay(platform, trades).curYear)
    ensures !Replay(platform, trades).crashed && trades != [] ==>
              Replay(platform, trades).curYear == Some(trades[|trades| - 1].time.year)
  {
    if trades != [] {
      var init, t := trades[..|trades| - 1], trades[|trades| - 1];
      AllPricedPrefix(trades, |trades| - 1);
      ChronologicalPrefix(trades, |trades| - 1);
      ReplayOrdered(platform, init);
      var st := Replay(platform, init);
      var next := Observe(platform, st, t);
      assert Replay(platform, trades) == next;
      ObserveYears(platform, st, t);
      if !next.crashed {
        if st.curYear.Some? {
          assert StampLe(init[|init| - 1].time, t.time);
        }
        var flushed := st.curYear.Some? && t.time.year != st.curYear.value;
        OrderedStep(st.files, st.curYear, t.time.year, flushed,
                    YearFile(platform, Method2, if st.curYear.Some? then st.curYear.value else 0, st.buffer));
      }
    }
  }

  /**
   * On a chronological history each year gets at most one file, in increasing
   * order, and a completed run's last file is the last trade's year.
   */
  lemma YearsIncrease(platform: string, trades: seq<Trade>)
    requires AllPriced(trades) && Chronological(trades)
    ensures var files := Finish(platform, Replay(platform, trades)).files;
            forall i, j :: 0 <= i < j < |files| ==> files[i].year < files[j].year
    ensures var out := Finish(platform, Replay(platform, trades));
            out.completed ==> trades != [] && out.files != [] &&
                              out.files[|out.files| - 1].year == trades[|trades| - 1].time.year
  {
    ReplayOrdered(platform, trades);
  }

  /** The ledger and records of the whole history, ignoring year boundaries. */
  datatype Book = Book(holdings: map<string, Holding>, records: seq<Record>)

  /** One trade posted to the book. */
  function Post(b: Book, t: Trade): Book
    requires PriceKnown(t)
  {
    var step := OffsetStep(HoldingIn(b.holdings, t.symbol), Normalise(t));
    Book(b.holdings[t.symbol := step.holding], b.records + step.records)
  }

  /** The ledger over the whole history: every trade's step, records concatenated. */
  function Ledgered(trades: seq<Trade>): Book
    requires AllPriced(trades)
  {
    if trades == [] then Book(map[], [])
    else
      AllPricedPrefix(trades, |trades| - 1);
      Post(Ledgered(trades[..|trades| - 1]), trades[|trades| - 1])
  }

  /** What a non-aborting iteration does to the ledger, the buffer and the files. */
  lemma ObserveBook(platform: string, st: Run, t: Trade)
    requires PriceKnown(t)
    ensures var next, step := Observe(platform, st, t), OffsetStep(HoldingIn(st.holdings, t.symbol), Normalise(t));
            !next.crashed ==>
              && !st.crashed
              && next.holdings == st.holdings[t.symbol := step.holding]
              && (if st.curYear.Some? && t.time.year != st.curYear.value
                  then next.files == st.files + [YearFile(platform, Method2, st.curYear.value, st.buffer)] &&
                       next.buffer == step.records
                  else next.files == st.files && next.buffer == st.buffer + step.records)
  {
  }

  /** A flush moves the buffer into the files' detail; either way the new records follow. */
  lemma FlushOrKeep(platform: string, files: seq<ProfitFile>, buffer: seq<Record>, year: nat, flush: bool,
                    added: seq<Record>)
    requires forall r :: r in buffer ==> r.reason != YearTotal
    ensures var after := if flush then files + [YearFile(platform, Method2, year, buffer)] else files;
            Detail(Flatten(after)) + (if flush then added else buffer + added) ==
              (Detail(Flatten(files)) + buffer) + added
  {
    if flush {
      FlushKeeps(platform, Method2, files, year, buffer);
    }
  }

  /** One iteration keeps the run in step with the book. */
  lemma ObserveKeepsRecords(platform: string, st: Run, t: Trade, b: Book)
    requires PriceKnown(t) && WellFormed(platform, st)
    requires !st.crashed ==> st.holdings == b.holdings && Detail(Flatten(st.files)) + st.buffer == b.records
    ensures var next := Observe(platform, st, t);
            !next.crashed ==> next.holdings == Post(b, t).holdings &&
                              Detail(Flatten(next.files)) + next.buffer == Post(b, t).records
  {
    ObserveBook(platform, st, t);
    if !st.crashed {
      var step := OffsetStep(HoldingIn(b.holdings, t.symbol), Normalise(t));
      var flush := st.curYear.Some? && t.time.year != st.curYear.value;
      FlushOrKeep(platform, st.files, st.buffer, if st.curYear.Some? then st.curYear.value else 0, flush,
                  step.records);
    }
  }

  lemma {:induction false} ReplayKeepsRecords(platform: string, trades: seq<Trade>)
    requires AllPriced(trades)
    ensures var st := Replay(platform, trades);
            !st.crashed ==> st.holdings == Ledgered(trades).holdings &&
                            Detail(Flatten(st.files)) + st.buffer == Ledgered(trades).records
  {
    if trades != [] {
      var init, t := trades[..|trades| - 1], trades[|trades| - 1];
      AllPricedPrefix(trades, |trades| - 1);
      ReplayKeepsRecords(platform, init);
      ReplayWellFormed(platform, init);
      ObserveKeepsRecords(platform, Replay(platform, init), t, Ledgered(init));
    }
  }

  /**
   * A completed run loses no record and invents none: the files' detail rows,
   * summary rows set aside, are exactly the ledger's records over the whole history.
   */
  lemma NothingLost(platform: string, trades: seq<Trade>)
    requires AllPriced(trades)
    ensures var out := Finish(platform, Replay(platform, trades));
            out.completed ==> Detail(Flatten(out.files)) == Ledgered(trades).records
  {
    ReplayKeepsRecords(platform, trades);
    ReplayWellFormed(platform, trades);
    var st := Replay(platform, trades);
    if !(st.crashed || st.buffer == [] || st.curYear.None?) {
      FlushKeeps(platform, Method2, st.files, st.curYear.value, st.buffer);
    }
  }

  /** The signed quantity `process_item` applies for a trade. */
  function SignedQuantity(t: Trade): real
  {
    if t.side == BuyTag then t.quantity else -t.quantity
  }

  /** The sum of a symbol's signed trade quantities. */
  function NetQuantity(trades: seq<Trade>, symbol: string): real
  {
    if trades == [] then 0.0
    else
      var t := trades[|trades| - 1];
      NetQuantity(trades[..|trades| - 1], symbol) + (if t.symbol == symbol then SignedQuantity(t) else 0.0)
  }

  /** A symbol's position is the net of its trades, whatever closes happened. */
  lemma {:induction false} NetPosition(trades: seq<Trade>, symbol: string)
    requires AllPriced(trades)
    ensures HoldingIn(Ledgered(trades).holdings, symbol).quantity == NetQuantity(trades, symbol)
  {
    if trades != [] {
      AllPricedPrefix(trades, |trades| - 1);
      NetPosition(trades[..|trades| - 1], symbol);
    }
  }

  // ---------------------------------------------------------------------------
  // Single fills worked through

  /** From flat, a fill opens at its own price and keeps its fee for the later close. */
  lemma OpenFromFlat(h: Holding, f: Fill)
    requires h.quantity == 0.0 && f.qty != 0.0
    ensures OffsetStep(h, f) == Step(Holding(f.qty, f.price, h.totalFee + f.fee, h.price), [])
  {
    var a := Abs(f.qty);
    assert a != 0.0 && Abs(h.quantity) == 0.0;
    assert OffsetStep(h, f) == Step(Blend(h, f), []);
    assert (h.avgCost * 0.0 + a * f.price) / (a + 0.0) == f.price;
  }

  /** A profit `q * sell - cost` is `q` times the spread between the sale price and the unit cost. */
  lemma SpreadProfit(q: real, sell: real, cost: real)
    requires q != 0.0
    ensures q * sell - cost == q * (sell - cost / q)
  {
    assert q * (cost / q) == cost;
  }

  /**
   * The first fill of a symbol meets the defaultdict's fresh entry: it opens a position
   * of its own signed size at its own price, carries its own fee, and books nothing.
   */
  lemma FirstFillOpens(holdings: map<string, Holding>, f: Fill)
    requires f.symbol !in holdings && f.qty != 0.0
    ensures OffsetStep(HoldingIn(holdings, f.symbol), f) == Step(Holding(f.qty, f.price, f.fee, None), [])
  {
    OpenFromFlat(Fresh, f);
  }

  lemma DivNegate(x: real, y: real)
    requires y != 0.0
    ensures x / (-y) == -(x / y)
  {
    var d := x / y;
    assert d * y == x;
    assert (-d) * (-y) == x;
  }

  lemma Unit(x: real)
    requires x > 0.0
    ensures x / x == 1.0 && Abs(x / x) == 1.0 && Min(x, x) == x
  {
  }

  lemma DivPositive(x: real, y: real)
    requires x > 0.0 && y > 0.0
    ensures x / y > 0.0
  {
  }

  /** The fee share `abs(qty1/qty)` of a positive overlap. */
  lemma AbsRatio(x: real, y: real)
    requires x > 0.0 && y != 0.0
    ensures Abs(x / y) == x / Abs(y)
  {
    if y > 0.0 {
      DivPositive(x, y);
    } else {
      DivNegate(x, -y);
      DivPositive(x, -y);
    }
  }

  /** Buying less than the short: no record, and the fill's whole cost is netted into the short's average. */
  lemma ReduceShort(h: Holding, f: Fill)
    requires h.quantity < 0.0 && 0.0 < f.qty < -h.quantity
    ensures var short, cost := -h.quantity, h.totalFee + f.fee + f.qty * f.price;
            Cover(h, f) ==
              Step(Holding(h.quantity + f.qty, (f.qty * h.avgCost - cost) / (short + f.qty), 0.0, h.price), [])
  {
    assert f.qty / f.qty == 1.0;
  }

  /**
   * Buying back exactly the short of `q`: one 做空了结 record, and the flat position
   * keeps average cost `(q * avg - cost) / (2 * q)`, since the code divides by the
   * quantity minus the fill rather than resetting to 0.
   */
  lemma ExactCover(h: Holding, f: Fill)
    requires h.quantity < 0.0 && f.qty == -h.quantity
    ensures var cost := h.totalFee + f.fee + f.qty * f.price;
            Cover(h, f) ==
              Step(Holding(0.0, (f.qty * h.avgCost - cost) / (2.0 * f.qty), 0.0, h.price),
                   [Record(ShortCovered, f.symbol, h.avgCost, cost / f.qty, f.qty, f.qty * h.avgCost - cost,
                           f.time, f.currency)])
  {
    Unit(f.qty);
    assert -h.quantity + f.qty == 2.0 * f.qty;
    var cost := h.totalFee + f.fee + f.qty * f.price;
    var r := Cover(h, f);
    assert r.holding == Holding(0.0, (f.qty * h.avgCost - cost) / (2.0 * f.qty), 0.0, h.price);
    assert r.records == [r.records[0]];
    assert r.records[0] == Record(ShortCovered, f.symbol, h.avgCost, cost / f.qty, f.qty, f.qty * h.avgCost - cost,
                                  f.time, f.currency);
  }

  /**
   * Buying more than the short: the short is covered, the rest is long with the
   * fee share of the rest pending; the average cost is left at the short's and the
   * fill price is stored under `price`.
   */
  lemma FlipToLong(h: Holding, f: Fill)
    requires h.quantity < 0.0 && f.qty > -h.quantity
    ensures var cost := h.totalFee + (-h.quantity) / f.qty * f.fee + (-h.quantity) * f.price;
            Cover(h, f) ==
              Step(Holding(f.qty + h.quantity, h.avgCost, (f.qty + h.quantity) / f.qty * f.fee, Some(f.price)),
                   [Record(ShortCovered, f.symbol, h.avgCost, cost / (-h.quantity), -h.quantity,
                           (-h.quantity) * h.avgCost - cost, f.time, f.currency)])
  {
    AbsRatio(-h.quantity, f.qty);
    assert Abs(h.quantity) == -h.quantity;
    assert Min(f.qty, -h.quantity) == -h.quantity;
    assert f.qty - -h.quantity == f.qty + h.quantity;
    var cost := h.totalFee + (-h.quantity) / f.qty * f.fee + (-h.quantity) * f.price;
    var r := Cover(h, f);
    assert r.holding == Holding(f.qty + h.quantity, h.avgCost, (f.qty + h.quantity) / f.qty * f.fee, Some(f.price));
    assert r.records == [r.records[0]];
    assert r.records[0] == Record(ShortCovered, f.symbol, h.avgCost, cost / (-h.quantity), -h.quantity,
                                  (-h.quantity) * h.avgCost - cost, f.time, f.currency);
  }


  /** Selling less than the long: no record, and the average is what the cost leaves after the proceeds. */
  lemma ReduceLong(h: Holding, f: Fill)
    requires h.quantity > 0.0 && 0.0 < -f.qty < h.quantity
    ensures var sold, cost := -f.qty, h.totalFee + f.fee + h.quantity * h.avgCost;
            Sell(h, f) ==
              Step(Holding(h.quantity - sold, (cost - sold * f.price) / (h.quantity - sold), 0.0, h.price), [])
  {
    var sold := -f.qty;
    assert sold / f.qty == -1.0;
    assert Abs(sold / f.qty) == 1.0;
  }

  /**
   * Selling more than the long: the long is closed, the rest is short at the fill
   * price with the fee share of the rest pending.
   */
  lemma FlipToShort(h: Holding, f: Fill)
    requires h.quantity > 0.0 && -f.qty > h.quantity
    ensures var cost := h.totalFee + h.quantity / (-f.qty) * f.fee + h.quantity * h.avgCost;
            Sell(h, f) ==
              Step(Holding(h.quantity + f.qty, f.price, (-f.qty - h.quantity) / (-f.qty) * f.fee, h.price),
                   [Record(LongClosed, f.symbol, f.price, cost / h.quantity, h.quantity, h.quantity * f.price - cost,
                           f.time, f.currency)])
  {
    AbsRatio(h.quantity, f.qty);
    assert Min(-f.qty, h.quantity) == h.quantity;
    assert h.quantity - -f.qty == h.quantity + f.qty;
    var cost := h.totalFee + h.quantity / (-f.qty) * f.fee + h.quantity * h.avgCost;
    var r := Sell(h, f);
    assert r.holding == Holding(h.quantity + f.qty, f.price, (-f.qty - h.quantity) / (-f.qty) * f.fee, h.price);
    assert r.records == [r.records[0]];
    assert r.records[0] == Record(LongClosed, f.symbol, f.price, cost / h.quantity, h.quantity,
                                  h.quantity * f.price - cost, f.time, f.currency);
  }


  /** Selling exactly the long position resets average cost and fee to zero. */
  lemma ExactLongCloseResets(h: Holding, f: Fill)
    requires h.quantity > 0.0 && f.qty == -h.quantity
    ensures OffsetStep(h, f).holding == Holding(0.0, 0.0, 0.0, h.price)
    ensures OffsetStep(h, f).records ==
      [Record(LongClosed, f.symbol, f.price, (h.totalFee + f.fee + h.quantity * h.avgCost) / h.quantity, h.quantity,
              h.quantity * f.price - (h.totalFee + f.fee + h.quantity * h.avgCost), f.time, f.currency)]
  {
    var q := h.quantity;
    assert q / q == 1.0;
    assert q / f.qty == q / (-q) == -1.0;
    assert Min(-f.qty, q) == q;
    assert Abs(q / f.qty) * f.fee == f.fee;
    var r := Sell(h, f);
    assert OffsetStep(h, f) == r;
    assert r.holding == Holding(0.0, 0.0, 0.0, h.price);
    assert |r.records| == 1;
    assert r.records[0].costPrice == (h.totalFee + f.fee + h.quantity * h.avgCost) / h.quantity;
    assert r.records[0].profit == h.quantity * f.price - (h.totalFee + f.fee + h.quantity * h.avgCost);
  }

  /**
   * Buying back exactly a short of 100 at 10 with 100 at 9 (no fees) books 100 of
   * profit but leaves the flat position with an average cost of 0.5, not 0.
   */
  lemma ExactCoverLeavesCost(t: Stamp)
    ensures OffsetStep(Holding(-100.0, 10.0, 0.0, None), Fill("X", 100.0, 9.0, 0.0, "USD", t)) ==
            Step(Holding(0.0, 0.5, 0.0, None), [Record(ShortCovered, "X", 10.0, 9.0, 100.0, 100.0, t, "USD")])
  {
    assert Abs(100.0 / 100.0) == 1.0;
  }

  /**
   * Sell 100 at 10 (fee 1) from flat, then buy 150 at 9 (fee 1.5): the cover charges
   * the whole earlier fee plus 100/150 of the new one, 902 in all, for a profit of
   * 98; the remaining 50 are long with 0.5 of fee, the average cost still the
   * short's 10 and the fill price stored under "price".
   */
  lemma CoverAndFlip(t0: Stamp, t1: Stamp)
    ensures var short := OffsetStep(Fresh, Fill("X", -100.0, 10.0, 1.0, "USD", t0));
            && short == Step(Holding(-100.0, 10.0, 1.0, None), [])
            && OffsetStep(short.holding, Fill("X", 150.0, 9.0, 1.5, "USD", t1)) ==
               Step(Holding(50.0, 10.0, 0.5, Some(9.0)), [Record(ShortCovered, "X", 10.0, 9.02, 100.0, 98.0, t1, "USD")])
  {
    OpenFromFlat(Fresh, Fill("X", -100.0, 10.0, 1.0, "USD", t0));
    assert Abs(100.0 / 150.0) == 100.0 / 150.0;
    assert 100.0 / 150.0 * 1.5 == 1.0;
    assert 50.0 / 150.0 * 1.5 == 0.5;
  }

  /** An option's price is taken per contract of 100: 2.50 becomes 250. */
  lemma OptionPriceScaled(t: Trade)
    requires t.symbol == "AAPL240119C00150000.US" && t.price == Some(2.5)
    ensures Normalise(t).price == 250.0
  {
    AaplCallIsOption();
    IsOptionSymbolMatches(t.symbol);
  }

  /** A history without any close aborts at the final flush and writes nothing. */
  lemma OpenOnlyWritesNothing(platform: string, t: Trade)
    requires t.side == BuyTag && t.price.Some? && t.quantity > 0.0
    ensures Finish(platform, Replay(platform, [t])) == Outcome([], false)
  {
    assert [t][..0] == [];
  }
}
