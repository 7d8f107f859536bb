# Realised-profit engines and their yearly report

This project models the tax-computation core of a personal brokerage toolkit.
The core takes a brokerage's trade history, sorted by execution time, and keeps a ledger per symbol.
Each fill either opens, extends, reduces, closes or flips a position.
Closing a position yields a realised-profit record.
In the offset engine only a fill that closes the whole position (exactly, or flipping it) books one; a partial cover or reduction books nothing (get_tax2.py:30, 61).
In the moving-average engine every sell against a long position books one, a partial sale included (get_tax_moving_avg.py:44-69).
At every change of calendar year the records of the past year are written to a profit file.
That file carries two summary rows (年度汇总) per settlement currency.
按年度计算 is the sum of all profits; 按单次计算 is the sum of the positive ones only.
A separate report reads all profit files back, recovers platform, method and year from each file name, and sums the summary rows per method, tag, year and currency.

There are two accounting conventions:

- **offset** (`get_tax2.py`, module `OffsetEngine`). A fill against an opposite position closes it against the position's average cost. The position's fee share and a proportional part of the fill's fee are charged to the close. A fill larger than the position flips it.
- **moving average** (`get_tax_moving_avg.py`, module `MovingAverage`). A buy folds its price and fee into the average cost. A sell realises `min(sold, held)` at that average, net of a proportional fee share. The quantity always drops by the whole sale.

Modules:

- `Wrappers`: `Option`.
- `Text`: string split, join and basename, plus lexicographic order on strings; decimal rendering of a year.
- `Trades`: trade and profit rows, the tag constants, and the profit-file path `data/<platform>_<method>_profit_<year>.csv`.
- `OptionSymbol`: the option-symbol regular expression `([A-Z]+)(\d{6})([CP])(\d+).US` as used by `re.match`, i.e. anchored at the start only.
- `YearSummary`: the `summary_year` grouping that both engines share, and the year-file helpers.
- `OffsetEngine`, `MovingAverage`: the two engines, each with a `Ledger` class whose `holdings` map the handlers update in place, and its `main` loop.
- `Report`: the report script.

Each driver loop (`RunOffset`, `RunMovingAvg`) is an imperative method proved equal to a left fold (`Replay`/`Finish`) over the trades.
The properties of the drivers are lemmas about that fold:

- year files come in strictly increasing year order, each named correctly and holding only its own year's rows;
- no record is lost or invented across the year boundaries;
- a symbol's final quantity is the net signed quantity of its trades.

The offset engine's position arithmetic, as `get_tax2.py` computes it:

- A buy that exactly covers a short of `q` leaves the flat position with average cost `(q * avg - cost) / (2 * q)`, where `cost` is the cover's charged cost (lines 47-48; `ExactCover`, and `ExactCoverLeavesCost` for 100@10 covered with 100@9, which leaves 0.5). A sell that exactly closes a long resets the average cost to 0 (lines 78-79; `ExactLongCloseResets`).
- A buy that covers a short and flips to long keeps the short's `avg_cost` and stores the fill price under a separate `price` key (lines 43-45; `FlipToLong`).
- A sell that closes a long and flips to short sets `avg_cost` to the fill price and `total_fee` to `fee * |delta| / |qty|` (lines 74-76; `FlipToShort`).
- Selling 100@10 (fee 1) from flat and then buying 150@9 (fee 1.5) books one 做空了结 record with cost 902 (cost price 9.02) and profit 98 (`CoverAndFlip`).
- `summary_year` on an empty year raises a pandas `KeyError`, so the model ends the run there (`crashed`, `Outcome.completed == false`). That happens at a year change after a year without closed positions, and at the end when the last year has none.

## Model

| member | source | states |
|---|---|---|
| Text.Split | report.py:13 | `str.split` on one character: at least one piece, none holding the separator, joined back they give the input |
| Text.SplitJoin | report.py:13 | splitting the join of separator-free pieces gives the pieces back |
| Text.SplitPrefix | report.py:13 | a separator-free prefix is glued onto the first piece |
| Text.Basename | report.py:12 | the base name is the part of the path after its last `/`: a suffix of the path holding no `/`, preceded by a `/` whenever it is not the whole path |
| Text.JoinEndsWithLast | report.py:12 | a join ends with its last piece, preceded by the separator when there are two pieces or more |
| Text.BasenameAfterSlash | report.py:12 | the base name of `dir + "/" + name` is `name` for any `/`-free name |
| Text.SortedDistinct | get_tax2.py:92 | the groupby key order: ascending in Python's string order, holding exactly the values that occur |
| Text.InsertKey | get_tax2.py:92 | inserting a key into an ascending key list keeps it ascending and adds exactly that key |
| Text.AscendingUnique | get_tax2.py:92 | two ascending lists with the same elements are equal, so the key order is determined |
| Text.StrLtTotal | get_tax2.py:92 | two distinct strings are ordered one way or the other |
| Text.StrLtTransitive | get_tax2.py:92 | Python's string order is transitive |
| Text.StrLtIrreflexive | get_tax2.py:92 | no string is below itself |
| Text.YearText | get_tax2.py:125 | the rendered year is a non-empty run of decimal digits |
| Text.YearTextValue | get_tax2.py:125 | read back as a decimal number, the rendered year is the year itself |
| Text.YearTextInjective | get_tax2.py:125 | distinct years are rendered differently |
| Text.YearTextFourDigits | get_tax2.py:125 | years 1000 to 9999 are rendered with exactly four digits, as `%Y` renders them |
| OptionSymbol.IsOptionSymbol | get_tax2.py:7-15 | `is_option`: an accepted symbol has at least twelve characters and starts with an upper-case letter; `IsOptionSymbolMatches` gives the exact set of accepted symbols |
| OptionSymbol.IsOptionSymbolMatches | get_tax2.py:7 | the executable matcher accepts a symbol exactly when it has the shape of the option regex matched from the start (soundness and completeness) |
| OptionSymbol.MatcherSound | get_tax2.py:7 | every accepted symbol has the pattern's shape: upper letters, six digits, C or P, digits, any character, `US` |
| OptionSymbol.MatcherComplete | get_tax2.py:7 | every symbol of that shape is accepted |
| OptionSymbol.RootAndDate | get_tax2.py:7 | in a match the root is the whole leading run of letters and six date digits follow it |
| OptionSymbol.StrikeAndSuffix | get_tax2.py:7 | after C or P, a strike of one digit or more, one non-newline character and `US` pass the scanner's test |
| OptionSymbol.AaplCallIsOption | get_tax2.py:7-15 | an OCC-style call symbol such as `AAPL240119C00150000.US` counts as an option |
| OffsetEngine.FirstFillOpens | get_tax2.py:22 | a symbol's first fill reads the defaultdict's default entry (get_tax2.py:129) through `HoldingIn`, opens a position of its own signed size at its own price with its own fee, and books nothing |
| OffsetEngine.HoldingInUpdate | get_tax2.py:22 | a holding stored for a symbol is read back for it, and every other symbol reads as before |
| OffsetEngine.Normalise | get_tax2.py:8-21 | only the exact tag `OrderSide.Buy` gives a positive quantity, every other side a negative one; option prices are scaled by 100, a NaN option price becomes 0, other prices pass unchanged |
| OffsetEngine.OptionPriceScaled | get_tax2.py:17-21 | an option quoted at 2.5 is booked at 250 |
| OffsetEngine.OffsetStep | get_tax2.py:22-87 | the quantity moves by exactly the signed fill; at most one record; a record exactly when an opposing fill closes or flips the whole position, for the old position's absolute size (no larger than the fill) at profit quantity × (sale price − cost price) with the right reason; a buy against a short is `Cover`, a sell against a long is `Sell`, any other non-zero fill is `Blend` with no record; a zero fill changes nothing |
| OffsetEngine.Blend | get_tax2.py:50-85 | a fill from flat or in the position's direction adds its signed quantity and its fee, keeps `price`, and sets the average so that average × (|fill| + |position|) is the old cost basis plus |fill| × price |
| OffsetEngine.Cover | get_tax2.py:26-49 | a buy against a short moves the quantity by the fill; a 做空了结 record exactly when the buy is at least the short, for the short's size, sale price the short's average cost, cost price (pending fee + fee share + size × fill price) / size, profit size × (sale − cost) |
| OffsetEngine.Sell | get_tax2.py:57-80 | a sell against a long moves the quantity by the fill; a 做多了结 record exactly when the sale is at least the long, for the long's size, sale price the fill price, cost price (pending fee + fee share + size × average) / size, profit size × (sale − cost) |
| OffsetEngine.ReduceShort | get_tax2.py:26-49 | buying less than the short books nothing, clears the pending fee, and nets the fill's whole cost into the remaining short's average |
| OffsetEngine.ExactCover | get_tax2.py:26-49 | buying exactly a short of q books one 做空了结 record for q and leaves the flat position with average (q × avg − cost) / (2q) and no pending fee |
| OffsetEngine.FlipToLong | get_tax2.py:26-49 | buying more than the short books one 做空了结 record for the short, leaves the rest long with the short's average cost, fee share rest / fill × fee, and the fill price under `price` |
| OffsetEngine.ReduceLong | get_tax2.py:57-80 | selling less than the long books nothing, clears the pending fee, and sets the average to (cost − sold × price) / remaining |
| OffsetEngine.FlipToShort | get_tax2.py:57-80 | selling more than the long books one 做多了结 record for the long, leaves the rest short at the fill price as average cost, with fee share rest / sale × fee |
| OffsetEngine.CoverShort | get_tax2.py:26-49 | the buy-against-short branch returns the holding and records of the cover specification (overlap, fee share, 做空了结 record on a full cover, flip or remaining short) |
| OffsetEngine.AddBuy | get_tax2.py:50-54 | a buy on a flat or long position blends its price into the average cost and adds its fee |
| OffsetEngine.CloseLong | get_tax2.py:57-80 | the sell-against-long branch returns the holding and records of the sell specification (做多了结 on a full close, flip to short at the fill price, or remaining long) |
| OffsetEngine.AddSell | get_tax2.py:81-85 | a sell on a flat or short position blends its price into the average cost and adds its fee |
| OffsetEngine.Ledger.ProcessItem | get_tax2.py:6-87 | only the fill's symbol is updated, to the step's new holding (a first access inserts the default entry), and the step's records are returned |
| OffsetEngine.OpenFromFlat | get_tax2.py:50-85 | from flat, a fill opens at its own price, keeps the earlier fee plus its own, and writes no record |
| OffsetEngine.ExactLongCloseResets | get_tax2.py:57-80 | selling exactly the long position leaves quantity, average cost and pending fee at 0 and books one 做多了结 record with the full cost charged |
| OffsetEngine.ExactCoverLeavesCost | get_tax2.py:26-49 | covering a short of 100@10 with 100@9 books profit 100 but leaves average cost 0.5 on the flat position |
| OffsetEngine.CoverAndFlip | get_tax2.py:26-49 | sell 100@10 (fee 1) then buy 150@9 (fee 1.5) books cost price 9.02 and profit 98, leaving 50 long with fee 0.5, average cost 10 and `price` 9 |
| OffsetEngine.SummaryYear | get_tax2.py:89-118 | an empty year raises (None); any other year is written as its records followed by the summary rows |
| OffsetEngine.RunOffset | get_tax2.py:121-137 | the loop flushes on each change of year and once more unconditionally at the end, and yields `Finish(Replay(trades))` |
| OffsetEngine.Observe | get_tax2.py:130-136 | once aborted, nothing changes; otherwise the run aborts exactly on a change of year with no records, which writes nothing and empties the buffer; a live run has `cur_year` the trade's year; files only grow, by at most one |
| OffsetEngine.Replay | get_tax2.py:126-136 | an aborted run has an empty buffer; a live one has `cur_year` the last trade's year (none for no trades); at most one file per trade |
| OffsetEngine.Finish | get_tax2.py:137 | the final flush completes exactly when the run is live with records and a year, adding one file, of that year and starting with the records; otherwise the files stay |
| OffsetEngine.ObserveWellFormed | get_tax2.py:130-136 | one loop iteration keeps every file well named and year-pure and the buffer in the current year |
| OffsetEngine.CrashIsFinal | get_tax2.py:131-132 | once an empty year has aborted the run, later trades change neither that nor the files written |
| OffsetEngine.ReplayWellFormed | get_tax2.py:130-136 | every written file has the `method2` path of its year and holds only that year's rows; the buffer only holds the current year's records |
| OffsetEngine.FilesArePure | get_tax2.py:132-137 | every file of the run has the `method2` path of its year and only rows of that year |
| OffsetEngine.ReplayOrdered | get_tax2.py:128-134 | on a chronological history, the written years strictly increase and stay below `cur_year`, which is the last trade's year |
| OffsetEngine.YearsIncrease | get_tax2.py:121-137 | at most one file per year, in increasing order; a completed run's last file is the last trade's year |
| OffsetEngine.ObserveBook | get_tax2.py:130-136 | one loop iteration updates the ledger exactly as one step of the whole-history ledger |
| OffsetEngine.ObserveKeepsRecords | get_tax2.py:130-136 | one loop iteration keeps the files' detail rows plus the buffer equal to the ledger's records |
| OffsetEngine.ReplayKeepsRecords | get_tax2.py:130-136 | along the run, the holdings are those of the whole-history ledger and files plus buffer hold exactly its records |
| OffsetEngine.NothingLost | get_tax2.py:121-137 | a completed run's files, summary rows set aside, contain exactly the ledger's records in order: the year boundaries lose and invent nothing |
| OffsetEngine.NetPosition | get_tax2.py:10-85 | a symbol's final quantity is the sum of its trades' signed quantities |
| OffsetEngine.OpenOnlyWritesNothing | get_tax2.py:137 | a history with one opening buy closes nothing and aborts at the final flush without any file |
| OffsetEngine.AllPricedPrefix | get_tax2.py:17-21 | prefixes of a history without NaN stock prices have none either |
| Trades.ChronologicalPrefix | get_tax2.py:126 | prefixes of a history sorted by time (`Chronological`) are sorted |
| Trades.ChronologicalYears | get_tax2.py:125-126 | in a history sorted by time the year column never decreases |
| Trades.StampLeTotalOrder | get_tax2.py:126 | the order on execution times (`StampLe`) is reflexive, total, antisymmetric and transitive |
| Trades.MinIsSmaller | get_tax_moving_avg.py:44 | `min` returns the smaller of its arguments, and the first one on a tie |
| Trades.ProfitPath | get_tax2.py:132 | the year file's path starts with `data/` and ends with `.csv` |
| OffsetEngine.ObserveYears | get_tax2.py:131-134 | a loop iteration either sets `cur_year` to the trade's year, flushing the old year exactly on a change, or aborts |
| MovingAverage.FirstTradeOpens | get_tax_moving_avg.py:16 | a symbol's first trade reads the defaultdict's flat entry (get_tax_moving_avg.py:137) through `PositionIn`: a buy opens at price plus fee per unit, and a sell goes short by its size and books nothing |
| MovingAverage.PositionInUpdate | get_tax_moving_avg.py:38 | a position stored for a symbol is read back for it, and every other symbol reads as before |
| MovingAverage.BuyStep | get_tax_moving_avg.py:16-23 | a buy adds its quantity; when the result is long, average × quantity equals the old cost basis plus price × quantity plus fee; otherwise the average is 0 |
| MovingAverage.Ledger.ProcessBuy | get_tax_moving_avg.py:6-23 | only the trade's symbol is updated, to the buy step |
| MovingAverage.BuyFromFlat | get_tax_moving_avg.py:19-22 | a buy from flat costs its price plus the fee per unit |
| MovingAverage.SellStep | get_tax_moving_avg.py:38-72 | the quantity drops by the whole sale and the average never moves; a 平仓了结 record exactly when sale and position are both positive, for min(sold, held), at profit quantity × (price − average) − fee × share, with share in (0, 1] |
| MovingAverage.Ledger.ProcessSell | get_tax_moving_avg.py:26-72 | only the trade's symbol is updated, to the sell step's position, and the step's records are returned |
| MovingAverage.Oversell | get_tax_moving_avg.py:44-69 | selling 150 of a 100@10 position at 12 books profit 200 on 100 and leaves −50 at the old average 10 |
| MovingAverage.SummaryYear | get_tax_moving_avg.py:75-113 | an empty year writes nothing; any other year writes its records and summary rows to the `moving_avg` path of that year |
| MovingAverage.RunMovingAvg | get_tax_moving_avg.py:116-166 | the loop dispatches on the two exact side tags, flushes on each change of year and at the end only if a trade was seen, and yields `Finish(Replay(trades))` |
| MovingAverage.Dispatch | get_tax_moving_avg.py:154-160 | an unknown side tag changes nothing; only a sell adds records, at most one, to the end of the buffer; other symbols keep their positions and no symbol but the trade's is added |
| MovingAverage.Observe | get_tax_moving_avg.py:142-160 | `cur_year` becomes the trade's year; files grow by at most one; after a change of year the buffer holds at most the new record; without one the files stay and the buffer only grows |
| MovingAverage.Flush | get_tax_moving_avg.py:144-149 | `summary_year` adds one file exactly for a non-empty year, of that year and starting with the records, and keeps the earlier files |
| MovingAverage.Replay | get_tax_moving_avg.py:139-160 | `cur_year` is the last trade's year (none for no trades); at most one file per trade |
| MovingAverage.Finish | get_tax_moving_avg.py:162-166 | the final flush keeps the earlier files and adds one exactly when a trade was seen and the last year has records |
| MovingAverage.UnknownSideIgnored | get_tax_moving_avg.py:154-160 | a trade with any other side tag leaves ledger and buffer alone but still opens its year (and so can flush the previous one) |
| MovingAverage.FlushOk | get_tax_moving_avg.py:144-149 | flushing a year of that year's records keeps every file well named and year-pure |
| MovingAverage.ObserveShape | get_tax_moving_avg.py:142-160 | one iteration flushes exactly on a year change, sets `cur_year`, and appends only the sell's records |
| MovingAverage.ReplayWellFormed | get_tax_moving_avg.py:142-160 | every written file has the `moving_avg` path of its year and only that year's rows; the buffer holds only the current year |
| MovingAverage.FilesArePure | get_tax_moving_avg.py:142-166 | every file of the run is well named and year-pure |
| MovingAverage.ReplayOrdered | get_tax_moving_avg.py:139-151 | on a chronological history, written years strictly increase below `cur_year`, the last trade's year |
| MovingAverage.YearsIncrease | get_tax_moving_avg.py:116-166 | at most one file per year, in increasing order; when the last year has records, the last file is that year |
| MovingAverage.DispatchAppends | get_tax_moving_avg.py:154-160 | dispatching a trade only appends to the year's records |
| MovingAverage.ReplayKeepsRecords | get_tax_moving_avg.py:142-160 | along the run, the holdings are the whole-history ledger's and files plus buffer hold exactly its records |
| MovingAverage.NothingLost | get_tax_moving_avg.py:116-166 | the files, summary rows set aside, contain exactly the ledger's records in order |
| MovingAverage.NetPosition | get_tax_moving_avg.py:23-69 | a symbol's final quantity is its bought minus its sold quantity |
| MovingAverage.AllPricedPrefix | get_tax_moving_avg.py:154-159 | prefixes of a history whose buys and sells have prices have them too |
| YearSummary.Summarise | get_tax2.py:92-115 | the loop over the currency groups appends exactly the summary rows after the records |
| YearSummary.AppendCurrency | get_tax2.py:93-115 | one loop iteration appends the 按年度计算 and 按单次计算 rows of its currency |
| YearSummary.OfCurrency | get_tax2.py:92 | a currency's sub-frame holds only the year's rows of that currency, and no more than there are rows |
| YearSummary.SummaryRows | get_tax2.py:92-115 | two summary rows per currency group, all of them 年度汇总 |
| YearSummary.YearFile | get_tax2.py:117-118 | the written file has the year's path and starts with the year's records; its non-summary rows are exactly theirs |
| YearSummary.Groups | get_tax2.py:92 | the groupby keys are each currency of the records once, in ascending order |
| YearSummary.GroupsNonEmpty | get_tax_moving_avg.py:84 | every group has at least one record, so `iloc[-1]` exists |
| YearSummary.OfCurrencyHas | get_tax2.py:92 | each record is in its currency's group |
| YearSummary.OfCurrencyLast | get_tax2.py:101-113 | the last record of a currency is the last row of its group, so `LastTime`, the `iloc[-1]` 时间 of the summary rows, is that record's time |
| YearSummary.OfCurrencyCount | get_tax2.py:92 | a currency's group has exactly one row per record of that currency |
| YearSummary.IndicesOfSnoc | get_tax2.py:92 | appending a record adds its index to its currency's index set only |
| YearSummary.SummaryShape | get_tax_moving_avg.py:84-109 | two rows per currency, in key order: 按年度计算 with the sum of all profits and 按单次计算 with the sum of the positive ones, both stamped with the group's last time |
| YearSummary.SummaryAddsUp | get_tax2.py:92-115 | the 按年度计算 rows add up to the year's total profit and the 按单次计算 rows to its positive profit, over all currencies |
| YearSummary.ProfitSum | get_tax2.py:93-105 | the sum of the positive profits is never negative |
| YearSummary.PositiveSumDominates | get_tax_moving_avg.py:86-99 | the 按单次计算 figure is at least the 按年度计算 one |
| YearSummary.SummaryKeepsYear | get_tax2.py:101-113 | summary rows carry the year of the records they summarise |
| YearSummary.DetailOfWritten | get_tax_moving_avg.py:112 | without the 年度汇总 rows, a written file is exactly the year's records |
| YearSummary.YearFileOk | get_tax_moving_avg.py:146-147 | a year file for records of that year is named for the year and holds only that year's rows |
| YearSummary.OrderedStep | get_tax2.py:131-134 | flushing on a year change to a later year keeps the written years increasing and below `cur_year` |
| YearSummary.FlushKeeps | get_tax2.py:132-133 | appending a year file adds exactly the flushed records to the detail rows of all files |
| YearSummary.TagsDiffer | get_tax2.py:96-108 | the two summary tags are distinct |
| Report.ParseName | report.py:12-22 | a name is parsed exactly when its stem has four or five `_` parts; platform and year then hold no `_`; the method holds one exactly for five parts; which part lands in which field is stated by `ParsesFourPartName` and `ParsesFivePartName` |
| Report.StemParts | report.py:12-13 | the parts, none holding `_`, join back with `_` to the base name's text before its first `.`, and that text holds no `.` |
| Report.StemOfName | report.py:12-13 | for `dir/stem.ext` with `stem` free of `/` and `.`, the text before the base name's first `.` is `stem` |
| Report.ParsesFourPartName | report.py:12-17 | `dir/p_m_t_y.ext` parses to platform `p`, method `m` and year `y` |
| Report.ParsesFivePartName | report.py:12-20 | `dir/p_m1_m2_t_y.ext` parses to platform `p`, method `m1_m2` and year `y` |
| Report.Entries | report.py:23-34 | at most one entry per row, each labelled with the name's platform, method and year |
| Report.Collected | report.py:10-34 | every collected entry's platform and year are free of `_` |
| Report.ParsesOffsetName | report.py:12-20 | the offset engine's file name parses back to its platform, `method2` and the year |
| Report.ParsesMovingAvgName | report.py:12-20 | the moving-average engine's file name parses back to its platform, `moving_avg` and the year |
| Report.MovingAvgStem | report.py:18-20 | `moving_avg` occupies two `_` parts of the moving-average engine's stem |
| Report.Collect | report.py:10-34 | the loop over the files skips unparsable names and appends one entry per 年度汇总 row, labelled with the name's fields |
| Report.CollectRows | report.py:25-34 | the loop over one file's rows appends the entries of exactly its 年度汇总 rows, in order |
| Report.CollectedStep | report.py:10-34 | one iteration of the file loop appends nothing for an unparsable name and otherwise that file's entries |
| Report.DetailContributesNothing | report.py:25 | rows of any other 配对原因 add no entry |
| Report.EntriesFromSummaries | report.py:25-34 | every entry is `EntryOf` a 年度汇总 row of its file: the name's 平台, 方式 and 年份 with that row's 币种, 股票代码 and 利润 |
| Report.GroupSum | report.py:45-46 | the per-(year, currency) sums of the entries with the given method and tag, keyed exactly by the pairs that occur |
| Report.Grouped | report.py:45-46 | every selected entry's (year, currency) is a key, and each key maps to the sum of the selected entries of that pair |
| Report.GroupedKeys | report.py:45-46 | every key of the grouped map is the (year, currency) of a selected entry (`KeysOf`) |
| Report.SumOfAbsent | report.py:46 | a (year, currency) pair without entries sums to 0 (`SumOf` is the group's 利润 sum) |
| Report.SumOfAppend | report.py:46 | the group sum of two entry lists joined is the sum of their group sums |
| Report.Tabulate | report.py:37-46 | an empty entry list raises (None); otherwise one table per distinct method and distinct tag, in order of first appearance |
| Report.TabulateMethod | report.py:43-46 | the inner loop yields one table per tag for its method, in tag order |
| Report.RowOfTables | report.py:43-46 | one table per tag, the j-th holding that tag's grouped sums |
| Report.TablesFor | report.py:42-46 | the nested loops print one table per method and tag |
| Report.TablesForAt | report.py:42-46 | the table of the i-th method and j-th tag is printed at position i × (number of tags) + j, holding that pair's grouped sums |
| Report.TablesSound | report.py:42-46 | every table is for a listed method and tag and holds exactly that pair's grouped sums |
| Report.Unique | report.py:39-40 | `unique()` keeps each value exactly once and no other, in order of first appearance |
| Report.FirstIndex | report.py:39-40 | the index of a value's first occurrence: it holds the value and no earlier position does |
| Report.EveryPairTabulated | report.py:39-46 | every method and every tag that occurs get their table together |
| Report.ReportsYearFile | report.py:10-46 | for an engine's year file, the report's figure for that year and a currency of its records is that currency's total profit (按年度计算) or positive profit (按单次计算) |
| Report.CollectsYearFile | report.py:10-34 | reading back an engine's year file yields the entries of exactly its summary rows |
| Report.SumOfSummary | report.py:45-46 | the summary rows of distinct currencies give each currency its own sum |
| Report.SummarySum | report.py:25-46 | the summary rows of a year, read back, give any currency its total or positive profit, 0 for a currency without records |
| Report.YearFileEntries | report.py:10-46 | an engine year file read back sums for each currency to its profit, and has its key when the currency has records |
| Report.PlatformsAddUp | report.py:45-46 | two platforms' year files of the same method and year add up, currency by currency, in one group |

## Left out

- Reading and writing CSV files, `pandas`, `glob`, directory creation, the missing-history message and all printing are outside the model. A file is a path plus its list of rows, and the report's printed tables are maps.
- The stable sort by execution time and the year column are inputs. The drivers take the already sorted history, and a `Stamp` carries the calendar year of its time. The order properties assume `Chronological`.
- The export and download modules, and the broker data formats they handle, are not part of this model. The side tags and the tuple of trade fields are taken as given.
- Floating point is modelled as exact real arithmetic: no rounding, no infinities, and no NaN except for an option's price (`Option<real>`). A NaN price of a non-option stock (offset engine), or of a dispatched buy or sell (moving average), is excluded by the drivers' `AllPriced` precondition. Division by a zero quantity cannot occur on the modelled branches.
- `\d` in the option regex is modelled as the ASCII digits only.
- `YearText` renders a year without zero padding. It agrees with `strftime('%Y')` for years 1000 to 9999 (`YearTextFourDigits`, `YearTextValue`), and earlier years are not padded to four digits.
- Aliasing: `summary_year` appends the summary rows to the caller's `all_profits` list in place. `main` rebinds that list straight afterwards, so the model returns the new rows instead.
- `Report.GroupSum`: the result is a map, so the row order of the grouped frame (sorted by year, then currency) is not modelled.
- `Report.Tabulate`: the pandas `KeyError` for a frame without entries is modelled as `None`, so that the script's crash is a value.
- The report's entries carry no `时间`: the script does not copy that column into `results` (report.py:27-34), and neither does `Report.Entry`.
- The report groups on (年份, 币种) only (report.py:46). So the files of different platforms for the same method, year and currency are summed into one figure (`Report.PlatformsAddUp`), and 平台 is carried in each entry but never looked at.
