/**
 * The per-currency yearly summary both engines append to a year's profit rows
 * before writing them (`summary_year`): pandas groups the rows by 结算币种 in
 * ascending key order and, per currency, adds a 按年度计算 row with the sum of every
 * 利润 and a 按单次计算 row with the sum of the positive ones, both stamped with
 * the time of that currency's last row.
 */
module YearSummary {
  import opened Wrappers
  import opened Text
  import opened Trades

  /** The 结算币种 column. */
  function Currencies(rs: seq<Record>): (cs: seq<string>)
    ensures |cs| == |rs|
    ensures forall i :: 0 <= i < |rs| ==> cs[i] == rs[i].currency
  {
    seq(|rs|, i requires 0 <= i < |rs| => rs[i].currency)
  }

  /** The rows of one currency in their original order: one groupby sub-frame. */
  function OfCurrency(rs: seq<Record>, c: string): (sub: seq<Record>)
    ensures |sub| <= |rs|
    ensures forall r :: r in sub ==> r in rs && r.currency == c
    decreases |rs|
  {
    if rs == [] then []
    else
      assert rs == rs[..|rs| - 1] + [rs[|rs| - 1]];
      OfCurrency(rs[..|rs| - 1], c) + (if rs[|rs| - 1].currency == c then [rs[|rs| - 1]] else [])
  }

  /** Every row of currency `c` is in its sub-frame. */
  lemma {:induction false} OfCurrencyHas(rs: seq<Record>, c: string, i: nat)
    requires i < |rs| && rs[i].currency == c
    ensures rs[i] in OfCurrency(rs, c)
    decreases |rs|
  {
    if i < |rs| - 1 {
      OfCurrencyHas(rs[..|rs| - 1], c, i);
    }
  }

  /**
   * The last row of currency `c` is the last row of its sub-frame, so the sub-frame's
   * `iloc[-1]` 时间 is that row's.
   */
  lemma {:induction false} OfCurrencyLast(rs: seq<Record>, c: string, i: nat)
    requires i < |rs| && rs[i].currency == c
    requires forall j :: i < j < |rs| ==> rs[j].currency != c
    ensures var sub := OfCurrency(rs, c);
            sub != [] && sub[|sub| - 1] == rs[i] && LastTime(sub) == rs[i].time
    decreases |rs|
  {
    if i < |rs| - 1 {
      var pre := rs[..|rs| - 1];
      assert OfCurrency(rs, c) == OfCurrency(pre, c);
      OfCurrencyLast(pre, c, i);
    }
  }

  /** The indices of the rows of currency `c`. */
  ghost function IndicesOf(rs: seq<Record>, c: string): set<int>
  {
    set i: int | 0 <= i < |rs| && rs[i].currency == c
  }

  lemma IndicesOfSnoc(rs: seq<Record>, c: string)
    requires rs != []
    ensures var n, a := |rs| - 1, IndicesOf(rs[..|rs| - 1], c);
            n !in a && IndicesOf(rs, c) == a + (if rs[n].currency == c then {n} else {})
  {
    var n := |rs| - 1;
    assert IndicesOf(rs[..n], c) == set i: int | 0 <= i < n && rs[i].currency == c;
  }

  /** A sub-frame has one row for each index of its currency. */
  lemma {:induction false} OfCurrencyCount(rs: seq<Record>, c: string)
    ensures |OfCurrency(rs, c)| == |IndicesOf(rs, c)|
    decreases |rs|
  {
    if rs != [] {
      var pre := rs[..|rs| - 1];
      OfCurrencyCount(pre, c);
      IndicesOfSnoc(rs, c);
      if rs[|rs| - 1].currency == c {
        assert |OfCurrency(rs, c)| == |OfCurrency(pre, c)| + 1;
      } else {
        assert |OfCurrency(rs, c)| == |OfCurrency(pre, c)|;
      }
    }
  }

  /** What one row adds to a sum: its 利润, or in a positive-only sum nothing unless 利润 > 0. */
  function Contribution(r: Record, positiveOnly: bool): real
  {
    if !positiveOnly || r.profit > 0.0 then r.profit else 0.0
  }

  /** `sub_df["利润"].sum()`, or with `positiveOnly` `sub_df[sub_df["利润"] > 0]["利润"].sum()`. */
  function ProfitSum(rs: seq<Record>, positiveOnly: bool): (total: real)
    ensures positiveOnly ==> total >= 0.0
    decreases |rs|
  {
    if rs == [] then 0.0
    else ProfitSum(rs[..|rs| - 1], positiveOnly) + Contribution(rs[|rs| - 1], positiveOnly)
  }

  /** A summary row: 年度汇总 reason, zero prices and quantity. */
  function SummaryRow(tag: string, profit: real, time: Stamp, currency: string): Record
  {
    Record(YearTotal, tag, 0.0, 0.0, 0.0, profit, time, currency)
  }

  /**
   * The 时间 of a sub-frame's last row. A groupby sub-frame is never empty; the
   * zero stamp for an empty one is never used.
   */
  function LastTime(sub: seq<Record>): Stamp
  {
    if sub == [] then Stamp(0, 0) else sub[|sub| - 1].time
  }

  /** The two rows the loop appends for currency `c`. */
  function CurrencyRows(rs: seq<Record>, c: string): seq<Record>
  {
    var sub := OfCurrency(rs, c);
    [SummaryRow(ByYear, ProfitSum(sub, false), LastTime(sub), c),
     SummaryRow(PerTrade, ProfitSum(sub, true), LastTime(sub), c)]
  }

  function RowsFor(rs: seq<Record>, keys: seq<string>): seq<Record>
    decreases |keys|
  {
    if keys == [] then []
    else RowsFor(rs, keys[..|keys| - 1]) + CurrencyRows(rs, keys[|keys| - 1])
  }

  /** The groupby keys: each currency of the year once, ascending. */
  function Groups(rs: seq<Record>): (keys: seq<string>)
    ensures Ascending(keys)
    ensures forall c :: c in keys <==> c in Currencies(rs)
  {
    SortedDistinct(Currencies(rs))
  }

  /** Every group has at least one row. */
  lemma GroupsNonEmpty(rs: seq<Record>, c: string)
    requires c in Groups(rs)
    ensures OfCurrency(rs, c) != []
  {
    var i :| 0 <= i < |rs| && Currencies(rs)[i] == c;
    OfCurrencyHas(rs, c, i);
  }

  /** The rows `summary_year` appends after the year's records. */
  function SummaryRows(rs: seq<Record>): (rows: seq<Record>)
    ensures |rows| == 2 * |Groups(rs)|
    ensures Detail(rows) == []
  {
    RowsForLength(rs, Groups(rs));
    DetailOfSummary(rs, Groups(rs));
    RowsFor(rs, Groups(rs))
  }

  lemma RowsForPrefix(rs: seq<Record>, keys: seq<string>, i: nat)
    requires i < |keys|
    ensures RowsFor(rs, keys[..i + 1]) == RowsFor(rs, keys[..i]) + CurrencyRows(rs, keys[i])
  {
    assert keys[..i + 1][..i] == keys[..i];
  }

  /** One pass of the loop: the currency's two summary rows, appended to `rows`. */
  method AppendCurrency(records: seq<Record>, currency: string, rows: seq<Record>) returns (out: seq<Record>)
    requires currency in Groups(records)
    ensures out == rows + CurrencyRows(records, currency)
  {
    var sub := OfCurrency(records, currency);
    GroupsNonEmpty(records, currency);
    var total := ProfitSum(sub, false);
    var byYear := SummaryRow(ByYear, total, sub[|sub| - 1].time, currency);
    out := rows + [byYear];
    total := ProfitSum(sub, true);
    var perTrade := SummaryRow(PerTrade, total, sub[|sub| - 1].time, currency);
    out := out + [perTrade];
    assert CurrencyRows(records, currency) == [byYear, perTrade];
  }

  /**
   * `summary_year`'s loop over the groups, appending two rows per currency to the
   * rows it was given; the result is what is written to the year's file.
   */
  method Summarise(records: seq<Record>) returns (rows: seq<Record>)
    ensures rows == records + SummaryRows(records)
  {
    var groups := Groups(records);
    rows := records;
    for i := 0 to |groups|
      invariant rows == records + RowsFor(records, groups[..i])
    {
      RowsForPrefix(records, groups, i);
      rows := AppendCurrency(records, groups[i], rows);
    }
    assert groups[..|groups|] == groups;
  }

  // ---------------------------------------------------------------------------
  // Properties of the summary

  lemma TagsDiffer()
    ensures ByYear != PerTrade
  {
    assert ByYear[1] != PerTrade[1];
  }

  lemma {:induction false} RowsForAt(rs: seq<Record>, keys: seq<string>, k: nat)
    requires k < |keys|
    ensures |RowsFor(rs, keys)| == 2 * |keys|
    ensures RowsFor(rs, keys)[2 * k .. 2 * k + 2] == CurrencyRows(rs, keys[k])
    decreases |keys|
  {
    var init := keys[..|keys| - 1];
    RowsForLength(rs, init);
    if k < |keys| - 1 {
      RowsForAt(rs, init, k);
      assert keys[k] == init[k];
    }
  }

  lemma {:induction false} RowsForLength(rs: seq<Record>, keys: seq<string>)
    ensures |RowsFor(rs, keys)| == 2 * |keys|
    decreases |keys|
  {
    if keys != [] { RowsForLength(rs, keys[..|keys| - 1]); }
  }

  /**
   * The appended rows are two per currency of the year, in ascending currency
   * order: first the sum of all 利润, then the sum of the positive ones, both
   * stamped with the time of the currency's last row.
   */
  lemma SummaryShape(rs: seq<Record>, k: nat)
    requires k < |Groups(rs)|
    ensures |SummaryRows(rs)| == 2 * |Groups(rs)|
    ensures var rows, c, sub := SummaryRows(rs), Groups(rs)[k], OfCurrency(rs, Groups(rs)[k]);
      && sub != []
      && rows[2 * k] == Record(YearTotal, ByYear, 0.0, 0.0, 0.0, ProfitSum(sub, false), sub[|sub| - 1].time, c)
      && rows[2 * k + 1] == Record(YearTotal, PerTrade, 0.0, 0.0, 0.0, ProfitSum(sub, true), sub[|sub| - 1].time, c)
  {
    RowsForAt(rs, Groups(rs), k);
    GroupsNonEmpty(rs, Groups(rs)[k]);
    var rows := SummaryRows(rs);
    assert rows[2 * k] == rows[2 * k .. 2 * k + 2][0];
    assert rows[2 * k + 1] == rows[2 * k .. 2 * k + 2][1];
  }

  function SumOverKeys(rs: seq<Record>, keys: seq<string>, positiveOnly: bool): real
    decreases |keys|
  {
    if keys == [] then 0.0
    else SumOverKeys(rs, keys[..|keys| - 1], positiveOnly) + ProfitSum(OfCurrency(rs, keys[|keys| - 1]), positiveOnly)
  }

  ghost predicate Distinct(keys: seq<string>)
  {
    forall i, j :: 0 <= i < j < |keys| ==> keys[i] != keys[j]
  }

  lemma AscendingDistinct(keys: seq<string>)
    requires Ascending(keys)
    ensures Distinct(keys)
  {
    forall i, j | 0 <= i < j < |keys| ensures keys[i] != keys[j] {
      if keys[i] == keys[j] { StrLtIrreflexive(keys[i]); }
    }
  }

  lemma OfCurrencySnoc(rs: seq<Record>, x: Record, c: string)
    ensures OfCurrency(rs + [x], c) == OfCurrency(rs, c) + (if x.currency == c then [x] else [])
  {
    assert (rs + [x])[..|rs|] == rs;
  }

  lemma ProfitSumSnoc(rs: seq<Record>, x: Record, positiveOnly: bool)
    ensures ProfitSum(rs + [x], positiveOnly) == ProfitSum(rs, positiveOnly) + Contribution(x, positiveOnly)
  {
    assert (rs + [x])[..|rs|] == rs;
  }

  lemma {:induction false} SumOverKeysStep(rs: seq<Record>, x: Record, keys: seq<string>, positiveOnly: bool)
    requires Distinct(keys)
    ensures SumOverKeys(rs + [x], keys, positiveOnly)
         == SumOverKeys(rs, keys, positiveOnly) + (if x.currency in keys then Contribution(x, positiveOnly) else 0.0)
    decreases |keys|
  {
    if keys != [] {
      var init, k := keys[..|keys| - 1], keys[|keys| - 1];
      assert keys == init + [k];
      assert x.currency in keys <==> x.currency in init || x.currency == k;
      assert Distinct(init) by {
        forall i, j | 0 <= i < j < |init| ensures init[i] != init[j] {
          assert init[i] == keys[i] && init[j] == keys[j];
        }
      }
      SumOverKeysStep(rs, x, init, positiveOnly);
      OfCurrencySnoc(rs, x, k);
      if x.currency == k {
        assert k !in init;
        ProfitSumSnoc(OfCurrency(rs, k), x, positiveOnly);
        calc {
          SumOverKeys(rs + [x], keys, positiveOnly);
          SumOverKeys(rs + [x], init, positiveOnly) + ProfitSum(OfCurrency(rs + [x], k), positiveOnly);
          SumOverKeys(rs, init, positiveOnly) + ProfitSum(OfCurrency(rs, k) + [x], positiveOnly);
          SumOverKeys(rs, init, positiveOnly) + ProfitSum(OfCurrency(rs, k), positiveOnly) + Contribution(x, positiveOnly);
          SumOverKeys(rs, keys, positiveOnly) + Contribution(x, positiveOnly);
        }
        assert x.currency in keys;
      } else {
        assert OfCurrency(rs + [x], k) == OfCurrency(rs, k);
        assert SumOverKeys(rs + [x], keys, positiveOnly)
            == SumOverKeys(rs + [x], init, positiveOnly) + ProfitSum(OfCurrency(rs, k), positiveOnly);
      }
    }
  }

  lemma {:induction false} SumOverKeysEmpty(keys: seq<string>, positiveOnly: bool)
    ensures SumOverKeys([], keys, positiveOnly) == 0.0
    decreases |keys|
  {
    if keys != [] { SumOverKeysEmpty(keys[..|keys| - 1], positiveOnly); }
  }

  /** Summing the per-currency sums over keys that cover every row gives the sum over all rows. */
  lemma {:induction false} SumOverKeysPartition(rs: seq<Record>, keys: seq<string>, positiveOnly: bool)
    requires Distinct(keys)
    requires forall i :: 0 <= i < |rs| ==> rs[i].currency in keys
    ensures SumOverKeys(rs, keys, positiveOnly) == ProfitSum(rs, positiveOnly)
    decreases |rs|
  {
    if rs == [] {
      SumOverKeysEmpty(keys, positiveOnly);
    } else {
      var init, x := rs[..|rs| - 1], rs[|rs| - 1];
      assert rs == init + [x];
      SumOverKeysPartition(init, keys, positiveOnly);
      SumOverKeysStep(init, x, keys, positiveOnly);
    }
  }

  /** The summary rows carrying `tag` in 股票代码. */
  function Tagged(rows: seq<Record>, tag: string): seq<Record>
    decreases |rows|
  {
    if rows == [] then []
    else Tagged(rows[..|rows| - 1], tag) + (if rows[|rows| - 1].symbol == tag then [rows[|rows| - 1]] else [])
  }

  lemma {:induction false} TaggedAppend(a: seq<Record>, b: seq<Record>, tag: string)
    ensures Tagged(a + b, tag) == Tagged(a, tag) + Tagged(b, tag)
    decreases |b|
  {
    if b == [] {
      assert a + b == a;
    } else {
      var init := b[..|b| - 1];
      assert (a + b)[..|a + b| - 1] == a + init;
      TaggedAppend(a, init, tag);
    }
  }

  lemma {:induction false} ProfitSumAppend(a: seq<Record>, b: seq<Record>, positiveOnly: bool)
    ensures ProfitSum(a + b, positiveOnly) == ProfitSum(a, positiveOnly) + ProfitSum(b, positiveOnly)
    decreases |b|
  {
    if b == [] {
      assert a + b == a;
    } else {
      var init := b[..|b| - 1];
      assert (a + b)[..|a + b| - 1] == a + init;
      ProfitSumAppend(a, init, positiveOnly);
    }
  }

  lemma TaggedTwo(a: Record, b: Record, tag: string)
    ensures Tagged([a, b], tag) == (if a.symbol == tag then [a] else []) + (if b.symbol == tag then [b] else [])
  {
    assert [a, b][..1] == [a];
    assert [a][..0] == [];
    assert Tagged([a], tag) == [] + (if a.symbol == tag then [a] else []);
  }

  lemma TaggedPair(rs: seq<Record>, c: string, positiveOnly: bool)
    ensures var two := CurrencyRows(rs, c);
      Tagged(two, if positiveOnly then PerTrade else ByYear) == [if positiveOnly then two[1] else two[0]]
  {
    TagsDiffer();
    var two := CurrencyRows(rs, c);
    TaggedTwo(two[0], two[1], if positiveOnly then PerTrade else ByYear);
    assert two == [two[0], two[1]];
  }

  lemma {:induction false} TaggedRowsSum(rs: seq<Record>, keys: seq<string>, positiveOnly: bool)
    ensures ProfitSum(Tagged(RowsFor(rs, keys), if positiveOnly then PerTrade else ByYear), false)
         == SumOverKeys(rs, keys, positiveOnly)
    decreases |keys|
  {
    if keys != [] {
      var init, k := keys[..|keys| - 1], keys[|keys| - 1];
      var tag := if positiveOnly then PerTrade else ByYear;
      var two := CurrencyRows(rs, k);
      TaggedRowsSum(rs, init, positiveOnly);
      TaggedAppend(RowsFor(rs, init), two, tag);
      TaggedPair(rs, k, positiveOnly);
      ProfitSumAppend(Tagged(RowsFor(rs, init), tag), Tagged(two, tag), false);
      ProfitSumSnoc([], Tagged(two, tag)[0], false);
      assert [] + [Tagged(two, tag)[0]] == Tagged(two, tag);
    }
  }

  /**
   * The 按年度计算 rows add up to the sum of every 利润 of the year, and the
   * 按单次计算 rows to the sum of the positive ones: grouping by currency loses no row.
   */
  lemma SummaryAddsUp(rs: seq<Record>, positiveOnly: bool)
    ensures ProfitSum(Tagged(SummaryRows(rs), if positiveOnly then PerTrade else ByYear), false)
         == ProfitSum(rs, positiveOnly)
  {
    var keys := Groups(rs);
    AscendingDistinct(keys);
    TaggedRowsSum(rs, keys, positiveOnly);
    forall i | 0 <= i < |rs| ensures rs[i].currency in keys {
      assert Currencies(rs)[i] == rs[i].currency;
    }
    SumOverKeysPartition(rs, keys, positiveOnly);
  }

  /** A positive-only sum is never below the plain sum. */
  lemma {:induction false} PositiveSumDominates(rs: seq<Record>)
    ensures ProfitSum(rs, true) >= ProfitSum(rs, false)
    decreases |rs|
  {
    if rs != [] { PositiveSumDominates(rs[..|rs| - 1]); }
  }

  lemma {:induction false} RowsKeepYear(rs: seq<Record>, keys: seq<string>, year: nat)
    requires forall r :: r in rs ==> r.time.year == year
    requires forall i :: 0 <= i < |keys| ==> OfCurrency(rs, keys[i]) != []
    ensures forall r :: r in RowsFor(rs, keys) ==> r.time.year == year
    decreases |keys|
  {
    if keys != [] {
      var sub := OfCurrency(rs, keys[|keys| - 1]);
      RowsKeepYear(rs, keys[..|keys| - 1], year);
      assert sub[|sub| - 1] in sub;
    }
  }

  /** The summary rows of a year's records are stamped within that year. */
  lemma SummaryKeepsYear(rs: seq<Record>, year: nat)
    requires forall r :: r in rs ==> r.time.year == year
    ensures forall r :: r in SummaryRows(rs) ==> r.time.year == year
  {
    var keys := Groups(rs);
    forall i | 0 <= i < |keys| ensures OfCurrency(rs, keys[i]) != [] {
      GroupsNonEmpty(rs, keys[i]);
    }
    RowsKeepYear(rs, keys, year);
  }

  /** The rows that are not 年度汇总 summaries: the records of the trades. */
  function Detail(rows: seq<Record>): seq<Record>
    decreases |rows|
  {
    if rows == [] then []
    else Detail(rows[..|rows| - 1]) + (if rows[|rows| - 1].reason != YearTotal then [rows[|rows| - 1]] else [])
  }

  lemma {:induction false} DetailAppend(a: seq<Record>, b: seq<Record>)
    ensures Detail(a + b) == Detail(a) + Detail(b)
    decreases |b|
  {
    if b == [] {
      assert a + b == a;
    } else {
      var init := b[..|b| - 1];
      assert (a + b)[..|a + b| - 1] == a + init;
      DetailAppend(a, init);
    }
  }

  lemma DetailOfPair(a: Record, b: Record)
    requires a.reason == YearTotal && b.reason == YearTotal
    ensures Detail([a, b]) == []
  {
    assert [a, b][..1] == [a];
    assert [a][..0] == [];
    assert Detail([a]) == [] + [];
  }

  lemma {:induction false} DetailOfSummary(rs: seq<Record>, keys: seq<string>)
    ensures Detail(RowsFor(rs, keys)) == []
    decreases |keys|
  {
    if keys != [] {
      var init := keys[..|keys| - 1];
      var two := CurrencyRows(rs, keys[|keys| - 1]);
      DetailOfSummary(rs, init);
      DetailAppend(RowsFor(rs, init), two);
      DetailOfPair(two[0], two[1]);
      assert two == [two[0], two[1]];
    }
  }

  lemma {:induction false} DetailOfRecords(rs: seq<Record>)
    requires forall r :: r in rs ==> r.reason != YearTotal
    ensures Detail(rs) == rs
    decreases |rs|
  {
    if rs != [] {
      DetailOfRecords(rs[..|rs| - 1]);
      assert rs == rs[..|rs| - 1] + [rs[|rs| - 1]];
    }
  }

  /** Dropping the 年度汇总 rows of a written file gives back the year's trade records. */
  lemma DetailOfWritten(rs: seq<Record>)
    requires forall r :: r in rs ==> r.reason != YearTotal
    ensures Detail(rs + SummaryRows(rs)) == rs
  {
    DetailAppend(rs, SummaryRows(rs));
    DetailOfSummary(rs, Groups(rs));
    DetailOfRecords(rs);
  }

  // ---------------------------------------------------------------------------
  // The files a year-flush driver writes

  /** The file `summary_year` writes for `year`: the year's rows, then its summary rows. */
  function YearFile(platform: string, methodName: string, year: nat, buffer: seq<Record>): (f: ProfitFile)
    ensures f.year == year && f.path == ProfitPath(platform, methodName, year)
    ensures |f.rows| >= |buffer| && f.rows[..|buffer|] == buffer && Detail(f.rows) == Detail(buffer)
  {
    DetailAppend(buffer, SummaryRows(buffer));
    assert Detail(buffer) + [] == Detail(buffer);
    ProfitFile(year, ProfitPath(platform, methodName, year), buffer + SummaryRows(buffer))
  }

  /** A file holds only its own year's rows and is named after that year. */
  ghost predicate FileOk(platform: string, methodName: string, f: ProfitFile)
  {
    f.path == ProfitPath(platform, methodName, f.year) && forall r :: r in f.rows ==> r.time.year == f.year
  }

  lemma YearFileOk(platform: string, methodName: string, year: nat, buffer: seq<Record>)
    requires forall r :: r in buffer ==> r.time.year == year
    ensures FileOk(platform, methodName, YearFile(platform, methodName, year, buffer))
  {
    SummaryKeepsYear(buffer, year);
  }

  /** File years strictly increase, and all lie below the open year (there is none before any file). */
  ghost predicate Ordered(files: seq<ProfitFile>, curYear: Option<nat>)
  {
    && (curYear.None? ==> files == [])
    && (forall i, j :: 0 <= i < j < |files| ==> files[i].year < files[j].year)
    && (curYear.Some? ==> forall i :: 0 <= i < |files| ==> files[i].year < curYear.value)
  }

  /** A flush closes the open year, which lies below the next one. */
  lemma OrderedStep(files: seq<ProfitFile>, curYear: Option<nat>, year: nat, flushed: bool, f: ProfitFile)
    requires Ordered(files, curYear)
    requires curYear.Some? ==> curYear.value <= year
    requires flushed ==> curYear.Some? && curYear.value != year && f.year == curYear.value
    ensures Ordered(if flushed then files + [f] else files, Some(year))
  {
    if flushed {
      var next := files + [f];
      assert forall i :: 0 <= i < |files| ==> next[i] == files[i];
      assert next[|files|] == f;
      forall i, j | 0 <= i < j < |next| ensures next[i].year < next[j].year {
        if j == |files| {
          assert next[i].year < curYear.value;
        }
      }
    }
  }

  /** All rows of the files, in order. */
  function Flatten(files: seq<ProfitFile>): seq<Record>
  {
    if files == [] then [] else Flatten(files[..|files| - 1]) + files[|files| - 1].rows
  }

  /** Writing a year's file moves its records from the buffer into the files' detail. */
  lemma FlushKeeps(platform: string, methodName: string, files: seq<ProfitFile>, year: nat, buffer: seq<Record>)
    requires forall r :: r in buffer ==> r.reason != YearTotal
    ensures Detail(Flatten(files + [YearFile(platform, methodName, year, buffer)])) == Detail(Flatten(files)) + buffer
  {
    var file := YearFile(platform, methodName, year, buffer);
    var next := files + [file];
    assert next[..|next| - 1] == files;
    assert Flatten(next) == Flatten(files) + file.rows;
    DetailAppend(Flatten(files), file.rows);
    DetailOfWritten(buffer);
  }
}
