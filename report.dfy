/**
 * The report (report.py): it reads every profit file, recovers platform, method
 * and year from the file name, keeps only the 年度汇总 rows, and for each method
 * and summary tag sums their profit per year and currency.
 */
module Report {
  import opened Wrappers
  import opened Text
  import opened Trades
  import opened YearSummary

  // ---------------------------------------------------------------------------
  // File names (report.py:12-22)

  /** What a profit file's name says: platform, method, and year (as text). */
  datatype Name = Name(platform: string, methodName: string, year: string)

  /** `os.path.basename(file).split(".")[0].split("_")`. */
  function StemParts(file: string): (parts: seq<string>)
    ensures |parts| >= 1
    ensures Join(parts, '_') == Split(Basename(file), '.')[0]
    ensures forall i :: 0 <= i < |parts| ==> '_' !in parts[i]
    ensures '.' !in Join(parts, '_')
  {
    Split(Split(Basename(file), '.')[0], '_')
  }

  /**
   * A stem of four parts is platform, method, tag, year; one of five has a
   * two-part method joined back with "_"; any other name is skipped.
   */
  function ParseName(file: string): (r: Option<Name>)
    ensures r.Some? <==> |StemParts(file)| == 4 || |StemParts(file)| == 5
    ensures r.Some? ==> '_' !in r.value.platform && '_' !in r.value.year
    ensures r.Some? && |StemParts(file)| == 4 ==> '_' !in r.value.methodName
    ensures r.Some? && |StemParts(file)| == 5 ==> '_' in r.value.methodName
  {
    var parts := StemParts(file);
    if |parts| == 4 then Some(Name(parts[0], parts[1], parts[3]))
    else if |parts| == 5 then
      var methodName := parts[1] + "_" + parts[2];
      assert methodName[|parts[1]|] == '_';
      Some(Name(parts[0], methodName, parts[4]))
    else None
  }

  /** Text free of the three separators the parser splits on. */
  predicate Plain(s: string)
  {
    '_' !in s && '.' !in s && '/' !in s
  }

  lemma YearTextPlain(year: nat)
    ensures Plain(YearText(year))
  {
    var y := YearText(year);
    forall c | c in y ensures c != '_' && c != '.' && c != '/' {
      var i :| 0 <= i < |y| && y[i] == c;
    }
  }

  /** The "/" and "." splits of an engine-written path leave its stem. */
  lemma StemOfPath(stem: string)
    requires '/' !in stem && '.' !in stem
    ensures Split(Basename("data/" + stem + ".csv"), '.')[0] == stem
  {
    var rest := stem + ".csv";
    assert Join([stem, "csv"], '.') == rest;
    SplitJoin([stem, "csv"], '.');
    assert '/' !in rest;
    assert Join(["data", rest], '/') == "data/" + rest;
    SplitJoin(["data", rest], '/');
    assert "data/" + stem + ".csv" == "data/" + rest;
  }

  lemma JoinFour(a: string, b: string, c: string, d: string)
    ensures Join([a, b, c, d], '_') == a + "_" + b + "_" + c + "_" + d
  {
    var parts := [a, b, c, d];
    assert Join(parts[3..], '_') == d;
    assert Join(parts[2..], '_') == c + "_" + d;
    assert Join(parts[1..], '_') == b + "_" + (c + "_" + d);
  }

  lemma JoinFive(a: string, b: string, c: string, d: string, e: string)
    ensures Join([a, b, c, d, e], '_') == a + "_" + b + "_" + c + "_" + d + "_" + e
  {
    var parts := [a, b, c, d, e];
    assert parts[1..] == [b, c, d, e];
    JoinFour(b, c, d, e);
  }

  lemma PathOfStem(platform: string, methodName: string, year: nat)
    ensures ProfitPath(platform, methodName, year) == "data/" + (platform + "_" + methodName + "_profit_" + YearText(year)) + ".csv"
  {
  }

  /** A stem the engines write splits on "_" into the given separator-free parts. */
  lemma PartsOfPath(platform: string, methodName: string, year: nat, parts: seq<string>)
    requires |parts| >= 1 && forall i :: 0 <= i < |parts| ==> '_' !in parts[i]
    requires Plain(platform)
    requires Join(parts, '_') == platform + "_" + methodName + "_profit_" + YearText(year)
    requires '.' !in methodName && '/' !in methodName
    ensures StemParts(ProfitPath(platform, methodName, year)) == parts
  {
    var stem := platform + "_" + methodName + "_profit_" + YearText(year);
    YearTextPlain(year);
    PathOfStem(platform, methodName, year);
    StemOfPath(stem);
    SplitJoin(parts, '_');
  }

  /** The part of a base name `stem.ext` before its first "." is the stem. */
  lemma StemOfName(dir: string, stem: string, ext: string)
    requires '/' !in stem && '.' !in stem && '/' !in ext
    ensures Split(Basename(dir + "/" + stem + "." + ext), '.')[0] == stem
  {
    var name := stem + ("." + ext);
    assert dir + "/" + stem + "." + ext == dir + "/" + name;
    BasenameAfterSlash(dir, name);
    SplitPrefix(stem, "." + ext, '.');
    assert ("." + ext)[0] == '.';
    assert Split("." + ext, '.')[0] == "";
    assert stem + "" == stem;
  }

  /** Any four-part name: platform, method, tag, year, taken in that order. */
  lemma ParsesFourPartName(dir: string, p: string, m: string, t: string, y: string, ext: string)
    requires Plain(p) && Plain(m) && Plain(t) && Plain(y) && '/' !in ext
    ensures ParseName(dir + "/" + Join([p, m, t, y], '_') + "." + ext) == Some(Name(p, m, y))
  {
    var parts := [p, m, t, y];
    JoinFour(p, m, t, y);
    StemOfName(dir, Join(parts, '_'), ext);
    SplitJoin(parts, '_');
  }

  /** Any five-part name: the two middle parts make the method, joined back with "_". */
  lemma ParsesFivePartName(dir: string, p: string, m1: string, m2: string, t: string, y: string, ext: string)
    requires Plain(p) && Plain(m1) && Plain(m2) && Plain(t) && Plain(y) && '/' !in ext
    ensures ParseName(dir + "/" + Join([p, m1, m2, t, y], '_') + "." + ext) == Some(Name(p, m1 + "_" + m2, y))
  {
    var parts := [p, m1, m2, t, y];
    JoinFive(p, m1, m2, t, y);
    StemOfName(dir, Join(parts, '_'), ext);
    SplitJoin(parts, '_');
  }

  /** The offset engine's file name parses back to its platform, "method2" and year. */
  lemma ParsesOffsetName(platform: string, year: nat)
    requires Plain(platform)
    ensures ParseName(ProfitPath(platform, Method2, year)) == Some(Name(platform, Method2, YearText(year)))
  {
    var y := YearText(year);
    YearTextPlain(year);
    JoinFour(platform, "method2", "profit", y);
    PartsOfPath(platform, Method2, year, [platform, "method2", "profit", y]);
  }

  /** The moving-average engine's file name parses back to its platform, "moving_avg" and year. */
  lemma ParsesMovingAvgName(platform: string, year: nat)
    requires Plain(platform)
    ensures ParseName(ProfitPath(platform, MovingAvg, year)) == Some(Name(platform, MovingAvg, YearText(year)))
  {
    var y := YearText(year);
    var parts := [platform, "moving", "avg", "profit", y];
    YearTextPlain(year);
    MovingAvgStem(platform, y);
    PartsOfPath(platform, MovingAvg, year, parts);
    assert parts[1] + "_" + parts[2] == MovingAvg;
  }

  /** "moving_avg" is two "_" parts of the stem. */
  lemma MovingAvgStem(platform: string, y: string)
    ensures Join([platform, "moving", "avg", "profit", y], '_') == platform + "_" + MovingAvg + "_profit_" + y
  {
    JoinFive(platform, "moving", "avg", "profit", y);
    assert MovingAvg == "moving" + "_" + "avg";
    assert "_profit_" == "_" + "profit" + "_";
  }

  // ---------------------------------------------------------------------------
  // Collecting the summary rows (report.py:10-34)

  /** A file the glob returns: its path and the rows pandas reads from it. */
  datatype CsvFile = CsvFile(path: string, rows: seq<Record>)

  /** One element of `results`: 平台, 方式, 年份, 币种, 股票代码 (the summary tag), 利润. */
  datatype Entry = Entry(platform: string, methodName: string, year: string, currency: string, tag: string,
                         profit: real)

  /** The dictionary a summary row becomes: the file name's 平台, 方式 and 年份 with the row's 币种, 股票代码 and 利润. */
  function EntryOf(name: Name, row: Record): Entry
  {
    Entry(name.platform, name.methodName, name.year, row.currency, row.symbol, row.profit)
  }

  /** A file's 年度汇总 rows, in order, labelled with what its name says. */
  function Entries(name: Name, rows: seq<Record>): (es: seq<Entry>)
    ensures |es| <= |rows|
    ensures forall e :: e in es ==>
              e.platform == name.platform && e.methodName == name.methodName && e.year == name.year
  {
    if rows == [] then []
    else
      var row := rows[|rows| - 1];
      Entries(name, rows[..|rows| - 1]) + (if row.reason == YearTotal then [EntryOf(name, row)] else [])
  }

  /** What the loop over the files appends to `results`. */
  function Collected(files: seq<CsvFile>): (results: seq<Entry>)
    ensures forall e :: e in results ==> '_' !in e.platform && '_' !in e.year
  {
    if files == [] then []
    else
      var file := files[|files| - 1];
      Collected(files[..|files| - 1]) +
        (match ParseName(file.path)
         case None => []
         case Some(name) => Entries(name, file.rows))
  }

  /** The module-level loop: parse each name, filter its rows, append one entry per summary row. */
  method Collect(files: seq<CsvFile>) returns (results: seq<Entry>)
    ensures results == Collected(files)
  {
    results := [];
    for i := 0 to |files|
      invariant results == Collected(files[..i])
    {
      CollectedStep(files, i);
      var file := files[i];
      var name := ParseName(file.path);
      if name.None? {
        continue;
      }
      var entries := CollectRows(name.value, file.rows);
      results := results + entries;
    }
    assert files[..|files|] == files;
  }

  lemma CollectedStep(files: seq<CsvFile>, i: nat)
    requires i < |files|
    ensures var name := ParseName(files[i].path);
            Collected(files[..i + 1]) ==
              Collected(files[..i]) + (if name.None? then [] else Entries(name.value, files[i].rows))
  {
    assert files[..i + 1][..i] == files[..i];
  }

  /** The loop over one file's rows: one entry per 年度汇总 row, in order. */
  method CollectRows(name: Name, rows: seq<Record>) returns (entries: seq<Entry>)
    ensures entries == Entries(name, rows)
  {
    entries := [];
    for j := 0 to |rows|
      invariant entries == Entries(name, rows[..j])
    {
      assert rows[..j + 1][..j] == rows[..j];
      var row := rows[j];
      if row.reason == YearTotal {
        entries := entries + [EntryOf(name, row)];
      }
    }
    assert rows[..|rows|] == rows;
  }

  lemma {:induction false} EntriesAppend(name: Name, a: seq<Record>, b: seq<Record>)
    ensures Entries(name, a + b) == Entries(name, a) + Entries(name, b)
    decreases |b|
  {
    if b == [] {
      assert a + b == a;
    } else {
      var init := b[..|b| - 1];
      assert (a + b)[..|a + b| - 1] == a + init;
      EntriesAppend(name, a, init);
    }
  }

  /** Rows with any other 配对原因 contribute nothing. */
  lemma {:induction false} DetailContributesNothing(name: Name, rows: seq<Record>)
    requires forall r :: r in rows ==> r.reason != YearTotal
    ensures Entries(name, rows) == []
  {
    if rows != [] {
      assert forall r :: r in rows[..|rows| - 1] ==> r in rows;
      DetailContributesNothing(name, rows[..|rows| - 1]);
    }
  }

  /** Every entry carries its file's name parts and the profit of one of its summary rows. */
  lemma {:induction false} EntriesFromSummaries(name: Name, rows: seq<Record>)
    ensures forall e :: e in Entries(name, rows) ==>
              exists r :: r in rows && r.reason == YearTotal && e == EntryOf(name, r)
  {
    if rows != [] {
      var init := rows[..|rows| - 1];
      EntriesFromSummaries(name, init);
      assert forall r :: r in init ==> r in rows;
    }
  }

  // ---------------------------------------------------------------------------
  // Summing per year and currency (report.py:37-46)

  /** The sum of 利润 over the entries of one method, tag, year and currency. */
  function SumOf(entries: seq<Entry>, methodName: string, tag: string, year: string, currency: string): real
  {
    if entries == [] then 0.0
    else
      var e := entries[|entries| - 1];
      SumOf(entries[..|entries| - 1], methodName, tag, year, currency) +
        (if e.methodName == methodName && e.tag == tag && e.year == year && e.currency == currency
         then e.profit else 0.0)
  }

  predicate Selects(e: Entry, methodName: string, tag: string)
  {
    e.methodName == methodName && e.tag == tag
  }

  /** The (年份, 币种) groups of one method and tag. */
  function KeysOf(entries: seq<Entry>, methodName: string, tag: string): set<(string, string)>
  {
    set e | e in entries && Selects(e, methodName, tag) :: (e.year, e.currency)
  }

  /** `sub_df.groupby(['年份', '币种']).agg({'利润': 'sum'})` as a map. */
  function Grouped(entries: seq<Entry>, methodName: string, tag: string): (g: map<(string, string), real>)
    ensures forall e :: e in entries && Selects(e, methodName, tag) ==> (e.year, e.currency) in g
    ensures forall k :: k in g ==> g[k] == SumOf(entries, methodName, tag, k.0, k.1)
  {
    map k | k in KeysOf(entries, methodName, tag) :: SumOf(entries, methodName, tag, k.0, k.1)
  }

  /** Every key of the grouped map is the (年份, 币种) of some selected entry. */
  lemma GroupedKeys(entries: seq<Entry>, methodName: string, tag: string, k: (string, string))
    requires k in Grouped(entries, methodName, tag)
    ensures exists e :: e in entries && Selects(e, methodName, tag) && (e.year, e.currency) == k
  {
    assert k in KeysOf(entries, methodName, tag);
  }

  lemma {:induction false} SumOfAbsent(entries: seq<Entry>, methodName: string, tag: string, k: (string, string))
    requires k !in KeysOf(entries, methodName, tag)
    ensures SumOf(entries, methodName, tag, k.0, k.1) == 0.0
  {
    if entries != [] {
      var init := entries[..|entries| - 1];
      assert forall e :: e in init ==> e in entries;
      assert KeysOf(init, methodName, tag) <= KeysOf(entries, methodName, tag);
      SumOfAbsent(init, methodName, tag, k);
    }
  }

  lemma GroupedSnoc(entries: seq<Entry>, e: Entry, methodName: string, tag: string)
    ensures var g, k := Grouped(entries, methodName, tag), (e.year, e.currency);
            Grouped(entries + [e], methodName, tag) ==
              if Selects(e, methodName, tag) then g[k := (if k in g then g[k] else 0.0) + e.profit] else g
  {
    var xs := entries + [e];
    assert xs[..|xs| - 1] == entries;
    assert forall x :: x in xs <==> x in entries || x == e;
    var k := (e.year, e.currency);
    if Selects(e, methodName, tag) && k !in KeysOf(entries, methodName, tag) {
      SumOfAbsent(entries, methodName, tag, k);
    }
  }

  /** The loop over `sub_df`'s rows that pandas' group-sum performs. */
  method GroupSum(results: seq<Entry>, methodName: string, tag: string) returns (grouped: map<(string, string), real>)
    ensures grouped == Grouped(results, methodName, tag)
  {
    grouped := map[];
    for i := 0 to |results|
      invariant grouped == Grouped(results[..i], methodName, tag)
    {
      var e := results[i];
      if e.methodName == methodName && e.tag == tag {
        var key := (e.year, e.currency);
        var sofar := if key in grouped then grouped[key] else 0.0;
        grouped := grouped[key := sofar + e.profit];
      }
      assert grouped == Grouped(results[..i + 1], methodName, tag) by {
        assert results[..i + 1] == results[..i] + [e];
        GroupedSnoc(results[..i], e, methodName, tag);
      }
    }
    assert results[..|results|] == results;
  }

  // ---------------------------------------------------------------------------
  // One table per method and tag (report.py:37-46)

  /** The position of the first occurrence of `x`. */
  function FirstIndex(xs: seq<string>, x: string): (k: nat)
    requires x in xs
    ensures k < |xs| && xs[k] == x && x !in xs[..k]
  {
    if xs[0] == x then 0
    else
      assert x in xs[1..] by {
        var i :| 0 <= i < |xs| && xs[i] == x;
        assert xs[1..][i - 1] == x;
      }
      var k := 1 + FirstIndex(xs[1..], x);
      assert xs[..k] == [xs[0]] + xs[1..][..k - 1];
      k
  }

  /** Appending an element moves no earlier first occurrence; a new one is first found at the end. */
  lemma FirstIndexSnoc(xs: seq<string>, x: string)
    ensures forall y :: y in xs ==> FirstIndex(xs + [x], y) == FirstIndex(xs, y)
    ensures x !in xs ==> FirstIndex(xs + [x], x) == |xs|
  {
    forall y | y in xs ensures FirstIndex(xs + [x], y) == FirstIndex(xs, y) {
      var a, b := FirstIndex(xs + [x], y), FirstIndex(xs, y);
      assert (xs + [x])[..b] == xs[..b];
      assert a <= b by {
        assert (xs + [x])[b] == y;
      }
      assert y !in xs[..a] by {
        assert xs[..a] == (xs + [x])[..a];
      }
    }
  }

  /** `Series.unique()`: each value once, in order of first appearance. */
  function Unique(xs: seq<string>): (u: seq<string>)
    ensures forall x :: x in u <==> x in xs
    ensures forall i, j :: 0 <= i < j < |u| ==> u[i] != u[j]
    ensures forall i, j :: 0 <= i < j < |u| ==> FirstIndex(xs, u[i]) < FirstIndex(xs, u[j])
  {
    if xs == [] then []
    else
      var init := xs[..|xs| - 1];
      var u := Unique(init);
      var x := xs[|xs| - 1];
      assert xs == init + [x];
      assert forall y :: y in xs <==> y in init || y == x;
      FirstIndexSnoc(init, x);
      if x in u then u
      else
        var v := u + [x];
        assert forall i :: 0 <= i < |u| ==> u[i] in init && FirstIndex(init, u[i]) < |init|;
        v
  }

  function MethodsOf(results: seq<Entry>): seq<string>
  {
    seq(|results|, i requires 0 <= i < |results| => results[i].methodName)
  }

  function TagsOf(results: seq<Entry>): seq<string>
  {
    seq(|results|, i requires 0 <= i < |results| => results[i].tag)
  }

  /** The table printed for one method and tag. */
  datatype Table = Table(methodName: string, tag: string, sums: map<(string, string), real>)

  function RowOfTables(results: seq<Entry>, methodName: string, tags: seq<string>): (row: seq<Table>)
    ensures |row| == |tags|
    ensures forall j :: 0 <= j < |tags| ==> row[j] == Table(methodName, tags[j], Grouped(results, methodName, tags[j]))
  {
    if tags == [] then []
    else
      RowOfTables(results, methodName, tags[..|tags| - 1]) +
        [Table(methodName, tags[|tags| - 1], Grouped(results, methodName, tags[|tags| - 1]))]
  }

  /** The tables in the order the nested loops print them: by method, then by tag. */
  function TablesFor(results: seq<Entry>, methods: seq<string>, tags: seq<string>): (ts: seq<Table>)
    ensures |ts| == |methods| * |tags|
  {
    if methods == [] then []
    else
      var n, k := |methods|, |tags|;
      assert (n - 1) * k + k == n * k;
      TablesFor(results, methods[..n - 1], tags) + RowOfTables(results, methods[n - 1], tags)
  }

  /** The table for the `i`-th method and `j`-th tag sits at position `i * |tags| + j`. */
  lemma {:induction false} TablesForAt(results: seq<Entry>, methods: seq<string>, tags: seq<string>, i: nat, j: nat)
    requires i < |methods| && j < |tags|
    ensures i * |tags| + j < |TablesFor(results, methods, tags)|
    ensures TablesFor(results, methods, tags)[i * |tags| + j] ==
            Table(methods[i], tags[j], Grouped(results, methods[i], tags[j]))
    decreases |methods|
  {
    var n, k := |methods|, |tags|;
    var pre := methods[..n - 1];
    var head, row := TablesFor(results, pre, tags), RowOfTables(results, methods[n - 1], tags);
    assert TablesFor(results, methods, tags) == head + row;
    RowMajor(i, j, n, k);
    if i == n - 1 {
      assert (head + row)[i * k + j] == row[j];
    } else {
      TablesForAt(results, pre, tags, i, j);
      assert (head + row)[i * k + j] == head[i * k + j];
      assert pre[i] == methods[i];
    }
  }

  /** Row-major positions: row `i` of `n` rows of `k` starts after the rows before it. */
  lemma RowMajor(i: nat, j: nat, n: nat, k: nat)
    requires i < n && j < k
    ensures 0 <= i * k
    ensures i * k + j < n * k
    ensures i < n - 1 ==> i * k + j < (n - 1) * k
    ensures i == n - 1 ==> i * k + j == (n - 1) * k + j
  {
    var d: nat := n - 1 - i;
    assert n * k == i * k + k + d * k by {
      assert n == i + 1 + d;
    }
    if d >= 1 {
      var e: nat := d - 1;
      assert (n - 1) * k == i * k + k + e * k by {
        assert n - 1 == i + 1 + e;
      }
    }
  }

  lemma TablesForPrefix(results: seq<Entry>, methods: seq<string>, i: nat, tags: seq<string>)
    requires i < |methods|
    ensures TablesFor(results, methods[..i + 1], tags) ==
            TablesFor(results, methods[..i], tags) + RowOfTables(results, methods[i], tags)
  {
    assert methods[..i + 1][..i] == methods[..i];
  }

  /** The inner loop over the tags: one table per tag for one method. */
  method TabulateMethod(results: seq<Entry>, methodName: string, taxMethods: seq<string>) returns (row: seq<Table>)
    ensures row == RowOfTables(results, methodName, taxMethods)
  {
    row := [];
    for j := 0 to |taxMethods|
      invariant row == RowOfTables(results, methodName, taxMethods[..j])
    {
      assert taxMethods[..j + 1][..j] == taxMethods[..j];
      var taxMethod := taxMethods[j];
      var grouped := GroupSum(results, methodName, taxMethod);
      row := row + [Table(methodName, taxMethod, grouped)];
    }
    assert taxMethods[..|taxMethods|] == taxMethods;
  }

  /**
   * The nested loops over the methods and tags. With no entries at all, pandas has
   * no 方式 column to take (a KeyError): `None`.
   */
  method Tabulate(results: seq<Entry>) returns (tables: Option<seq<Table>>)
    ensures tables.None? <==> results == []
    ensures tables.Some? ==> tables.value == TablesFor(results, Unique(MethodsOf(results)), Unique(TagsOf(results)))
  {
    if results == [] {
      return None;
    }
    var methods := Unique(MethodsOf(results));
    var taxMethods := Unique(TagsOf(results));
    var out: seq<Table> := [];
    for i := 0 to |methods|
      invariant out == TablesFor(results, methods[..i], taxMethods)
    {
      TablesForPrefix(results, methods, i, taxMethods);
      var row := TabulateMethod(results, methods[i], taxMethods);
      out := out + row;
    }
    assert methods[..|methods|] == methods;
    return Some(out);
  }

  lemma {:induction false} RowHasTag(results: seq<Entry>, methodName: string, tags: seq<string>, t: string)
    requires t in tags
    ensures Table(methodName, t, Grouped(results, methodName, t)) in RowOfTables(results, methodName, tags)
  {
    if tags[|tags| - 1] != t {
      assert t in tags[..|tags| - 1] by {
        var i :| 0 <= i < |tags| && tags[i] == t;
        assert tags[..|tags| - 1][i] == t;
      }
      RowHasTag(results, methodName, tags[..|tags| - 1], t);
    }
  }

  lemma {:induction false} TablesHavePair(results: seq<Entry>, methods: seq<string>, tags: seq<string>,
                                          m: string, t: string)
    requires m in methods && t in tags
    ensures Table(m, t, Grouped(results, m, t)) in TablesFor(results, methods, tags)
  {
    if methods[|methods| - 1] == m {
      RowHasTag(results, m, tags, t);
    } else {
      assert m in methods[..|methods| - 1] by {
        var i :| 0 <= i < |methods| && methods[i] == m;
        assert methods[..|methods| - 1][i] == m;
      }
      TablesHavePair(results, methods[..|methods| - 1], tags, m, t);
    }
  }

  /** Each table is one of a listed method and a listed tag, holding that pair's sums. */
  lemma {:induction false} TablesSound(results: seq<Entry>, methods: seq<string>, tags: seq<string>)
    ensures forall t :: t in TablesFor(results, methods, tags) ==>
              t.methodName in methods && t.tag in tags && t.sums == Grouped(results, t.methodName, t.tag)
  {
    if methods != [] {
      var init := methods[..|methods| - 1];
      TablesSound(results, init, tags);
      assert forall m :: m in init ==> m in methods;
    }
  }

  /** Every method and every tag that occurs gets its table, whichever entries they came from. */
  lemma EveryPairTabulated(results: seq<Entry>, i: nat, j: nat)
    requires i < |results| && j < |results|
    ensures var m, t := results[i].methodName, results[j].tag;
            Table(m, t, Grouped(results, m, t)) in TablesFor(results, Unique(MethodsOf(results)), Unique(TagsOf(results)))
  {
    assert MethodsOf(results)[i] == results[i].methodName;
    assert TagsOf(results)[j] == results[j].tag;
    TablesHavePair(results, Unique(MethodsOf(results)), Unique(TagsOf(results)), results[i].methodName, results[j].tag);
  }

  // ---------------------------------------------------------------------------
  // From an engine's year file to the report's figure

  function TagOf(positiveOnly: bool): string
  {
    if positiveOnly then PerTrade else ByYear
  }

  lemma {:induction false} SumOfAppend(a: seq<Entry>, b: seq<Entry>, m: string, t: string, y: string, c: string)
    ensures SumOf(a + b, m, t, y, c) == SumOf(a, m, t, y, c) + SumOf(b, m, t, y, c)
    decreases |b|
  {
    if b == [] {
      assert a + b == a;
    } else {
      var init := b[..|b| - 1];
      assert (a + b)[..|a + b| - 1] == a + init;
      SumOfAppend(a, init, m, t, y, c);
    }
  }

  /** The entries of the two summary rows of currency `k`. */
  lemma EntriesOfCurrency(name: Name, rs: seq<Record>, k: string)
    ensures var two := CurrencyRows(rs, k);
            Entries(name, two) == [EntryOf(name, two[0]), EntryOf(name, two[1])]
  {
    var two := CurrencyRows(rs, k);
    assert two[..1][..0] == [];
    assert Entries(name, two[..1]) == [EntryOf(name, two[0])];
  }

  /** What the two summary rows of currency `k` add to the figure for currency `c`. */
  lemma SumOfCurrency(name: Name, rs: seq<Record>, k: string, positiveOnly: bool, c: string)
    ensures SumOf(Entries(name, CurrencyRows(rs, k)), name.methodName, TagOf(positiveOnly), name.year, c) ==
            if c == k then ProfitSum(OfCurrency(rs, c), positiveOnly) else 0.0
  {
    EntriesOfCurrency(name, rs, k);
    var sub := OfCurrency(rs, k);
    var first := Entry(name.platform, name.methodName, name.year, k, ByYear, ProfitSum(sub, false));
    var second := Entry(name.platform, name.methodName, name.year, k, PerTrade, ProfitSum(sub, true));
    var two := [first, second];
    assert Entries(name, CurrencyRows(rs, k)) == two;
    assert two[..1] == [first] && [first][..0] == [];
    var m, t := name.methodName, TagOf(positiveOnly);
    assert SumOf([first], m, t, name.year, c) == if first.tag == t && k == c then first.profit else 0.0;
    TagsDiffer();
  }

  lemma {:induction false} SumOfSummary(name: Name, rs: seq<Record>, keys: seq<string>, positiveOnly: bool, c: string)
    requires Distinct(keys)
    ensures SumOf(Entries(name, RowsFor(rs, keys)), name.methodName, TagOf(positiveOnly), name.year, c) ==
            if c in keys then ProfitSum(OfCurrency(rs, c), positiveOnly) else 0.0
  {
    if keys != [] {
      var init, k := keys[..|keys| - 1], keys[|keys| - 1];
      assert Distinct(init) by {
        forall i, j | 0 <= i < j < |init| ensures init[i] != init[j] {
          assert init[i] == keys[i] && init[j] == keys[j];
        }
      }
      assert c in keys <==> c in init || c == k;
      if c == k {
        assert c !in init by {
          forall i | 0 <= i < |init| ensures init[i] != c {
            assert init[i] == keys[i];
          }
        }
      }
      SumOfSummary(name, rs, init, positiveOnly, c);
      EntriesAppend(name, RowsFor(rs, init), CurrencyRows(rs, k));
      SumOfAppend(Entries(name, RowsFor(rs, init)), Entries(name, CurrencyRows(rs, k)),
                  name.methodName, TagOf(positiveOnly), name.year, c);
      SumOfCurrency(name, rs, k, positiveOnly, c);
    }
  }

  lemma {:induction false} KeyOfSummary(name: Name, rs: seq<Record>, keys: seq<string>, positiveOnly: bool, c: string)
    requires c in keys
    ensures (name.year, c) in KeysOf(Entries(name, RowsFor(rs, keys)), name.methodName, TagOf(positiveOnly))
  {
    var init, k := keys[..|keys| - 1], keys[|keys| - 1];
    EntriesAppend(name, RowsFor(rs, init), CurrencyRows(rs, k));
    var all := Entries(name, RowsFor(rs, keys));
    if c == k {
      EntriesOfCurrency(name, rs, k);
      var two := CurrencyRows(rs, k);
      var e := EntryOf(name, if positiveOnly then two[1] else two[0]);
      assert e in all;
      assert Selects(e, name.methodName, TagOf(positiveOnly)) && (e.year, e.currency) == (name.year, c);
    } else {
      assert c in init by {
        var i :| 0 <= i < |keys| && keys[i] == c;
        assert init[i] == c;
      }
      KeyOfSummary(name, rs, init, positiveOnly, c);
      var e :| e in Entries(name, RowsFor(rs, init)) && Selects(e, name.methodName, TagOf(positiveOnly)) &&
               (e.year, e.currency) == (name.year, c);
      assert e in all;
    }
  }

  /** Reading back a year file either engine writes yields the entries of its summary rows. */
  lemma CollectsYearFile(platform: string, methodName: string, year: nat, buffer: seq<Record>)
    requires Plain(platform) && (methodName == Method2 || methodName == MovingAvg)
    requires forall r :: r in buffer ==> r.reason != YearTotal
    ensures var f := YearFile(platform, methodName, year, buffer);
            Collected([CsvFile(f.path, f.rows)]) ==
              Entries(Name(platform, methodName, YearText(year)), SummaryRows(buffer))
  {
    var f := YearFile(platform, methodName, year, buffer);
    var name := Name(platform, methodName, YearText(year));
    if methodName == Method2 {
      ParsesOffsetName(platform, year);
    } else {
      ParsesMovingAvgName(platform, year);
    }
    var files := [CsvFile(f.path, f.rows)];
    assert files[..0] == [];
    assert Collected(files) == Entries(name, f.rows);
    EntriesAppend(name, buffer, SummaryRows(buffer));
    DetailContributesNothing(name, buffer);
  }

  /**
   * End to end: for a year file either engine writes, the report's figure for that
   * year and a currency of its records is the sum of those records' profit (or of
   * their positive profits, for 按单次计算).
   */
  lemma ReportsYearFile(platform: string, methodName: string, year: nat, buffer: seq<Record>, c: string,
                        positiveOnly: bool)
    requires Plain(platform) && (methodName == Method2 || methodName == MovingAvg)
    requires forall r :: r in buffer ==> r.reason != YearTotal
    requires c in Currencies(buffer)
    ensures var f := YearFile(platform, methodName, year, buffer);
            var g := Grouped(Collected([CsvFile(f.path, f.rows)]), methodName, TagOf(positiveOnly));
            (YearText(year), c) in g && g[(YearText(year), c)] == ProfitSum(OfCurrency(buffer, c), positiveOnly)
  {
    var name := Name(platform, methodName, YearText(year));
    CollectsYearFile(platform, methodName, year, buffer);
    var keys := Groups(buffer);
    AscendingDistinct(keys);
    SumOfSummary(name, buffer, keys, positiveOnly, c);
    KeyOfSummary(name, buffer, keys, positiveOnly, c);
  }

  /** A currency without records has an empty sub-frame. */
  lemma AbsentCurrency(rs: seq<Record>, c: string)
    requires c !in Currencies(rs)
    ensures OfCurrency(rs, c) == []
  {
    assert forall i :: 0 <= i < |rs| ==> Currencies(rs)[i] == rs[i].currency;
    assert forall r :: r in rs ==> r.currency != c;
  }

  /** The summary rows of a year give any currency its own sum, 0 for one without records. */
  lemma SummarySum(name: Name, rs: seq<Record>, positiveOnly: bool, c: string)
    ensures SumOf(Entries(name, SummaryRows(rs)), name.methodName, TagOf(positiveOnly), name.year, c) ==
            ProfitSum(OfCurrency(rs, c), positiveOnly)
  {
    var keys := Groups(rs);
    AscendingDistinct(keys);
    SumOfSummary(name, rs, keys, positiveOnly, c);
    if c !in keys {
      AbsentCurrency(rs, c);
    }
  }

  lemma CollectedPair(a: CsvFile, b: CsvFile)
    ensures Collected([a, b]) == Collected([a]) + Collected([b])
  {
    assert [a, b][..1] == [a];
    assert [b][..0] == [];
  }

  /** A year file the report reads: the year's entries for currency `c`, and its key when `c` has records. */
  lemma YearFileEntries(platform: string, methodName: string, year: nat, buffer: seq<Record>, c: string,
                        positiveOnly: bool)
    requires Plain(platform) && (methodName == Method2 || methodName == MovingAvg)
    requires forall r :: r in buffer ==> r.reason != YearTotal
    ensures var f := YearFile(platform, methodName, year, buffer);
            var es := Collected([CsvFile(f.path, f.rows)]);
            && SumOf(es, methodName, TagOf(positiveOnly), YearText(year), c) == ProfitSum(OfCurrency(buffer, c), positiveOnly)
            && (c in Currencies(buffer) ==> (YearText(year), c) in KeysOf(es, methodName, TagOf(positiveOnly)))
  {
    var name := Name(platform, methodName, YearText(year));
    CollectsYearFile(platform, methodName, year, buffer);
    SummarySum(name, buffer, positiveOnly, c);
    if c in Currencies(buffer) {
      KeyOfSummary(name, buffer, Groups(buffer), positiveOnly, c);
    }
  }

  /**
   * The grouping keys on year and currency only: the same method's files of two
   * platforms for the same year add up, currency by currency.
   */
  lemma PlatformsAddUp(p1: string, p2: string, methodName: string, year: nat, b1: seq<Record>, b2: seq<Record>,
                       c: string, positiveOnly: bool)
    requires Plain(p1) && Plain(p2) && (methodName == Method2 || methodName == MovingAvg)
    requires forall r :: r in b1 ==> r.reason != YearTotal
    requires forall r :: r in b2 ==> r.reason != YearTotal
    requires c in Currencies(b1) || c in Currencies(b2)
    ensures var f1, f2 := YearFile(p1, methodName, year, b1), YearFile(p2, methodName, year, b2);
            var g := Grouped(Collected([CsvFile(f1.path, f1.rows), CsvFile(f2.path, f2.rows)]), methodName,
                             TagOf(positiveOnly));
            (YearText(year), c) in g &&
            g[(YearText(year), c)] == ProfitSum(OfCurrency(b1, c), positiveOnly) + ProfitSum(OfCurrency(b2, c), positiveOnly)
  {
    var f1, f2 := YearFile(p1, methodName, year, b1), YearFile(p2, methodName, year, b2);
    var a, b := CsvFile(f1.path, f1.rows), CsvFile(f2.path, f2.rows);
    var e1, e2 := Collected([a]), Collected([b]);
    var tag, k := TagOf(positiveOnly), (YearText(year), c);
    CollectedPair(a, b);
    YearFileEntries(p1, methodName, year, b1, c, positiveOnly);
    YearFileEntries(p2, methodName, year, b2, c, positiveOnly);
    SumOfAppend(e1, e2, methodName, tag, YearText(year), c);
    assert k in KeysOf(e1 + e2, methodName, tag) by {
      if k in KeysOf(e1, methodName, tag) {
        var e :| e in e1 && Selects(e, methodName, tag) && (e.year, e.currency) == k;
        assert e in e1 + e2;
      } else {
        var e :| e in e2 && Selects(e, methodName, tag) && (e.year, e.currency) == k;
        assert e in e1 + e2;
      }
    }
  }
}
