/**
 * String helpers with Python's semantics: str.split on one separator character,
 * os.path.basename, the code-point order in which Python (and pandas' groupby)
 * compares strings, and the decimal text of a year.
 */
module Text {

  /** Joins non-empty `parts` with `sep` between neighbours ("a_b_c"). */
  function Join(parts: seq<string>, sep: char): string
    requires |parts| >= 1
    decreases |parts|
  {
    if |parts| == 1 then parts[0] else parts[0] + [sep] + Join(parts[1..], sep)
  }

  /**
   * Python's `s.split(sep)`: every occurrence of `sep` separates two pieces, pieces
   * may be empty, and the empty string splits into one empty piece.
   */
  function Split(s: string, sep: char): (parts: seq<string>)
    ensures |parts| >= 1
    ensures forall i :: 0 <= i < |parts| ==> sep !in parts[i]
    ensures Join(parts, sep) == s
    decreases |s|
  {
    if s == [] then [""]
    else
      var rest := Split(s[1..], sep);
      if s[0] == sep then [""] + rest
      else
        assert Join(rest, sep) == s[1..];
        var parts := [[s[0]] + rest[0]] + rest[1..];
        assert parts[1..] == rest[1..];
        parts
  }

  lemma {:induction false} SplitPrefix(p: string, s: string, sep: char)
    requires sep !in p
    ensures Split(p + s, sep) == [p + Split(s, sep)[0]] + Split(s, sep)[1..]
    decreases |p|
  {
    if p != [] {
      assert (p + s)[1..] == p[1..] + s;
      SplitPrefix(p[1..], s, sep);
      assert [p[0]] + (p[1..] + Split(s, sep)[0]) == p + Split(s, sep)[0];
    } else {
      assert p + s == s;
      assert p + Split(s, sep)[0] == Split(s, sep)[0];
      assert Split(s, sep) == [Split(s, sep)[0]] + Split(s, sep)[1..];
    }
  }

  /** Splitting a join of separator-free pieces gives the pieces back. */
  lemma {:induction false} SplitJoin(parts: seq<string>, sep: char)
    requires |parts| >= 1
    requires forall i :: 0 <= i < |parts| ==> sep !in parts[i]
    ensures Split(Join(parts, sep), sep) == parts
    decreases |parts|
  {
    if |parts| == 1 {
      SplitPrefix(parts[0], "", sep);
      assert parts[0] + "" == parts[0];
    } else {
      var tail := Join(parts[1..], sep);
      SplitJoin(parts[1..], sep);
      assert Join(parts, sep) == parts[0] + ([sep] + tail);
      SplitPrefix(parts[0], [sep] + tail, sep);
      assert ([sep] + tail)[1..] == tail;
      assert Split([sep] + tail, sep) == [""] + parts[1..];
      assert parts[0] + "" == parts[0];
    }
  }

  /** The last piece ends a join, and with two or more pieces a separator comes just before it. */
  lemma {:induction false} JoinEndsWithLast(parts: seq<string>, sep: char)
    requires |parts| >= 1
    ensures var last, j := parts[|parts| - 1], Join(parts, sep);
            && |last| <= |j| && j[|j| - |last|..] == last
            && (|parts| >= 2 ==> |last| < |j| && j[|j| - |last| - 1] == sep)
    decreases |parts|
  {
    if |parts| >= 2 {
      var last, t := parts[|parts| - 1], Join(parts[1..], sep);
      JoinEndsWithLast(parts[1..], sep);
      var pre := parts[0] + [sep];
      assert Join(parts, sep) == pre + t;
      assert (pre + t)[|pre + t| - |last|..] == t[|t| - |last|..];
      if |parts| == 2 {
        assert t == last;
        assert (pre + t)[|pre + t| - |last| - 1] == pre[|pre| - 1] == sep;
      } else {
        assert (pre + t)[|pre + t| - |last| - 1] == t[|t| - |last| - 1];
      }
    }
  }

  /**
   * os.path.basename: the last "/"-separated component, i.e. the longest suffix
   * without a "/" (the whole path when it has none).
   */
  function Basename(path: string): (name: string)
    ensures '/' !in name
    ensures |name| <= |path| && path[|path| - |name|..] == name
    ensures |name| < |path| ==> path[|path| - |name| - 1] == '/'
  {
    var parts := Split(path, '/');
    JoinEndsWithLast(parts, '/');
    parts[|parts| - 1]
  }

  /** The base name of a path ending in "/" and a component is that component. */
  lemma BasenameAfterSlash(dir: string, name: string)
    requires '/' !in name
    ensures Basename(dir + "/" + name) == name
  {
    var path := dir + "/" + name;
    var b := Basename(path);
    assert path[|path| - |name| - 1] == '/';
    assert path[|path| - |name|..] == name;
  }

  /** Python's strict string order: lexicographic on code points, a proper prefix first. */
  predicate StrLt(a: string, b: string)
    decreases |a|
  {
    if a == [] then b != []
    else if b == [] then false
    else if a[0] == b[0] then StrLt(a[1..], b[1..])
    else a[0] < b[0]
  }

  lemma {:induction false} StrLtIrreflexive(a: string)
    ensures !StrLt(a, a)
    decreases |a|
  {
    if a != [] { StrLtIrreflexive(a[1..]); }
  }

  lemma {:induction false} StrLtTransitive(a: string, b: string, c: string)
    requires StrLt(a, b) && StrLt(b, c)
    ensures StrLt(a, c)
    decreases |a|
  {
    if a != [] && b != [] && c != [] && a[0] == b[0] && b[0] == c[0] {
      StrLtTransitive(a[1..], b[1..], c[1..]);
    }
  }

  lemma {:induction false} StrLtTotal(a: string, b: string)
    requires a != b
    ensures StrLt(a, b) || StrLt(b, a)
    decreases |a|
  {
    if a != [] && b != [] && a[0] == b[0] {
      assert a == [a[0]] + a[1..] && b == [b[0]] + b[1..];
      StrLtTotal(a[1..], b[1..]);
    }
  }

  /** Strictly ascending: sorted and free of duplicates. */
  ghost predicate Ascending(keys: seq<string>)
  {
    forall i, j :: 0 <= i < j < |keys| ==> StrLt(keys[i], keys[j])
  }

  /** Inserts `k` into an ascending key list unless it is already there. */
  function InsertKey(keys: seq<string>, k: string): (r: seq<string>)
    requires Ascending(keys)
    ensures Ascending(r)
    ensures forall x :: x in r <==> x in keys || x == k
    decreases |keys|
  {
    if keys == [] then [k]
    else if k == keys[0] then keys
    else if StrLt(k, keys[0]) then
      var r := [k] + keys;
      assert Ascending(r) by {
        forall i, j | 0 <= i < j < |r| ensures StrLt(r[i], r[j]) {
          if i == 0 && j > 1 { StrLtTransitive(k, keys[0], keys[j - 1]); }
        }
      }
      r
    else
      StrLtTotal(k, keys[0]);
      var tail := InsertKey(keys[1..], k);
      var r := [keys[0]] + tail;
      assert Ascending(r) by {
        forall i, j | 0 <= i < j < |r| ensures StrLt(r[i], r[j]) {
          if i == 0 {
            assert r[j] in keys[1..] || r[j] == k;
            if r[j] != k {
              var m :| 0 <= m < |keys[1..]| && keys[1..][m] == r[j];
              assert keys[1 + m] == r[j];
            }
          }
        }
      }
      r
  }

  /**
   * The distinct values of `xs` in ascending order: the key order of a pandas
   * groupby with its default sort.
   */
  function SortedDistinct(xs: seq<string>): (r: seq<string>)
    ensures Ascending(r)
    ensures forall x :: x in r <==> x in xs
    decreases |xs|
  {
    if xs == [] then []
    else InsertKey(SortedDistinct(xs[..|xs| - 1]), xs[|xs| - 1])
  }

  /** An ascending list is determined by its elements, so the groupby order is unique. */
  lemma {:induction false} AscendingUnique(a: seq<string>, b: seq<string>)
    requires Ascending(a) && Ascending(b)
    requires forall x :: x in a <==> x in b
    ensures a == b
    decreases |a|
  {
    assert a != [] ==> a[0] in a;
    assert b != [] ==> b[0] in b;
    if a != [] && b != [] {
      if a[0] != b[0] {
        assert a[0] in b;
        var j :| 0 <= j < |b| && b[j] == a[0];
        assert b[0] in a;
        var i :| 0 <= i < |a| && a[i] == b[0];
        assert j > 0 && i > 0;
        StrLtTransitive(a[0], b[0], a[0]);
        StrLtIrreflexive(a[0]);
      }
      forall x ensures x in a[1..] <==> x in b[1..] {
        if x in a[1..] {
          var i :| 0 <= i < |a[1..]| && a[1..][i] == x;
          assert StrLt(a[0], a[1 + i]);
          if x == b[0] { StrLtIrreflexive(x); }
          assert x in b;
        }
        if x in b[1..] {
          var j :| 0 <= j < |b[1..]| && b[1..][j] == x;
          assert StrLt(b[0], b[1 + j]);
          if x == a[0] { StrLtIrreflexive(x); }
          assert x in a;
        }
      }
      AscendingUnique(a[1..], b[1..]);
      assert a == [a[0]] + a[1..] && b == [b[0]] + b[1..];
    }
  }

  function DigitChar(d: nat): (c: char)
    requires d < 10
    ensures '0' <= c <= '9'
  {
    "0123456789"[d]
  }

  /** The decimal text of a year, as strftime("%Y") writes years 1000 to 9999. */
  function YearText(year: nat): (s: string)
    ensures |s| >= 1
    ensures forall i :: 0 <= i < |s| ==> '0' <= s[i] <= '9'
    decreases year
  {
    if year < 10 then [DigitChar(year)] else YearText(year / 10) + [DigitChar(year % 10)]
  }

  lemma DigitCharValue(d: nat)
    requires d < 10
    ensures (DigitChar(d) as int) - ('0' as int) == d
  {
  }

  /** The number a string of decimal digits denotes, most significant digit first. */
  function DigitsValue(s: string): nat
    requires forall i :: 0 <= i < |s| ==> '0' <= s[i] <= '9'
    decreases |s|
  {
    if s == [] then 0
    else
      assert forall i :: 0 <= i < |s| - 1 ==> s[..|s| - 1][i] == s[i];
      DigitsValue(s[..|s| - 1]) * 10 + ((s[|s| - 1] as int) - ('0' as int))
  }

  /** Reading the rendered year back as a decimal number gives the year. */
  lemma {:induction false} YearTextValue(year: nat)
    ensures DigitsValue(YearText(year)) == year
    decreases year
  {
    if year < 10 {
      DigitCharValue(year);
    } else {
      var s := YearText(year);
      YearTextValue(year / 10);
      DigitCharValue(year % 10);
      assert s[..|s| - 1] == YearText(year / 10);
    }
  }

  /** Distinct years are rendered differently, so they never share a file name. */
  lemma YearTextInjective(a: nat, b: nat)
    ensures YearText(a) == YearText(b) ==> a == b
  {
    YearTextValue(a);
    YearTextValue(b);
  }

  /** Years 1000 to 9999 take exactly the four digits of `strftime("%Y")`. */
  lemma YearTextFourDigits(year: nat)
    requires 1000 <= year <= 9999
    ensures |YearText(year)| == 4
  {
    var a := year / 10;
    var b := a / 10;
    var c := b / 10;
    assert 1 <= c < 10;
    assert |YearText(c)| == 1;
    assert |YearText(b)| == 2;
    assert |YearText(a)| == 3;
  }
}
