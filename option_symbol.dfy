/**
 * Option contract detection: Python's
 * `re.compile(r'([A-Z]+)(\d{6})([CP])(\d+).US').match(symbol)`, which is anchored at
 * the start of the symbol only, so trailing text after "US" is allowed.
 */
module OptionSymbol {

  predicate Upper(c: char) { 'A' <= c <= 'Z' }

  predicate Digit(c: char) { '0' <= c <= '9' }

  /**
   * The regular expression matches the start of `s` with `a` letters in the root and
   * `b` digits in the strike: root, six date digits, C or P, strike, one character
   * other than a newline (the unescaped "."), then "US".
   */
  ghost predicate ShapeAt(s: string, a: nat, b: nat)
  {
    && a >= 1 && b >= 1 && a + b + 10 <= |s|
    && (forall i :: 0 <= i < a ==> Upper(s[i]))
    && (forall i :: a <= i < a + 6 ==> Digit(s[i]))
    && (s[a + 6] == 'C' || s[a + 6] == 'P')
    && (forall i :: a + 7 <= i < a + 7 + b ==> Digit(s[i]))
    && s[a + 7 + b] != '\n'
    && s[a + 8 + b] == 'U' && s[a + 9 + b] == 'S'
  }

  /** Some way of matching the pattern at the start of `s` succeeds. */
  ghost predicate MatchesPattern(s: string)
  {
    exists a: nat, b: nat :: ShapeAt(s, a, b)
  }

  /** The number of leading upper-case ASCII letters. */
  function UpperRun(s: string): (n: nat)
    ensures n <= |s|
    ensures forall i :: 0 <= i < n ==> Upper(s[i])
    ensures n < |s| ==> !Upper(s[n])
    decreases |s|
  {
    if s != [] && Upper(s[0]) then 1 + UpperRun(s[1..]) else 0
  }

  /** The number of leading ASCII digits. */
  function DigitRun(s: string): (n: nat)
    ensures n <= |s|
    ensures forall i :: 0 <= i < n ==> Digit(s[i])
    ensures n < |s| ==> !Digit(s[n])
    decreases |s|
  {
    if s != [] && Digit(s[0]) then 1 + DigitRun(s[1..]) else 0
  }

  /**
   * The matcher without backtracking: the root is the whole leading run of letters,
   * and the strike is either the whole run of digits after C/P (the "." then takes a
   * non-digit) or all of that run but its last digit (the "." takes that digit).
   */
  function IsOptionSymbol(s: string): (b: bool)
    ensures b ==> 12 <= |s| && Upper(s[0])
  {
    var a := UpperRun(s);
    if a == 0 || a + 7 > |s| || DigitRun(s[a..]) < 6 || (s[a + 6] != 'C' && s[a + 6] != 'P') then false
    else
      var rest := s[a + 7..];
      var m := DigitRun(rest);
      (m >= 2 && m + 2 <= |rest| && rest[m] == 'U' && rest[m + 1] == 'S')
      || (m >= 1 && m + 3 <= |rest| && rest[m] != '\n' && rest[m + 1] == 'U' && rest[m + 2] == 'S')
  }

  lemma UpperRunIs(s: string, a: nat)
    requires a < |s| && !Upper(s[a])
    requires forall i :: 0 <= i < a ==> Upper(s[i])
    ensures UpperRun(s) == a
  {
  }

  lemma DigitRunIs(s: string, a: nat)
    requires a < |s| && !Digit(s[a])
    requires forall i :: 0 <= i < a ==> Digit(s[i])
    ensures DigitRun(s) == a
  {
  }

  lemma MatcherSound(s: string)
    requires IsOptionSymbol(s)
    ensures MatchesPattern(s)
  {
    var a := UpperRun(s);
    var rest := s[a + 7..];
    var m := DigitRun(rest);
    assert forall i :: a <= i < a + 6 ==> Digit(s[i]) by {
      forall i | a <= i < a + 6 ensures Digit(s[i]) { assert s[a..][i - a] == s[i]; }
    }
    assert forall i :: 0 <= i < |rest| ==> rest[i] == s[a + 7 + i];
    if m >= 2 && m + 2 <= |rest| && rest[m] == 'U' && rest[m + 1] == 'S' {
      assert ShapeAt(s, a, m - 1);
    } else {
      assert ShapeAt(s, a, m);
    }
  }

  /** A match's root is the whole letter run, and six date digits follow it. */
  lemma RootAndDate(s: string, a: nat, b: nat)
    requires ShapeAt(s, a, b)
    ensures UpperRun(s) == a && DigitRun(s[a..]) >= 6
  {
    UpperRunIs(s, a);
    assert forall i :: 0 <= i < 6 ==> s[a..][i] == s[a + i];
  }

  /** After C/P, a strike of `b` digits, any non-newline and "US" pass the scanner's test. */
  lemma StrikeAndSuffix(rest: string, b: nat)
    requires 1 <= b && b + 3 <= |rest|
    requires forall i :: 0 <= i < b ==> Digit(rest[i])
    requires rest[b] != '\n' && rest[b + 1] == 'U' && rest[b + 2] == 'S'
    ensures var m := DigitRun(rest);
            || (m >= 2 && m + 2 <= |rest| && rest[m] == 'U' && rest[m + 1] == 'S')
            || (m >= 1 && m + 3 <= |rest| && rest[m] != '\n' && rest[m + 1] == 'U' && rest[m + 2] == 'S')
  {
    if Digit(rest[b]) {
      DigitRunIs(rest, b + 1);
    } else {
      DigitRunIs(rest, b);
    }
  }

  lemma MatcherComplete(s: string, a: nat, b: nat)
    requires ShapeAt(s, a, b)
    ensures IsOptionSymbol(s)
  {
    RootAndDate(s, a, b);
    var rest := s[a + 7..];
    assert forall i :: 0 <= i < |rest| ==> rest[i] == s[a + 7 + i];
    StrikeAndSuffix(rest, b);
  }

  /** The scanning matcher accepts exactly the symbols the regular expression matches. */
  lemma IsOptionSymbolMatches(s: string)
    ensures IsOptionSymbol(s) <==> MatchesPattern(s)
  {
    if IsOptionSymbol(s) {
      MatcherSound(s);
    }
    if MatchesPattern(s) {
      var a: nat, b: nat :| ShapeAt(s, a, b);
      MatcherComplete(s, a, b);
    }
  }

  /** The contract symbol of a call on AAPL (root, expiry date, C, strike, ".US"). */
  lemma AaplCallIsOption()
    ensures IsOptionSymbol("AAPL240119C00150000.US")
  {
    var s := "AAPL240119C00150000.US";
    assert ShapeAt(s, 4, 8);
    MatcherComplete(s, 4, 8);
  }
}
