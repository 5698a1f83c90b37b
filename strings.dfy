/**
 * The JavaScript string operations the webhook relies on, over Dafny strings:
 * `split` on one separator character, `trim`, the `\s` character class,
 * `Number.prototype.toString`, `parseInt(s, 10)`, `parseFloat`,
 * `indexOf`/`replace` with a string pattern and the `toLowerCase() === 'skip'` test.
 */
module Strings {
  import opened Wrappers

  // ---------------------------------------------------------------------------
  // Whitespace: JavaScript's WhiteSpace and LineTerminator characters, which is
  // the set matched by the regular expression class \s and removed by trim().
  // ---------------------------------------------------------------------------

  predicate IsSpace(c: char) {
    || c == ' '
    || '\t' <= c <= '\r'            // tab, line feed, vertical tab, form feed, carriage return
    || c == '\U{00A0}' || c == '\U{1680}'
    || '\U{2000}' <= c <= '\U{200A}'
    || c == '\U{2028}' || c == '\U{2029}' || c == '\U{202F}'
    || c == '\U{205F}' || c == '\U{3000}' || c == '\U{FEFF}'
  }

  /** Leading whitespace removed (the start half of `trim`, also what parseInt/parseFloat skip). */
  function TrimStart(s: string): (r: string)
    ensures |r| <= |s| && r == s[|s| - |r|..]
    ensures r == [] || !IsSpace(r[0])
    ensures forall i :: 0 <= i < |s| - |r| ==> IsSpace(s[i])
    decreases |s|
  {
    if |s| > 0 && IsSpace(s[0]) then TrimStart(s[1..]) else s
  }

  /** Trailing whitespace removed. */
  function TrimEnd(s: string): (r: string)
    ensures |r| <= |s| && r == s[..|r|]
    ensures r == [] || !IsSpace(r[|r| - 1])
    ensures forall i :: |r| <= i < |s| ==> IsSpace(s[i])
    decreases |s|
  {
    if |s| > 0 && IsSpace(s[|s| - 1]) then TrimEnd(s[..|s| - 1]) else s
  }

  /** `String.prototype.trim`. */
  function Trim(s: string): (r: string)
    ensures |r| <= |s|
    ensures r == [] || (!IsSpace(r[0]) && !IsSpace(r[|r| - 1]))
    ensures (forall i :: 0 <= i < |s| ==> !IsSpace(s[i])) ==> r == s
    ensures (forall i :: 0 <= i < |s| ==> IsSpace(s[i])) ==> r == []
  {
    TrimEnds(s);
    TrimEnd(TrimStart(s))
  }

  /** A string of whitespace only has nothing left once its leading whitespace is removed. */
  lemma {:induction false} TrimStartAllSpace(s: string)
    requires forall i :: 0 <= i < |s| ==> IsSpace(s[i])
    ensures TrimStart(s) == []
    decreases |s|
  {
    if |s| > 0 {
      assert IsSpace(s[0]);
      assert forall i :: 0 <= i < |s[1..]| ==> s[1..][i] == s[i + 1];
      TrimStartAllSpace(s[1..]);
    }
  }

  /** Trimming both ends leaves a non-space at each end, and keeps or empties the extreme cases. */
  lemma TrimEnds(s: string)
    ensures var r := TrimEnd(TrimStart(s));
      && (r == [] || (!IsSpace(r[0]) && !IsSpace(r[|r| - 1])))
      && ((forall i :: 0 <= i < |s| ==> !IsSpace(s[i])) ==> r == s)
      && ((forall i :: 0 <= i < |s| ==> IsSpace(s[i])) ==> r == [])
  {
    var t := TrimStart(s);
    var r := TrimEnd(t);
    if r != [] {
      assert r[0] == t[0];
    }
    if forall i :: 0 <= i < |s| ==> !IsSpace(s[i]) {
      if s != [] {
        assert !IsSpace(s[0]);
      }
      assert t == s;
      if t != [] {
        assert !IsSpace(t[|t| - 1]);
      }
    }
    if forall i :: 0 <= i < |s| ==> IsSpace(s[i]) {
      TrimStartAllSpace(s);
    }
  }

  // ---------------------------------------------------------------------------
  // split(sep) and join(sep)
  // ---------------------------------------------------------------------------

  /** `s.split(sep)` for a one-character separator: always at least one part, none containing `sep`. */
  function Split(s: string, sep: char): (parts: seq<string>)
    ensures |parts| >= 1
    ensures forall i :: 0 <= i < |parts| ==> sep !in parts[i]
    ensures |parts| == 1 <==> sep !in s
    ensures parts[0] <= s && (|parts[0]| == |s| || s[|parts[0]|] == sep)
    decreases |s|
  {
    if |s| == 0 then [""]
    else
      var rest := Split(s[1..], sep);
      assert sep in s <==> s[0] == sep || sep in s[1..] by {
        assert s == [s[0]] + s[1..];
      }
      if s[0] == sep then [""] + rest
      else [[s[0]] + rest[0]] + rest[1..]
  }

  /** `parts.join(sep)`. */
  function Join(parts: seq<string>, sep: char): string
    requires |parts| >= 1
    decreases |parts|
  {
    if |parts| == 1 then parts[0] else parts[0] + [sep] + Join(parts[1..], sep)
  }

  lemma {:induction false} SplitWithoutSeparator(a: string, sep: char)
    requires sep !in a
    ensures Split(a, sep) == [a]
  {
    // |Split(a, sep)| == 1 by the contract; its one part is all of a
    if |a| > 0 {
      SplitWithoutSeparator(a[1..], sep);
      assert a == [a[0]] + a[1..];
    }
  }

  /** Splitting `a + sep + rest` with `sep` not in `a` yields `a` followed by the parts of `rest`. */
  lemma {:induction false} SplitAtFirstSeparator(a: string, sep: char, rest: string)
    requires sep !in a
    ensures Split(a + [sep] + rest, sep) == [a] + Split(rest, sep)
    decreases |a|
  {
    var s := a + [sep] + rest;
    if |a| == 0 {
      assert s[1..] == rest;
    } else {
      assert s[1..] == a[1..] + [sep] + rest;
      SplitAtFirstSeparator(a[1..], sep, rest);
      assert [a[0]] + a[1..] == a;
    }
  }

  /** Round trip: joining parts free of the separator and splitting again gives the parts back. */
  lemma {:induction false} SplitJoin(parts: seq<string>, sep: char)
    requires |parts| >= 1
    requires forall i :: 0 <= i < |parts| ==> sep !in parts[i]
    ensures Split(Join(parts, sep), sep) == parts
    decreases |parts|
  {
    if |parts| == 1 {
      SplitWithoutSeparator(parts[0], sep);
    } else {
      SplitJoin(parts[1..], sep);
      SplitAtFirstSeparator(parts[0], sep, Join(parts[1..], sep));
      assert parts == [parts[0]] + parts[1..];
    }
  }

  /** Splitting loses nothing: the parts join back to the original string. */
  lemma {:induction false} JoinSplit(s: string, sep: char)
    ensures Join(Split(s, sep), sep) == s
    decreases |s|
  {
    if |s| > 0 {
      JoinSplit(s[1..], sep);
      var rest := Split(s[1..], sep);
      if s[0] == sep {
        assert Split(s, sep)[1..] == rest;
      } else {
        var parts := Split(s, sep);
        if |rest| == 1 {
          assert parts == [[s[0]] + rest[0]];
        } else {
          assert parts[1..] == rest[1..];
          assert Join(rest, sep) == rest[0] + [sep] + Join(rest[1..], sep);
        }
        assert s == [s[0]] + s[1..];
      }
    }
  }

  // ---------------------------------------------------------------------------
  // Decimal digits: Number.prototype.toString for integers, /^\d+$/, parseInt, parseFloat
  // ---------------------------------------------------------------------------

  predicate IsDigit(c: char) { '0' <= c <= '9' }

  predicate AllDigits(s: string) { forall i :: 0 <= i < |s| ==> IsDigit(s[i]) }

  /** The test `/^\d+$/.test(s)`. */
  predicate IsDecimal(s: string) { |s| > 0 && AllDigits(s) }

  function DigitChar(d: nat): (c: char)
    requires d < 10
    ensures IsDigit(c)
  {
    (48 + d) as char
  }

  function DigitValue(c: char): (d: nat)
    requires IsDigit(c)
    ensures d < 10
  {
    (c as int) - 48
  }

  /** Decimal rendering of a natural number, without leading zeros. */
  function NatToString(n: nat): (s: string)
    ensures IsDecimal(s)
    decreases n
  {
    if n < 10 then [DigitChar(n)] else NatToString(n / 10) + [DigitChar(n % 10)]
  }

  /** `i.toString()` for an integer-valued JavaScript number. */
  function IntToString(i: int): (s: string)
    ensures |s| > 0
    ensures i >= 0 <==> IsDecimal(s)
    ensures i < 0 <==> s[0] == '-'
  {
    if i < 0 then
      var s := "-" + NatToString(-i);
      assert !IsDigit(s[0]);
      s
    else NatToString(i)
  }

  /** The value of a string of decimal digits (0 for the empty string). */
  function DigitsValue(s: string): nat
    requires AllDigits(s)
    decreases |s|
  {
    if s == [] then 0 else DigitsValue(s[..|s| - 1]) * 10 + DigitValue(s[|s| - 1])
  }

  /** The longest prefix of `s` made of decimal digits. */
  function LeadingDigits(s: string): (d: string)
    ensures d <= s && AllDigits(d)
    ensures |d| == |s| || !IsDigit(s[|d|])
    decreases |s|
  {
    if |s| > 0 && IsDigit(s[0]) then [s[0]] + LeadingDigits(s[1..]) else []
  }

  /**
   * `parseInt(s, 10)`: leading whitespace skipped, an optional sign, then the longest run of
   * digits; `None` stands for NaN (no digit where one is needed).
   */
  function ParseInt(s: string): Option<int> {
    var t := TrimStart(s);
    var signed := |t| > 0 && (t[0] == '-' || t[0] == '+');
    var d := LeadingDigits(if signed then t[1..] else t);
    var v: int := if d == [] then 0 else DigitsValue(d);
    if d == [] then None
    else if signed && t[0] == '-' then Some(-v)
    else Some(v)
  }

  /** The value of the digits after a decimal point: `0.d1d2…`, always below one. */
  function FractionValue(s: string): (r: real)
    requires AllDigits(s)
    ensures 0.0 <= r < 1.0
    decreases |s|
  {
    if s == [] then 0.0 else (DigitValue(s[0]) as real + FractionValue(s[1..])) / 10.0
  }

  /**
   * `parseFloat(s)` on plain decimal notation: leading whitespace skipped, an optional sign,
   * digits, optionally a point and more digits; at least one digit is needed, otherwise `None` (NaN).
   */
  function ParseFloat(s: string): Option<real> {
    var t := TrimStart(s);
    var signed := |t| > 0 && (t[0] == '-' || t[0] == '+');
    var u := if signed then t[1..] else t;
    var whole := LeadingDigits(u);
    var rest := u[|whole|..];
    var fraction := if |rest| > 0 && rest[0] == '.' then LeadingDigits(rest[1..]) else [];
    if whole == [] && fraction == [] then None
    else
      var v := DigitsValue(whole) as real + FractionValue(fraction);
      Some(if signed && t[0] == '-' then -v else v)
  }

  lemma {:induction false} LeadingDigitsOfDigits(s: string)
    requires AllDigits(s)
    ensures LeadingDigits(s) == s
    decreases |s|
  {
    if |s| > 0 {
      LeadingDigitsOfDigits(s[1..]);
      assert s == [s[0]] + s[1..];
    }
  }

  lemma {:induction false} DigitsValueOfNatToString(n: nat)
    ensures DigitsValue(NatToString(n)) == n
    decreases n
  {
    var s := NatToString(n);
    if n >= 10 {
      DigitsValueOfNatToString(n / 10);
      assert s[..|s| - 1] == NatToString(n / 10);
    }
  }

  /** parseInt reads back a decimal string as its value. */
  lemma ParseIntOfDecimal(s: string)
    requires IsDecimal(s)
    ensures ParseInt(s) == Some(DigitsValue(s))
  {
    DecimalNotTrimmed(s);
    LeadingDigitsOfDigits(s);
  }

  lemma DecimalNotTrimmed(s: string)
    requires IsDecimal(s)
    ensures TrimStart(s) == s && s[0] != '-' && s[0] != '+'
  {
    assert '0' <= s[0] <= '9';
    assert !IsSpace(s[0]);
  }

  /** parseInt reads back the rendering of a negative number. */
  lemma ParseIntOfNegative(i: int)
    requires i < 0
    ensures ParseInt(IntToString(i)) == Some(i)
  {
    var n := NatToString(-i);
    var s := "-" + n;
    assert IntToString(i) == s;
    assert s[0] == '-' && !IsSpace(s[0]);
    assert TrimStart(s) == s;
    assert s[1..] == n;
    LeadingDigitsOfDigits(n);
    DigitsValueOfNatToString(-i);
  }

  /** parseInt reads back the rendering of a non-negative number. */
  lemma ParseIntOfNonNegative(i: nat)
    ensures ParseInt(IntToString(i)) == Some(i)
  {
    var s := NatToString(i);
    assert IntToString(i) == s;
    ParseIntOfDecimal(s);
    DigitsValueOfNatToString(i);
  }

  /** Round trip: parseInt(i.toString(), 10) == i. */
  lemma ParseIntOfIntToString(i: int)
    ensures ParseInt(IntToString(i)) == Some(i)
  {
    if i < 0 {
      ParseIntOfNegative(i);
    } else {
      ParseIntOfNonNegative(i);
    }
  }

  /** Distinct numbers render as distinct strings (so ids derived from user ids never collide). */
  lemma IntToStringInjective(a: int, b: int)
    ensures IntToString(a) == IntToString(b) <==> a == b
  {
    ParseIntOfIntToString(a);
    ParseIntOfIntToString(b);
  }

  /** parseFloat reads back a decimal string as its value. */
  lemma ParseFloatOfDecimal(s: string)
    requires IsDecimal(s)
    ensures ParseFloat(s) == Some(DigitsValue(s) as real)
  {
    DecimalNotTrimmed(s);
    LeadingDigitsOfDigits(s);
    assert s[|s|..] == [];
    assert FractionValue([]) == 0.0;
  }

  // ---------------------------------------------------------------------------
  // indexOf and replace with a string pattern
  // ---------------------------------------------------------------------------

  /** The first position at or after `k` where `pat` occurs in `s`. */
  function IndexOfFrom(s: string, pat: string, k: nat): (r: Option<nat>)
    requires k <= |s|
    ensures r.Some? ==> k <= r.value <= |s| && pat <= s[r.value..]
    ensures r.Some? ==> forall j :: k <= j < r.value ==> !(pat <= s[j..])
    ensures r.None? ==> forall j :: k <= j <= |s| ==> !(pat <= s[j..])
    decreases |s| - k
  {
    if pat <= s[k..] then Some(k)
    else if k == |s| then None
    else IndexOfFrom(s, pat, k + 1)
  }

  /** `s.indexOf(pat)`, with `None` for -1. */
  function IndexOf(s: string, pat: string): Option<nat> {
    IndexOfFrom(s, pat, 0)
  }

  /** `s.replace(pat, rep)` with a string pattern: only the first occurrence is replaced. */
  function ReplaceFirst(s: string, pat: string, rep: string): (r: string)
    ensures IndexOf(s, pat).None? ==> r == s
  {
    match IndexOf(s, pat)
    case None => s
    case Some(i) => s[..i] + rep + s[i + |pat|..]
  }

  /**
   * `t.toLowerCase() === 'skip'`. Besides the ASCII letters, toLowerCase maps only the
   * Kelvin sign U+212A onto a letter of "skip"; no other character lowers into one of them.
   */
  predicate SaysSkip(t: string) {
    && |t| == 4
    && (t[0] == 's' || t[0] == 'S')
    && (t[1] == 'k' || t[1] == 'K' || t[1] == '\U{212A}')
    && (t[2] == 'i' || t[2] == 'I')
    && (t[3] == 'p' || t[3] == 'P')
  }
}
