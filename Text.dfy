/** The JavaScript string operations the tracker relies on: `toLowerCase`,
    `includes`, `slice(0, n)`, `trim`, `join`, number to text, `toFixed(0)`
    and the default `sort` order of strings. `Split` and `ParseInt` are not
    used by the tracker: they serve the CSV reader, the inverse side of the
    export round trip. */
module Text {

  import opened Wrappers

  // ---------------------------------------------------------------- case

  /** `toLowerCase` on one character; only the ASCII letters are mapped. */
  function LowerChar(c: char): char
  {
    if 'A' <= c <= 'Z' then (c as int + 32) as char else c
  }

  function ToLower(s: string): (r: string)
    ensures |r| == |s|
    ensures forall i :: 0 <= i < |s| ==> r[i] == LowerChar(s[i])
  {
    if s == [] then [] else [LowerChar(s[0])] + ToLower(s[1..])
  }

  // ---------------------------------------------------------------- includes

  /** `needle` occurs in `hay` starting at index `i`. */
  predicate OccursAt(hay: string, needle: string, i: int)
  {
    0 <= i && i + |needle| <= |hay| && hay[i..i + |needle|] == needle
  }

  /** `hay.includes(needle)`: a search from the left. */
  function Contains(hay: string, needle: string): (b: bool)
    ensures b <==> exists i :: OccursAt(hay, needle, i)
    decreases |hay|
  {
    if |needle| > |hay| then false
    else if hay[..|needle|] == needle then
      assert OccursAt(hay, needle, 0);
      true
    else
      var b := Contains(hay[1..], needle);
      assert b ==> exists i :: OccursAt(hay, needle, i) by {
        if b {
          var i :| OccursAt(hay[1..], needle, i);
          assert hay[1..][i..i + |needle|] == hay[i + 1..i + 1 + |needle|];
          assert OccursAt(hay, needle, i + 1);
        }
      }
      assert (exists i :: OccursAt(hay, needle, i)) ==> b by {
        if exists i :: OccursAt(hay, needle, i) {
          var i :| OccursAt(hay, needle, i);
          assert i != 0;
          assert hay[1..][i - 1..i - 1 + |needle|] == hay[i..i + |needle|];
          assert OccursAt(hay[1..], needle, i - 1);
        }
      }
      b
  }

  // ---------------------------------------------------------------- slice

  /** `s.slice(0, n)`: the first `n` characters, or all of `s` when it is shorter. */
  function Prefix(s: string, n: nat): (r: string)
    ensures |r| == if |s| < n then |s| else n
    ensures r <= s
  {
    if |s| <= n then s else s[..n]
  }

  // ---------------------------------------------------------------- trim

  /** The characters `String.prototype.trim` removes: the ECMAScript
      WhiteSpace and LineTerminator code points. */
  predicate IsTrimSpace(c: char)
  {
    var n := c as int;
    n == 0x09 || n == 0x0A || n == 0x0B || n == 0x0C || n == 0x0D || n == 0x20 ||
    n == 0xA0 || n == 0x1680 || (0x2000 <= n <= 0x200A) || n == 0x2028 || n == 0x2029 ||
    n == 0x202F || n == 0x205F || n == 0x3000 || n == 0xFEFF
  }

  predicate AllTrimSpace(s: string)
  {
    forall i :: 0 <= i < |s| ==> IsTrimSpace(s[i])
  }

  /** Number of leading trim-space characters. */
  function LeadingSpace(s: string): (n: nat)
    ensures n <= |s| && AllTrimSpace(s[..n])
    ensures n < |s| ==> !IsTrimSpace(s[n])
  {
    if s == [] || !IsTrimSpace(s[0]) then 0
    else
      var n := LeadingSpace(s[1..]);
      assert s[..n + 1] == [s[0]] + s[1..][..n];
      n + 1
  }

  /** Index where the trailing run of trim-space characters starts. */
  function TrailingSpaceStart(s: string): (n: nat)
    ensures n <= |s| && AllTrimSpace(s[n..])
    ensures 0 < n ==> !IsTrimSpace(s[n - 1])
  {
    if s == [] || !IsTrimSpace(s[|s| - 1]) then |s|
    else
      var n := TrailingSpaceStart(s[..|s| - 1]);
      assert s[n..] == s[..|s| - 1][n..] + [s[|s| - 1]];
      n
  }

  /** `s.trim()`: the text with trim-space removed at both ends and nothing else changed. */
  function Trim(s: string): (r: string)
    ensures exists i :: OccursAt(s, r, i) && AllTrimSpace(s[..i]) && AllTrimSpace(s[i + |r|..])
    ensures r != [] ==> !IsTrimSpace(r[0]) && !IsTrimSpace(r[|r| - 1])
    ensures r == [] <==> AllTrimSpace(s)
  {
    var i := LeadingSpace(s);
    var j := TrailingSpaceStart(s);
    if i == |s| then
      assert s[..i] == s && s[0..] == s && OccursAt(s, [], 0);
      []
    else
      SpaceRunsApart(s, i, j);
      var r := s[i..j];
      assert OccursAt(s, r, i) && s[i + |r|..] == s[j..];
      r
  }

  /** A character that is not trim-space lies before any all-trim-space suffix. */
  lemma SpaceRunsApart(s: string, i: nat, j: nat)
    requires i < |s| && !IsTrimSpace(s[i])
    requires j <= |s| && AllTrimSpace(s[j..])
    ensures i < j && !AllTrimSpace(s)
  {
    forall k | j <= k < |s| ensures IsTrimSpace(s[k]) {
      assert s[k] == s[j..][k - j];
    }
  }

  // ---------------------------------------------------------------- join / split

  /** `xs.join(sep)`. */
  function Join(xs: seq<string>, sep: string): string
  {
    if |xs| == 0 then ""
    else if |xs| == 1 then xs[0]
    else xs[0] + sep + Join(xs[1..], sep)
  }

  lemma {:induction false} JoinExcludes(xs: seq<string>, sep: string, c: char)
    requires c !in sep
    requires forall i :: 0 <= i < |xs| ==> c !in xs[i]
    ensures c !in Join(xs, sep)
  {
    if |xs| > 1 {
      JoinExcludes(xs[1..], sep, c);
    }
  }

  /** Splits `s` at every occurrence of `sep` (like `s.split("\n")`). */
  function Split(s: string, sep: char): (r: seq<string>)
    ensures |r| >= 1
  {
    if s == [] then [""]
    else
      var rest := Split(s[1..], sep);
      if s[0] == sep then [""] + rest else [[s[0]] + rest[0]] + rest[1..]
  }

  lemma {:induction false} SplitWithoutSep(s: string, sep: char)
    requires sep !in s
    ensures Split(s, sep) == [s]
  {
    if s != [] {
      SplitWithoutSep(s[1..], sep);
      assert [s[0]] + s[1..] == s;
    }
  }

  lemma {:induction false} SplitAtSep(x: string, t: string, sep: char)
    requires sep !in x
    ensures Split(x + [sep] + t, sep) == [x] + Split(t, sep)
  {
    var s := x + [sep] + t;
    if x == [] {
      assert s[1..] == t;
    } else {
      assert s[1..] == x[1..] + [sep] + t;
      SplitAtSep(x[1..], t, sep);
      assert [x[0]] + x[1..] == x;
    }
  }

  /** Splitting a join at a separator that no part contains gives the parts back. */
  lemma {:induction false} SplitJoin(xs: seq<string>, sep: char)
    requires |xs| >= 1
    requires forall i :: 0 <= i < |xs| ==> sep !in xs[i]
    ensures Split(Join(xs, [sep]), sep) == xs
  {
    if |xs| == 1 {
      SplitWithoutSep(xs[0], sep);
    } else {
      SplitJoin(xs[1..], sep);
      SplitAtSep(xs[0], Join(xs[1..], [sep]), sep);
      assert [xs[0]] + xs[1..] == xs;
    }
  }

  // ---------------------------------------------------------------- numbers

  predicate IsDigit(c: char)
  {
    '0' <= c <= '9'
  }

  function DigitChar(d: int): (c: char)
    requires 0 <= d < 10
    ensures IsDigit(c) && c as int - '0' as int == d
  {
    ('0' as int + d) as char
  }

  /** Decimal text of a natural number, most significant digit first, no leading zero. */
  function NatToString(n: nat): (r: string)
    ensures |r| >= 1 && forall i :: 0 <= i < |r| ==> IsDigit(r[i])
    ensures |r| > 1 ==> r[0] != '0'
  {
    if n < 10 then [DigitChar(n)] else NatToString(n / 10) + [DigitChar(n % 10)]
  }

  /** `String(n)` for an integer `n`. */
  function IntToString(n: int): string
  {
    if n < 0 then "-" + NatToString(-n) else NatToString(n)
  }

  function DigitValue(c: char): (d: nat)
    requires IsDigit(c)
    ensures d < 10
  {
    c as int - '0' as int
  }

  /** The value of a string of decimal digits. */
  function DigitsValue(s: string): nat
    requires forall i :: 0 <= i < |s| ==> IsDigit(s[i])
  {
    if s == [] then 0 else DigitsValue(s[..|s| - 1]) * 10 + DigitValue(s[|s| - 1])
  }

  /** Reads back what `IntToString` writes: an optional minus sign and digits. */
  function ParseInt(s: string): Option<int>
  {
    if s == [] then None
    else if s[0] == '-' then
      if |s| > 1 && forall i :: 1 <= i < |s| ==> IsDigit(s[i]) then Some(0 - DigitsValue(s[1..])) else None
    else if forall i :: 0 <= i < |s| ==> IsDigit(s[i]) then Some(DigitsValue(s)) else None
  }

  lemma {:induction false} DigitsOfNat(n: nat)
    ensures DigitsValue(NatToString(n)) == n
  {
    if n >= 10 {
      DigitsOfNat(n / 10);
      var s := NatToString(n);
      assert s[..|s| - 1] == NatToString(n / 10);
    }
  }

  /** `IntToString` and `ParseInt` are inverse: the exported amount reads back exactly. */
  lemma IntToStringRoundTrip(n: int)
    ensures ParseInt(IntToString(n)) == Some(n)
  {
    if n < 0 {
      NegativeReadsBack(-n);
    } else {
      var s := NatToString(n);
      DigitsOfNat(n);
      assert s[0] != '-' by { assert IsDigit(s[0]); }
    }
  }

  lemma NegativeReadsBack(m: int)
    requires m > 0
    ensures ParseInt("-" + NatToString(m)) == Some(-m)
  {
    var d := NatToString(m);
    var s := "-" + d;
    DigitsOfNat(m);
    assert s[0] == '-' && |s| > 1;
    assert s[1..] == d;
    assert forall i :: 1 <= i < |s| ==> IsDigit(s[i]) by {
      forall i | 1 <= i < |s| ensures IsDigit(s[i]) {
        assert s[i] == d[i - 1];
      }
    }
  }

  /** The integer `x.toFixed(0)` chooses for a non-negative `x`: the nearest one, the larger on a tie. */
  function RoundHalfUp(x: real): (n: nat)
    requires x >= 0.0
    ensures n as real - 0.5 <= x < n as real + 0.5
  {
    (x + 0.5).Floor
  }

  /** `x.toFixed(0)`: the sign is written first and the magnitude rounded on its own. */
  function FixedZero(x: real): string
  {
    if x < 0.0 then "-" + NatToString(RoundHalfUp(-x)) else NatToString(RoundHalfUp(x))
  }

  // ---------------------------------------------------------------- sort()

  /** The order of the default `Array.prototype.sort`: character by character, a proper prefix first. */
  predicate StrLess(a: string, b: string)
  {
    if a == [] then b != []
    else if b == [] then false
    else if a[0] != b[0] then a[0] < b[0]
    else StrLess(a[1..], b[1..])
  }

  lemma {:induction false} StrLessTotal(a: string, b: string)
    requires a != b
    ensures StrLess(a, b) || StrLess(b, a)
  {
    if a != [] && b != [] && a[0] == b[0] {
      assert a == [a[0]] + a[1..] && b == [b[0]] + b[1..];
      StrLessTotal(a[1..], b[1..]);
    }
  }

  lemma {:induction false} StrLessTransitive(a: string, b: string, c: string)
    requires StrLess(a, b) && StrLess(b, c)
    ensures StrLess(a, c)
  {
    if a != [] && b != [] && c != [] && a[0] == b[0] && b[0] == c[0] {
      StrLessTransitive(a[1..], b[1..], c[1..]);
    }
  }

  predicate StrictlyAscending(s: seq<string>)
  {
    forall i, j :: 0 <= i < j < |s| ==> StrLess(s[i], s[j])
  }

  function InsertString(x: string, s: seq<string>): (r: seq<string>)
    ensures multiset(r) == multiset(s) + multiset{x}
  {
    if s == [] then [x]
    else if StrLess(x, s[0]) then [x] + s
    else
      assert s == [s[0]] + s[1..];
      [s[0]] + InsertString(x, s[1..])
  }

  /** `keys.sort()` by insertion. */
  function SortStrings(ks: seq<string>): (r: seq<string>)
    ensures multiset(r) == multiset(ks)
  {
    if ks == [] then []
    else
      assert ks == [ks[0]] + ks[1..];
      InsertString(ks[0], SortStrings(ks[1..]))
  }

  lemma {:induction false} InsertStringAscending(x: string, s: seq<string>)
    requires StrictlyAscending(s) && x !in s
    ensures StrictlyAscending(InsertString(x, s))
  {
    if s == [] {
    } else if StrLess(x, s[0]) {
      var r := [x] + s;
      forall i, j | 0 <= i < j < |r| ensures StrLess(r[i], r[j]) {
        if i == 0 && j > 1 {
          StrLessTransitive(x, s[0], s[j - 1]);
        }
      }
    } else {
      StrLessTotal(x, s[0]);
      InsertStringAscending(x, s[1..]);
      var t := InsertString(x, s[1..]);
      var r := [s[0]] + t;
      forall i, j | 0 <= i < j < |r| ensures StrLess(r[i], r[j]) {
        if i == 0 {
          assert r[j] in multiset(t);
          assert r[j] == x || r[j] in s[1..];
          if r[j] != x {
            var k :| 0 <= k < |s[1..]| && s[1..][k] == r[j];
            assert s[k + 1] == r[j];
          }
        }
      }
    }
  }

  /** Sorting distinct keys gives them in strictly ascending order. */
  lemma {:induction false} SortStringsAscending(ks: seq<string>)
    requires forall i, j :: 0 <= i < j < |ks| ==> ks[i] != ks[j]
    ensures StrictlyAscending(SortStrings(ks))
  {
    if ks != [] {
      SortStringsAscending(ks[1..]);
      var t := SortStrings(ks[1..]);
      assert ks[0] !in ks[1..] by {
        forall k | 0 <= k < |ks[1..]| ensures ks[1..][k] != ks[0] {
          assert ks[1..][k] == ks[k + 1];
        }
      }
      assert ks[0] !in multiset(t);
      InsertStringAscending(ks[0], t);
    }
  }
}
