/**
 * The string operations the script relies on (`str.startswith`, `str.strip`,
 * `str.split("\t")`, `str.join`, `str(int)`) and the abstract number
 * conversions (`str(float)`, `float(...)`, `int(...)`).
 */
module Text {
  import opened Wrappers

  /** Python's `str.isspace` for one character: what the no-argument `str.strip()` removes. */
  predicate IsSpace(c: char) {
    var n := c as int;
    (9 <= n <= 13) || (28 <= n <= 32) || n == 0x85 || n == 0xA0 || n == 0x1680
    || (0x2000 <= n <= 0x200A) || n == 0x2028 || n == 0x2029 || n == 0x202F
    || n == 0x205F || n == 0x3000
  }

  function Min(a: int, b: int): int { if a <= b then a else b }
  function Max(a: int, b: int): int { if a >= b then a else b }

  predicate StartsWith(s: string, prefix: string) {
    |prefix| <= |s| && s[..|prefix|] == prefix
  }

  /** The leading-whitespace half of `str.strip()`. */
  function StripLeft(s: string): (r: string)
    ensures |r| <= |s| && r == s[|s| - |r|..]
    ensures r == [] || !IsSpace(r[0])
    ensures forall i :: 0 <= i < |s| - |r| ==> IsSpace(s[i])
    decreases |s|
  {
    if |s| > 0 && IsSpace(s[0]) then StripLeft(s[1..]) else s
  }

  /** The trailing-whitespace half of `str.strip()`. */
  function StripRight(s: string): (r: string)
    ensures |r| <= |s| && r == s[..|r|]
    ensures r == [] || !IsSpace(r[|r| - 1])
    ensures forall i :: |r| <= i < |s| ==> IsSpace(s[i])
    decreases |s|
  {
    if |s| > 0 && IsSpace(s[|s| - 1]) then StripRight(s[..|s| - 1]) else s
  }

  /** Python's `s.strip()`. */
  function Strip(s: string): string {
    StripRight(StripLeft(s))
  }

  lemma StripKeepsTrimmed(s: string)
    requires s != [] && !IsSpace(s[0]) && !IsSpace(s[|s| - 1])
    ensures Strip(s) == s
  {
  }

  /** Python's `sep.join(parts)`. */
  function Join(parts: seq<string>, sep: string): (r: string)
    decreases |parts|
  {
    if |parts| == 0 then ""
    else if |parts| == 1 then parts[0]
    else parts[0] + sep + Join(parts[1..], sep)
  }

  /** Python's `s.split(sep)` for a one-character separator: the pieces between separators, empty ones included. */
  function Split(s: string, sep: char): (r: seq<string>)
    ensures |r| >= 1
    ensures forall i :: 0 <= i < |r| ==> sep !in r[i]
    decreases |s|
  {
    if |s| == 0 then [""]
    else
      var rest := Split(s[1..], sep);
      if s[0] == sep then [""] + rest
      else [[s[0]] + rest[0]] + rest[1..]
  }

  /** Joining the pieces of a split with the same separator gives back the string. */
  lemma {:induction false} JoinSplit(s: string, sep: char)
    ensures Join(Split(s, sep), [sep]) == s
    decreases |s|
  {
    if |s| > 0 {
      var rest := Split(s[1..], sep);
      JoinSplit(s[1..], sep);
      if s[0] == sep {
        assert Join([""] + rest, [sep]) == "" + [sep] + Join(rest, [sep]);
      } else {
        var r := [[s[0]] + rest[0]] + rest[1..];
        assert r[1..] == rest[1..];
        if |rest| > 1 {
          assert Join(rest, [sep]) == rest[0] + [sep] + Join(rest[1..], [sep]);
        }
        assert s == [s[0]] + s[1..];
      }
    }
  }

  lemma CharsAroundCut(x: string, sep: string, y: string)
    ensures sep != [] ==> (x + sep + y)[|x|] == sep[0]
    ensures forall i :: 0 <= i < |x| ==> (x + sep + y)[i] == x[i]
  {
  }

  /** Two strings that meet the same separator first are cut at the same place. */
  lemma {:induction false} SeparatorCut(x: string, y: string, x': string, y': string, sep: string)
    requires sep != [] && sep[0] !in x && sep[0] !in x'
    requires x + sep + y == x' + sep + y'
    ensures x == x' && y == y'
  {
    var s := x + sep + y;
    CharsAroundCut(x, sep, y);
    CharsAroundCut(x', sep, y');
    if |x| != |x'| {
      assert false;
    } else {
      assert x == s[..|x|];
      assert x' == (x' + sep + y')[..|x'|];
      assert y == s[|x| + |sep|..];
      assert y' == (x' + sep + y')[|x'| + |sep|..];
    }
  }

  /** Splitting a joined row gives back its fields, as long as no field holds the separator. */
  lemma {:induction false} SplitJoin(parts: seq<string>, sep: char)
    requires |parts| >= 1
    requires forall i :: 0 <= i < |parts| ==> sep !in parts[i]
    ensures Split(Join(parts, [sep]), sep) == parts
  {
    JoinSplit(Join(parts, [sep]), sep);
    JoinInjective(Split(Join(parts, [sep]), sep), parts, sep);
  }

  lemma {:induction false} JoinInjective(a: seq<string>, b: seq<string>, sep: char)
    requires |a| >= 1 && |b| >= 1
    requires forall i :: 0 <= i < |a| ==> sep !in a[i]
    requires forall i :: 0 <= i < |b| ==> sep !in b[i]
    requires Join(a, [sep]) == Join(b, [sep])
    ensures a == b
    decreases |a|
  {
    if |a| == 1 && |b| == 1 {
    } else if |a| == 1 || |b| == 1 {
      assert false;
    } else {
      SeparatorCut(a[0], Join(a[1..], [sep]), b[0], Join(b[1..], [sep]), [sep]);
      JoinInjective(a[1..], b[1..], sep);
      assert a == [a[0]] + a[1..];
      assert b == [b[0]] + b[1..];
    }
  }

  /** A join starts with the first part's first character and ends with the last part's last one. */
  lemma {:induction false} JoinEnds(parts: seq<string>, sep: string)
    requires |parts| >= 1
    ensures parts[0] != [] ==> Join(parts, sep) != [] && Join(parts, sep)[0] == parts[0][0]
    ensures parts[|parts| - 1] != [] ==>
      var j := Join(parts, sep);
      j != [] && j[|j| - 1] == parts[|parts| - 1][|parts[|parts| - 1]| - 1]
    decreases |parts|
  {
    if |parts| > 1 {
      JoinEnds(parts[1..], sep);
      assert parts[1..][|parts| - 2] == parts[|parts| - 1];
    }
  }

  predicate IsDigit(c: char) {
    '0' <= c <= '9'
  }

  function DigitChar(d: int): (c: char)
    requires 0 <= d < 10
    ensures IsDigit(c) && c as int - '0' as int == d
  {
    ('0' as int + d) as char
  }

  /** Python's `str(n)` for a non-negative integer: decimal digits, no leading zeros. */
  function NatToDecimal(n: nat): (r: string)
    ensures |r| >= 1
    ensures forall i :: 0 <= i < |r| ==> IsDigit(r[i])
    decreases n
  {
    if n < 10 then [DigitChar(n)] else NatToDecimal(n / 10) + [DigitChar(n % 10)]
  }

  /**
   * Python's `str(i)` for any integer: decimal digits, preceded by `-`
   * exactly when `i` is negative.
   */
  function IntToDecimal(i: int): (r: string)
    ensures |r| >= 1 && (r[0] == '-' <==> i < 0)
    ensures forall k :: (if i < 0 then 1 else 0) <= k < |r| ==> IsDigit(r[k])
    ensures i < 0 ==> |r| >= 2
  {
    if i < 0 then "-" + NatToDecimal(-i) else NatToDecimal(i)
  }

  /** Distinct integers print differently, negative ones included. */
  lemma IntDecimalInjective(a: int, b: int)
    requires IntToDecimal(a) == IntToDecimal(b)
    ensures a == b
  {
    var s := IntToDecimal(a);
    if a < 0 {
      assert s[1..] == NatToDecimal(-a) == NatToDecimal(-b);
      DecimalInjective(-a, -b);
    } else {
      DecimalInjective(a, b);
    }
  }

  /** The number a string of decimal digits denotes. */
  function DecimalValue(s: string): int
    requires forall i :: 0 <= i < |s| ==> IsDigit(s[i])
    decreases |s|
  {
    if s == [] then 0
    else DecimalValue(s[..|s| - 1]) * 10 + (s[|s| - 1] as int - '0' as int)
  }

  lemma {:induction false} DecimalRoundTrip(n: nat)
    ensures DecimalValue(NatToDecimal(n)) == n
    decreases n
  {
    if n >= 10 {
      DecimalRoundTrip(n / 10);
      var s := NatToDecimal(n);
      assert s[..|s| - 1] == NatToDecimal(n / 10);
    }
  }

  lemma DecimalInjective(m: nat, n: nat)
    requires NatToDecimal(m) == NatToDecimal(n)
    ensures m == n
  {
    DecimalRoundTrip(m);
    DecimalRoundTrip(n);
  }

  /**
   * The number conversions of the Python runtime that the pipeline uses and
   * that this model leaves abstract: `str(x)` of a float, `float(s)` and
   * `int(s)`, the last two `None` where Python raises `ValueError`.
   */
  datatype Numerals = Numerals(
    showReal: real -> string,
    parseReal: string -> Option<real>,
    parseInt: string -> Option<int>)
}
