/**
 * The small part of PHP's (and JavaScript's) runtime behaviour that the plugin's
 * logic depends on: JSON fields that may be absent or null, `empty()` on strings,
 * ASCII case folding, substring search, `trim`, decimal rendering of integers,
 * `array_slice` prefixes and `array_unique` (keep the first of equal elements).
 * Strings are sequences of characters, one character per byte.
 */
module Php {

  /** A key of a decoded JSON object / PHP array: missing, present with null, or present with a value. */
  datatype Field<+T> = Absent | Null | Val(v: T) {
    /** PHP's `isset($a[k]) ? $a[k] : d` */
    function Or(d: T): T { if Val? then v else d }
  }

  datatype Option<+T> = None | Some(value: T)

  datatype Result<+T, +E> = Ok(value: T) | Err(error: E)

  /** `array_merge(array(k => d), $parsed)` for one key: a key that is present (even with null) wins. */
  function Merge<T>(parsed: Field<T>, d: T): (r: Field<T>)
    ensures parsed.Absent? ==> r == Val(d)
    ensures !parsed.Absent? ==> r == parsed
  {
    if parsed.Absent? then Val(d) else parsed
  }

  /** PHP's `empty()` on a string: the empty string and "0" are empty. */
  predicate Empty(s: string) {
    s == "" || s == "0"
  }

  // ---------------------------------------------------------------------------
  // Case folding (`strtolower`, and JavaScript's `toLowerCase` on ASCII text)

  function LowerChar(c: char): char {
    if 'A' <= c <= 'Z' then (c as int + 32) as char else c
  }

  function UpperChar(c: char): char {
    if 'a' <= c <= 'z' then (c as int - 32) as char else c
  }

  function Lower(s: string): (r: string)
    ensures |r| == |s|
    ensures forall i :: 0 <= i < |s| ==> r[i] == LowerChar(s[i])
  {
    seq(|s|, i requires 0 <= i < |s| => LowerChar(s[i]))
  }

  // ---------------------------------------------------------------------------
  // Substring search (`strpos($h, $n) !== false`, `stripos`, JavaScript `includes`)

  predicate IsPrefix(p: string, s: string) {
    |p| <= |s| && s[..|p|] == p
  }

  predicate Contains(hay: string, needle: string)
    decreases |hay|
  {
    IsPrefix(needle, hay) || (|hay| > 0 && Contains(hay[1..], needle))
  }

  /** An occurrence of `needle` in `hay` starting at `k`. */
  predicate OccursAt(hay: string, needle: string, k: int) {
    0 <= k && k + |needle| <= |hay| && hay[k..k + |needle|] == needle
  }

  /** Every occurrence is found by `Contains`. */
  lemma {:induction false} OccursImpliesContains(hay: string, needle: string, k: int)
    requires OccursAt(hay, needle, k)
    ensures Contains(hay, needle)
    decreases k
  {
    if k == 0 {
      assert hay[..|needle|] == hay[k..k + |needle|];
    } else {
      assert hay[1..][k - 1..k - 1 + |needle|] == hay[k..k + |needle|];
      OccursImpliesContains(hay[1..], needle, k - 1);
    }
  }

  /** `Contains` only holds where there is an occurrence. */
  lemma {:induction false} ContainsHasOccurrence(hay: string, needle: string)
    requires Contains(hay, needle)
    ensures exists k :: OccursAt(hay, needle, k)
    decreases |hay|
  {
    if IsPrefix(needle, hay) {
      assert OccursAt(hay, needle, 0);
    } else {
      ContainsHasOccurrence(hay[1..], needle);
      var k :| OccursAt(hay[1..], needle, k);
      assert hay[1..][k..k + |needle|] == hay[k + 1..k + 1 + |needle|];
      assert OccursAt(hay, needle, k + 1);
    }
  }

  /** `stripos`: case-insensitive substring search. */
  predicate ContainsIgnoreCase(hay: string, needle: string) {
    Contains(Lower(hay), Lower(needle))
  }

  // ---------------------------------------------------------------------------
  // `trim` with PHP's default character list " \t\n\r\0\x0B"

  predicate IsTrimChar(c: char) {
    c == ' ' || c == '\t' || c == '\n' || c == '\r' || c as int == 0 || c as int == 11
  }

  function TrimLeft(s: string): (r: string)
    ensures |r| <= |s|
    ensures r == [] || !IsTrimChar(r[0])
    decreases |s|
  {
    if |s| > 0 && IsTrimChar(s[0]) then TrimLeft(s[1..]) else s
  }

  function TrimRight(s: string): (r: string)
    ensures |r| <= |s|
    ensures r == [] || !IsTrimChar(r[|r| - 1])
    decreases |s|
  {
    if |s| > 0 && IsTrimChar(s[|s| - 1]) then TrimRight(s[..|s| - 1]) else s
  }

  /** `trim`: the longest infix of `s` that neither starts nor ends with a trim character. */
  function Trim(s: string): (r: string)
    ensures |r| <= |s|
  {
    TrimRight(TrimLeft(s))
  }

  /** Neither end of a trimmed string is a trim character. */
  lemma TrimEnds(s: string)
    ensures Trim(s) == [] || (!IsTrimChar(Trim(s)[0]) && !IsTrimChar(Trim(s)[|Trim(s)| - 1]))
  {
    TrimRightPrefix(TrimLeft(s));
  }

  /** `TrimLeft` drops a prefix made of trim characters. */
  lemma {:induction false} TrimLeftSuffix(s: string)
    ensures TrimLeft(s) == s[|s| - |TrimLeft(s)|..]
    ensures forall i :: 0 <= i < |s| - |TrimLeft(s)| ==> IsTrimChar(s[i])
    decreases |s|
  {
    if |s| > 0 && IsTrimChar(s[0]) {
      TrimLeftSuffix(s[1..]);
    }
  }

  /** `TrimRight` drops a suffix made of trim characters. */
  lemma {:induction false} TrimRightPrefix(s: string)
    ensures TrimRight(s) == s[..|TrimRight(s)|]
    ensures forall i :: |TrimRight(s)| <= i < |s| ==> IsTrimChar(s[i])
    decreases |s|
  {
    if |s| > 0 && IsTrimChar(s[|s| - 1]) {
      TrimRightPrefix(s[..|s| - 1]);
    }
  }

  /** What `trim` removes are trim characters at either end; the rest is kept as it is. */
  lemma TrimIsInfix(s: string)
    ensures OccursAt(s, Trim(s), |s| - |TrimLeft(s)|)
    ensures forall i :: 0 <= i < |s| - |TrimLeft(s)| ==> IsTrimChar(s[i])
    ensures forall i :: |s| - |TrimLeft(s)| + |Trim(s)| <= i < |s| ==> IsTrimChar(s[i])
  {
    var l := TrimLeft(s);
    var r := TrimRight(l);
    var a := |s| - |l|;
    TrimLeftSuffix(s);
    TrimRightPrefix(l);
    assert l == s[a..];
    assert r == l[..|r|];
    assert Trim(s) == r;
    assert s[a..a + |r|] == r by {
      forall j | 0 <= j < |r| ensures s[a..a + |r|][j] == r[j] {
        assert r[j] == l[j] == s[a + j];
      }
    }
    forall i | a + |r| <= i < |s| ensures IsTrimChar(s[i]) {
      assert s[i] == l[i - a];
    }
  }

  // ---------------------------------------------------------------------------
  // Regular-expression whitespace

  /** PCRE's `\s`: space, tab, newline, vertical tab, form feed, carriage return. */
  predicate IsSpace(c: char) {
    c == ' ' || c == '\t' || c == '\n' || c as int == 11 || c as int == 12 || c == '\r'
  }

  /** The length of the run of `\s` characters `s` starts with. */
  function SpaceRun(s: string): (n: nat)
    ensures n <= |s|
    ensures forall i :: 0 <= i < n ==> IsSpace(s[i])
    ensures n == |s| || !IsSpace(s[n])
    decreases |s|
  {
    if |s| > 0 && IsSpace(s[0]) then 1 + SpaceRun(s[1..]) else 0
  }

  // ---------------------------------------------------------------------------
  // Decimal rendering (string interpolation of integers in PHP and JavaScript)

  function DigitChar(d: nat): char
    requires d < 10
  {
    "0123456789"[d]
  }

  function NatToString(n: nat): (r: string)
    ensures |r| > 0
    ensures forall i :: 0 <= i < |r| ==> '0' <= r[i] <= '9'
    decreases n
  {
    if n < 10 then [DigitChar(n)] else NatToString(n / 10) + [DigitChar(n % 10)]
  }

  function IntToString(i: int): (r: string)
    ensures |r| > 0
  {
    if i < 0 then "-" + NatToString(-i) else NatToString(i)
  }

  // ---------------------------------------------------------------------------
  // Arrays as sequences

  /** `array_slice($a, 0, $n)` / `substr($s, 0, $n)` for a non-negative length. */
  function Take<T>(s: seq<T>, n: nat): (r: seq<T>)
    ensures |r| == if |s| <= n then |s| else n
    ensures r == s[..|r|]
  {
    if |s| <= n then s else s[..n]
  }

  /** `array_slice($a, 0, $n)` for any integer length: a negative length drops that many from the end. */
  function Slice<T>(s: seq<T>, n: int): (r: seq<T>)
    ensures n >= 0 ==> r == Take(s, n)
    ensures n < 0 ==> |r| == (if |s| + n < 0 then 0 else |s| + n)
    ensures r == s[..|r|]
  {
    if n >= 0 then Take(s, n) else if |s| + n < 0 then [] else s[..|s| + n]
  }

  predicate NoDuplicates<T(==)>(s: seq<T>) {
    forall i, j :: 0 <= i < j < |s| ==> s[i] != s[j]
  }

  /** A prefix of a sequence without duplicates has none either, and only its elements. */
  lemma TakeOfDistinct<T>(s: seq<T>, n: nat)
    requires NoDuplicates(s)
    ensures NoDuplicates(Take(s, n))
    ensures forall x :: x in Take(s, n) ==> x in s
  {
  }

  /**
   * `array_unique($a, SORT_REGULAR)` followed by reindexing: equal elements
   * collapse to their first occurrence, order otherwise kept.
   */
  function Dedup<T(==,!new)>(s: seq<T>): (r: seq<T>)
    ensures NoDuplicates(r)
    ensures forall x :: x in r <==> x in s
    ensures |r| <= |s|
    decreases |s|
  {
    if |s| == 0 then []
    else
      var r := Dedup(s[..|s| - 1]);
      assert forall x :: x in s <==> x in s[..|s| - 1] || x == s[|s| - 1];
      if s[|s| - 1] in r then r else r + [s[|s| - 1]]
  }

  /** Deduplicating a sequence that has no duplicates returns it unchanged. */
  lemma {:induction false} DedupOfDistinct<T(!new)>(s: seq<T>)
    requires NoDuplicates(s)
    ensures Dedup(s) == s
    decreases |s|
  {
    if |s| > 0 {
      var init := s[..|s| - 1];
      assert NoDuplicates(init);
      DedupOfDistinct(init);
      assert s[|s| - 1] !in init;
      assert init + [s[|s| - 1]] == s;
    }
  }

  /** Deduplication keeps first occurrences: deduplicating a prefix yields a prefix of the result. */
  lemma {:induction false} DedupPrefix<T(!new)>(a: seq<T>, b: seq<T>)
    ensures |Dedup(a)| <= |Dedup(a + b)|
    ensures Dedup(a + b)[..|Dedup(a)|] == Dedup(a)
    decreases |b|
  {
    if |b| == 0 {
      assert a + b == a;
    } else {
      var b' := b[..|b| - 1];
      DedupPrefix(a, b');
      assert (a + b)[..|a + b| - 1] == a + b';
    }
  }

  // ---------------------------------------------------------------------------
  // JSON scalars: PHP truthiness and `intval`

  /** A scalar value of a decoded JSON document (null is the `Null` of `Field`). */
  datatype Scalar = SBool(b: bool) | SInt(i: int) | SFloat(r: real) | SStr(s: string)

  /** PHP's conversion to bool. */
  predicate Truthy(x: Scalar) {
    match x
    case SBool(b) => b
    case SInt(i) => i != 0
    case SFloat(r) => r != 0.0
    case SStr(s) => !Empty(s)
  }

  /** `isset($a[k]) ? $a[k] : false`, used as a condition. */
  predicate TruthyField(f: Field<Scalar>) {
    f.Val? && Truthy(f.v)
  }

  predicate IsDigit(c: char) { '0' <= c <= '9' }

  /** The whitespace `intval` skips before a number. */
  predicate IsNumberSpace(c: char) {
    c == ' ' || c == '\t' || c == '\n' || c == '\r' || c as int == 11 || c as int == 12
  }

  /** The number of decimal digits `s` starts with. */
  function DigitRun(s: string): (n: nat)
    ensures n <= |s|
    ensures forall i :: 0 <= i < n ==> IsDigit(s[i])
    ensures n == |s| || !IsDigit(s[n])
    decreases |s|
  {
    if |s| > 0 && IsDigit(s[0]) then 1 + DigitRun(s[1..]) else 0
  }

  /** The value of a string of decimal digits. */
  function DigitsValue(s: string): nat
    requires forall i :: 0 <= i < |s| ==> IsDigit(s[i])
    decreases |s|
  {
    if |s| == 0 then 0
    else
      assert IsDigit(s[|s| - 1]);
      10 * DigitsValue(s[..|s| - 1]) + (s[|s| - 1] as int - '0' as int)
  }

  /** The decimal digits `s` starts with. */
  function Digits(s: string): (d: string)
    ensures |d| <= |s| && d == s[..|d|]
    ensures forall i :: 0 <= i < |d| ==> IsDigit(d[i])
    ensures |d| == |s| || !IsDigit(s[|d|])
  {
    s[..DigitRun(s)]
  }

  /** The value of the digits `s` starts with. */
  function LeadingValue(s: string): nat {
    DigitsValue(Digits(s))
  }

  /**
   * `intval` of a string: optional leading whitespace and sign, then as many digits
   * as there are. A fraction after them is dropped, as PHP drops it.
   */
  function StringIntVal(s: string): int
    decreases |s|
  {
    if |s| > 0 && IsNumberSpace(s[0]) then StringIntVal(s[1..])
    else if |s| > 0 && s[0] == '-' then -(LeadingValue(s[1..]) as int)
    else if |s| > 0 && s[0] == '+' then LeadingValue(s[1..])
    else LeadingValue(s)
  }

  /** Truncation toward zero, as `(int)` does to a float. */
  function Truncate(r: real): (i: int)
    ensures r >= 0.0 ==> i as real <= r < i as real + 1.0
    ensures r < 0.0 ==> i as real - 1.0 < r <= i as real
  {
    if r >= 0.0 then r.Floor else -((-r).Floor)
  }

  /** `intval` of a JSON scalar; every falsy scalar reads as 0. */
  function IntVal(x: Scalar): (r: int)
    ensures !Truthy(x) ==> r == 0
  {
    assert LeadingValue("0") == 0 by { assert DigitRun("0") == 1; assert Digits("0") == "0"; }
    match x
    case SBool(b) => if b then 1 else 0
    case SInt(i) => i
    case SFloat(r) => Truncate(r)
    case SStr(s) => StringIntVal(s)
  }

  /** `intval($a[k])` where the key is present (an absent key was replaced by a default before). */
  function IntValField(f: Field<Scalar>, d: int): int {
    match f
    case Absent => d
    case Null => 0
    case Val(x) => IntVal(x)
  }

  lemma {:induction false} NatToStringDigits(n: nat)
    ensures forall i :: 0 <= i < |NatToString(n)| ==> IsDigit(NatToString(n)[i])
    ensures DigitsValue(NatToString(n)) == n
    decreases n
  {
    if n >= 10 {
      NatToStringDigits(n / 10);
      var s := NatToString(n);
      assert s[..|s| - 1] == NatToString(n / 10);
    }
  }

  lemma {:induction false} DigitRunOfDigits(s: string)
    requires forall i :: 0 <= i < |s| ==> IsDigit(s[i])
    ensures DigitRun(s) == |s|
    decreases |s|
  {
    if |s| > 0 {
      DigitRunOfDigits(s[1..]);
    }
  }

  /** A string of digits alone reads as its decimal value. */
  lemma DigitsNumberValue(t: string)
    requires forall i :: 0 <= i < |t| ==> IsDigit(t[i])
    ensures LeadingValue(t) == DigitsValue(t)
  {
    DigitRunOfDigits(t);
    assert Digits(t) == t;
  }

  lemma NatIntValRoundTrip(n: nat)
    ensures StringIntVal(NatToString(n)) == n
  {
    var s := NatToString(n);
    NatToStringDigits(n);
    DigitsNumberValue(s);
    assert !IsNumberSpace(s[0]) && s[0] != '-' && s[0] != '+';
  }

  lemma NegIntValRoundTrip(n: nat)
    ensures StringIntVal("-" + NatToString(n)) == -(n as int)
  {
    var t := NatToString(n);
    var s := "-" + t;
    assert s[0] == '-' && s[1..] == t;
    NatToStringDigits(n);
    DigitsNumberValue(t);
  }

  lemma AppendAssoc<T>(a: seq<T>, b: seq<T>, c: seq<T>)
    ensures (a + b) + c == a + (b + c)
  {
  }

  lemma {:induction false} DigitRunStops(d: string, rest: string)
    requires forall i :: 0 <= i < |d| ==> IsDigit(d[i])
    requires rest == [] || !IsDigit(rest[0])
    ensures DigitRun(d + rest) == |d| && Digits(d + rest) == d
    decreases |d|
  {
    if |d| > 0 {
      assert (d + rest)[1..] == d[1..] + rest;
      DigitRunStops(d[1..], rest);
    } else {
      assert d + rest == rest;
    }
  }

  /** A string that starts with a digit has no whitespace or sign to skip. */
  lemma UnsignedStart(s: string)
    requires |s| > 0 && IsDigit(s[0])
    ensures StringIntVal(s) == LeadingValue(s)
  {
    assert !IsNumberSpace(s[0]) && s[0] != '-' && s[0] != '+';
  }

  /** A string without a digit reads as 0. */
  lemma {:induction false} NoDigitsReadZero(s: string)
    requires forall i :: 0 <= i < |s| ==> !IsDigit(s[i])
    ensures StringIntVal(s) == 0
    decreases |s|
  {
    if |s| > 0 && IsNumberSpace(s[0]) {
      NoDigitsReadZero(s[1..]);
    } else if |s| > 1 {
      assert Digits(s[1..]) == "" && Digits(s) == "";
    } else if |s| == 1 {
      assert Digits(s[1..]) == "" && Digits(s) == "";
    } else {
      assert Digits(s) == "";
    }
  }

  /** A minus sign in front of digits negates the value. */
  lemma MinusNegates(s: string)
    requires |s| > 0 && IsDigit(s[0])
    ensures StringIntVal("-" + s) == -StringIntVal(s)
  {
    assert ("-" + s)[1..] == s;
    UnsignedStart(s);
  }

  /** A fraction is dropped: `intval("12.7")` is 12. */
  lemma FractionTruncated(d: string, f: string)
    requires |d| > 0 && forall i :: 0 <= i < |d| ==> IsDigit(d[i])
    requires forall i :: 0 <= i < |f| ==> IsDigit(f[i])
    ensures StringIntVal(d + "." + f) == DigitsValue(d)
  {
    var s := d + "." + f;
    AppendAssoc(d, ".", f);
    assert s[0] == d[0];
    UnsignedStart(s);
    DigitRunStops(d, "." + f);
  }

  lemma IntValOfString(s: string)
    ensures IntVal(SStr(s)) == StringIntVal(s)
  {
  }

  /** `intval` reads back the decimal rendering of any integer. */
  lemma IntValOfIntToString(i: int)
    ensures IntVal(SStr(IntToString(i))) == i
  {
    var t := IntToString(i);
    IntValOfString(t);
    if i < 0 {
      assert t == "-" + NatToString(-i);
      NegIntValRoundTrip(-i);
    } else {
      assert t == NatToString(i);
      NatIntValRoundTrip(i);
    }
  }

  // ---------------------------------------------------------------------------
  // `round()`: halves go away from zero

  function Round(x: real): (i: int)
    ensures x >= 0.0 ==> i as real <= x + 0.5 < i as real + 1.0
    ensures x < 0.0 ==> i as real - 1.0 < x - 0.5 <= i as real
  {
    if x >= 0.0 then (x + 0.5).Floor else -((-x + 0.5).Floor)
  }

  /** `round($x, $places)`, where `scale` is 10 to the power `places`. */
  function RoundTo(x: real, scale: real): real
    requires scale > 0.0
  {
    Round(x * scale) as real / scale
  }

  /** `round($n / $d)` for a non-negative numerator, in integer arithmetic. */
  function RoundDiv(n: nat, d: nat): nat
    requires d > 0
  {
    (2 * n + d) / (2 * d)
  }

  lemma MulAtLeastFactor(a: int, m: int)
    requires a > 0 && m >= 1
    ensures a * m >= a
  {
    assert a * m == a + a * (m - 1);
  }

  /** The quotient is the one `q` with `a * q <= x < a * q + a`. */
  lemma DivBetween(x: int, a: int, q: int)
    requires a > 0 && a * q <= x < a * q + a
    ensures x / a == q
  {
    var d := x / a;
    assert a * d <= x < a * d + a;
    assert a * (d - q) == a * d - a * q;
    assert a * (q - d) == a * q - a * d;
    if d - q >= 1 {
      MulAtLeastFactor(a, d - q);
    }
    if q - d >= 1 {
      MulAtLeastFactor(a, q - d);
    }
  }

  /**
   * `RoundDiv` is `round($n / $d)`: the integer within one half of the quotient,
   * taking the upper one at an exact half.
   */
  lemma RoundDivNearest(n: nat, d: nat)
    requires d > 0
    ensures d * (2 * RoundDiv(n, d) - 1) <= 2 * n < d * (2 * RoundDiv(n, d) + 1)
  {
    var q: int := RoundDiv(n, d);
    var m := 2 * n + d;
    assert (2 * d) * q <= m < (2 * d) * q + 2 * d;
    assert d * (2 * q - 1) == (2 * d) * q - d;
    assert d * (2 * q + 1) == (2 * d) * q + d;
  }
}
