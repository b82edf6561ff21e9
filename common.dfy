// Shared value types and string helpers used by every component model.

module Common {

  datatype Option<T> = None | Some(value: T)
  {
    predicate IsSome() { this.Some? }

    function GetOr(default: T): T
    {
      if this.Some? then value else default
    }
  }

  /** Decimal digit characters. */
  predicate IsDigit(c: char) { '0' <= c <= '9' }

  predicate IsLower(c: char) { 'a' <= c <= 'z' }

  predicate IsUpper(c: char) { 'A' <= c <= 'Z' }

  /** The ASCII class `[a-zA-Z0-9]`. */
  predicate IsAlnum(c: char) { IsDigit(c) || IsLower(c) || IsUpper(c) }

  predicate AllDigits(s: string)
  {
    forall i :: 0 <= i < |s| ==> IsDigit(s[i])
  }

  function DigitChar(d: nat): (c: char)
    requires d < 10
    ensures IsDigit(c)
  {
    ['0', '1', '2', '3', '4', '5', '6', '7', '8', '9'][d]
  }

  function DigitValue(c: char): (d: nat)
    requires IsDigit(c)
    ensures d < 10
  {
    (c as int - '0' as int) as nat
  }

  /** Python's `str(n)` for a non-negative integer. */
  function NatToString(n: nat): (s: string)
    ensures |s| > 0 && AllDigits(s)
    decreases n
  {
    if n < 10 then [DigitChar(n)] else NatToString(n / 10) + [DigitChar(n % 10)]
  }

  /** Python's `int(s)` for a string of decimal digits. */
  function ParseNat(s: string): (n: nat)
    requires AllDigits(s)
    decreases |s|
  {
    if |s| == 0 then 0 else ParseNat(s[..|s| - 1]) * 10 + DigitValue(s[|s| - 1])
  }

  lemma {:induction false} ParseNatToString(n: nat)
    ensures ParseNat(NatToString(n)) == n
    decreases n
  {
    var s := NatToString(n);
    if n < 10 {
      assert s == [DigitChar(n)];
      assert s[..0] == [];
    } else {
      ParseNatToString(n / 10);
      assert s[..|s| - 1] == NatToString(n / 10);
    }
  }

  /** Python's `str(i)` for any integer. */
  function IntToString(i: int): (s: string)
    ensures |s| > 0
  {
    if i < 0 then "-" + NatToString(-i) else NatToString(i)
  }

  predicate HasPrefix(s: string, p: string)
  {
    |p| <= |s| && s[..|p|] == p
  }

  predicate HasSuffix(s: string, p: string)
  {
    |p| <= |s| && s[|s| - |p|..] == p
  }

  /** Number of occurrences of `c` in `s`. */
  function CountChar(s: string, c: char): (n: nat)
    ensures n <= |s|
  {
    if |s| == 0 then 0 else (if s[0] == c then 1 else 0) + CountChar(s[1..], c)
  }

  lemma CountCharAppend(a: string, b: string, c: char)
    ensures CountChar(a + b, c) == CountChar(a, c) + CountChar(b, c)
  {
    if |a| == 0 {
      assert a + b == b;
    } else {
      assert (a + b)[1..] == a[1..] + b;
    }
  }

  /** `sep.join(parts)`. */
  function Join(parts: seq<string>, sep: string): string
  {
    if |parts| == 0 then ""
    else if |parts| == 1 then parts[0]
    else parts[0] + sep + Join(parts[1..], sep)
  }

  /** Python's `str.lower()` restricted to ASCII letters. */
  function Lower(c: char): (r: char)
    ensures IsUpper(c) ==> IsLower(r)
    ensures !IsUpper(c) ==> r == c
  {
    if IsUpper(c) then (c as int - 'A' as int + 'a' as int) as char else c
  }

  function LowerString(s: string): (r: string)
    ensures |r| == |s|
    ensures forall i :: 0 <= i < |s| ==> r[i] == Lower(s[i])
  {
    if |s| == 0 then "" else [Lower(s[0])] + LowerString(s[1..])
  }

  /** Remove the entries of a map whose value is `None` (`{k: v ... if v is not None}`). */
  function DropNone<K, V>(m: map<K, Option<V>>): (r: map<K, V>)
    ensures r.Keys == set k | k in m && m[k].Some?
    ensures forall k :: k in r ==> m[k] == Some(r[k])
  {
    map k | k in m && m[k].Some? :: m[k].value
  }

  /** Appending is associative. */
  lemma AppendAssociates<T>(a: seq<T>, b: seq<T>, c: seq<T>)
    ensures a + b + c == a + (b + c)
  {
  }

  /** A non-empty suffix is its first element followed by the rest. */
  lemma SuffixCons<T>(s: seq<T>, n: nat)
    requires n < |s|
    ensures s[n..] == [s[n]] + s[n + 1..]
  {
  }

  /** A prefix grows by the element at its end. */
  lemma PrefixStep<T>(s: seq<T>, j: nat, x: T)
    requires j < |s| && s[j] == x
    ensures s[..j] + [x] == s[..j + 1]
  {
  }

  /** No element occurs twice. */
  predicate NoDuplicates<T(==)>(s: seq<T>)
  {
    forall i, j :: 0 <= i < j < |s| ==> s[i] != s[j]
  }

  // ---- decimal rounding ---------------------------------------------------------

  /** 10^n. */
  function Pow10(n: nat): (p: nat)
    ensures p >= 1
  {
    if n == 0 then 1 else 10 * Pow10(n - 1)
  }

  /** The integer nearest to `y`, ties going to the even neighbour. */
  function RoundUnits(y: real): (n: int)
    ensures -0.5 <= n as real - y <= 0.5
    ensures n as real - y == 0.5 || n as real - y == -0.5 ==> n % 2 == 0
  {
    var f := y.Floor;
    var frac := y - f as real;
    if frac < 0.5 then f else if frac > 0.5 then f + 1 else if f % 2 == 0 then f else f + 1
  }

  /** Rounding a value between two integers stays between them. */
  lemma RoundUnitsBetween(y: real, lo: int, hi: int)
    requires lo as real <= y <= hi as real
    ensures lo <= RoundUnits(y) <= hi
  {
    var n := RoundUnits(y);
    assert (lo - 1) as real < n as real < (hi + 1) as real;
  }

  /** `round(x, places)` in decimal: round half to even at `places` decimals. */
  function RoundHalfEven(x: real, places: nat): real
  {
    RoundScaled(x, Scale(places))
  }

  /** The size of a unit in the last kept place, inverted: 10^places as a real. */
  function Scale(places: nat): (r: real)
    ensures r >= 1.0
  {
    Pow10(places) as real
  }

  /** Rounding to a whole number of `1 / scale` units. */
  function RoundScaled(x: real, scale: real): real
    requires scale > 0.0
  {
    RoundUnits(x * scale) as real / scale
  }

  /**
   * Rounding gives a whole number of units in the last kept place, at most half
   * a unit away from the value, and an even number of units when the value lies
   * exactly halfway.
   */
  lemma RoundHalfEvenIsClose(x: real, places: nat)
    ensures RoundHalfEven(x, places) * Scale(places) == RoundUnits(x * Scale(places)) as real
    ensures -0.5 <= (RoundHalfEven(x, places) - x) * Scale(places) <= 0.5
    ensures (RoundHalfEven(x, places) - x) * Scale(places) == 0.5 ||
            (RoundHalfEven(x, places) - x) * Scale(places) == -0.5 ==>
              RoundUnits(x * Scale(places)) % 2 == 0
  {
    RoundScaledIsClose(x, Scale(places));
  }

  lemma RoundScaledIsClose(x: real, scale: real)
    requires scale > 0.0
    ensures RoundScaled(x, scale) * scale == RoundUnits(x * scale) as real
    ensures (RoundScaled(x, scale) - x) * scale == RoundUnits(x * scale) as real - x * scale
  {
    var y := x * scale;
    var n := RoundUnits(y) as real;
    UnscaleRescale(n, y, x, scale, RoundScaled(x, scale));
  }

  /** A whole number `n` of units, scaled back, differs from `x` by `n - y` units. */
  lemma UnscaleRescale(n: real, y: real, x: real, scale: real, r: real)
    requires scale > 0.0 && y == x * scale && r == n / scale
    ensures r * scale == n
    ensures (r - x) * scale == n - y
  {
    assert r * scale == n;
    assert (r - x) * scale == r * scale - x * scale;
  }
}
