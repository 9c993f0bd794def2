/** The handful of Python `str` operations the instrument-name parser relies
    on: `str.find` for one character, slicing and indexing with negative
    positions, `int()` on a digit string and `str()` of a natural number. */
module PyText {
  import opened Outcomes

  /** Position a Python slice bound or `find` start refers to in a string of
      length `n`: negative values count from the end, and the result is
      clamped into 0..n. */
  function Clamp(n: nat, i: int): (p: nat)
    ensures p <= n
    ensures 0 <= i <= n ==> p == i
    ensures -(n as int) <= i < 0 ==> p == n + i
  {
    if i < 0 then (if i + n < 0 then 0 else i + n)
    else if i > n then n
    else i
  }

  function FindFrom(s: string, c: char, i: nat): (r: int)
    decreases |s| - i
  {
    if i >= |s| then -1
    else if s[i] == c then i
    else FindFrom(s, c, i + 1)
  }

  /** `s.find(c, start)`: the lowest index at or after `start` holding `c`,
      or -1 when there is none. */
  function Find(s: string, c: char, start: int): (r: int)
    ensures r == -1 || (Clamp(|s|, start) <= r < |s| && s[r] == c)
    ensures forall j :: Clamp(|s|, start) <= j < |s| && (r == -1 || j < r) ==> s[j] != c
  {
    FindFromSpec(s, c, Clamp(|s|, start));
    FindFrom(s, c, Clamp(|s|, start))
  }

  lemma {:induction false} FindFromSpec(s: string, c: char, i: nat)
    ensures var r := FindFrom(s, c, i);
      && (r == -1 || (i <= r < |s| && s[r] == c))
      && (forall j :: i <= j < |s| && (r == -1 || j < r) ==> s[j] != c)
    decreases |s| - i
  {
    if i < |s| && s[i] != c {
      FindFromSpec(s, c, i + 1);
    }
  }

  /** `s[i:j]`: both bounds are resolved as `Clamp` says (negative ones
      from the end, out-of-range ones clamped), and the slice is empty when
      the start does not come before the end. */
  function Slice(s: string, i: int, j: int): (t: string)
    ensures |t| <= |s|
    ensures 0 <= i <= j <= |s| ==> t == s[i..j]
    ensures Clamp(|s|, i) < Clamp(|s|, j) ==> t == s[Clamp(|s|, i)..Clamp(|s|, j)]
    ensures Clamp(|s|, j) <= Clamp(|s|, i) ==> t == []
  {
    var a := Clamp(|s|, i);
    var b := Clamp(|s|, j);
    if a >= b then [] else s[a..b]
  }

  /** The slices with negative bounds the name parser takes: `s[-k:]`,
      `s[-k:-l]` and `s[:-k]`, on a string at least `k` long. */
  lemma SliceFromEnd(s: string, k: nat, l: nat)
    requires 0 < l <= k <= |s|
    ensures Slice(s, -(k as int), |s|) == s[|s| - k..]
    ensures Slice(s, -(k as int), -(l as int)) == s[|s| - k..|s| - l]
    ensures Slice(s, 0, -(k as int)) == s[..|s| - k]
  {
  }

  /** `s[i]`, which raises IndexError outside -|s|..|s|-1. */
  function At(s: string, i: int): (r: Result<char>)
    ensures r.Ok? <==> -|s| <= i < |s|
    ensures 0 <= i < |s| ==> r == Ok(s[i])
    ensures -|s| <= i < 0 ==> r == Ok(s[|s| + i])
  {
    if 0 <= i < |s| then Ok(s[i])
    else if -|s| <= i < 0 then Ok(s[|s| + i])
    else Err(IndexError)
  }

  predicate IsDigit(c: char) {
    '0' <= c <= '9'
  }

  function DigitValue(c: char): (d: nat)
    requires IsDigit(c)
    ensures d < 10
  {
    (c as int - '0' as int) as nat
  }

  function DigitChar(d: nat): (c: char)
    requires d < 10
    ensures IsDigit(c) && DigitValue(c) == d
  {
    (d + '0' as int) as char
  }

  predicate AllDigits(s: string) {
    forall i :: 0 <= i < |s| ==> IsDigit(s[i])
  }

  /** The value of a decimal numeral, most significant digit first. */
  function DigitsValue(s: string): nat
    requires AllDigits(s)
  {
    if |s| == 0 then 0
    else DigitsValue(s[..|s| - 1]) * 10 + DigitValue(s[|s| - 1])
  }

  /** `int(s)` for a string of ASCII digits; anything else is a ValueError.
      (Python also admits a sign, surrounding blanks and `_` separators.) */
  function Int(s: string): (r: Result<int>)
    ensures r.Ok? <==> |s| > 0 && AllDigits(s)
    ensures r.Ok? ==> r.value >= 0
  {
    if |s| > 0 && AllDigits(s) then Ok(DigitsValue(s)) else Err(ValueError(s))
  }

  /** `str(n)` for a natural number: its decimal numeral without leading
      zeros. */
  function Decimal(n: nat): (s: string)
    ensures |s| > 0 && AllDigits(s)
    ensures n < 10 <==> |s| == 1
    decreases n
  {
    if n < 10 then [DigitChar(n)] else Decimal(n / 10) + [DigitChar(n % 10)]
  }

  /** `int(str(n)) == n`. */
  lemma {:induction false} IntOfDecimal(n: nat)
    ensures Int(Decimal(n)) == Ok(n)
    decreases n
  {
    var s := Decimal(n);
    if n >= 10 {
      IntOfDecimal(n / 10);
      assert s[..|s| - 1] == Decimal(n / 10);
      assert DigitValue(s[|s| - 1]) == n % 10;
      assert DigitsValue(s) == (n / 10) * 10 + n % 10;
    }
  }

  /** A numeral never contains a separator such as '-' or a line feed. */
  lemma DigitsAreNotSeparators(s: string, c: char)
    requires AllDigits(s) && !IsDigit(c)
    ensures forall i :: 0 <= i < |s| ==> s[i] != c
  {
  }
}
