/** The few pieces of Go's `strings` and `strconv` packages the importer and the
    intake handler rely on, over `string` (a sequence of characters). */
module Text {
  import opened Wrappers

  // ---------------------------------------------------------------------------
  // Prefixes and substring search (strings.HasPrefix, strings.Index, strings.Replace)

  predicate HasPrefix(s: string, prefix: string) {
    |prefix| <= |s| && s[..|prefix|] == prefix
  }

  predicate HasSuffix(s: string, suffix: string) {
    |suffix| <= |s| && s[|s| - |suffix|..] == suffix
  }

  /** `pattern` occurs in `s` starting at index `i`. */
  predicate OccursAt(s: string, pattern: string, i: nat) {
    i + |pattern| <= |s| && s[i..i + |pattern|] == pattern
  }

  /** Index of the first occurrence of `pattern` in `s` (strings.Index); the
      empty pattern occurs at 0. */
  function IndexOf(s: string, pattern: string): (r: Option<nat>)
    ensures r.None? ==> forall i: nat :: !OccursAt(s, pattern, i)
    ensures r.Some? ==> OccursAt(s, pattern, r.value)
    ensures r.Some? ==> forall i: nat :: i < r.value ==> !OccursAt(s, pattern, i)
    decreases |s|
  {
    if |s| < |pattern| then None
    else if s[..|pattern|] == pattern then Some(0)
    else
      OccursShift(s, pattern);
      match IndexOf(s[1..], pattern)
      case None => None
      case Some(k) => Some(k + 1)
  }

  /** Past the first character, occurrences in `s` are those in `s[1..]`,
      one place further on. */
  lemma OccursShift(s: string, pattern: string)
    requires |s| > 0
    ensures forall i: nat :: i > 0 ==> (OccursAt(s, pattern, i) <==> OccursAt(s[1..], pattern, i - 1))
  {
    forall i: nat | i > 0
      ensures OccursAt(s, pattern, i) <==> OccursAt(s[1..], pattern, i - 1)
    {
      if i + |pattern| <= |s| {
        var u, v := s[i..i + |pattern|], s[1..][i - 1..i - 1 + |pattern|];
        assert forall j :: 0 <= j < |pattern| ==> u[j] == v[j];
        assert u == v;
      }
    }
  }

  /** strings.Replace(s, pattern, replacement, 1): only the first occurrence
      is replaced. */
  function ReplaceFirst(s: string, pattern: string, replacement: string): (r: string)
    ensures IndexOf(s, pattern).None? ==> r == s
    ensures IndexOf(s, pattern).Some? ==> |r| == |s| - |pattern| + |replacement|
    ensures IndexOf(s, pattern).Some? ==>
              var i := IndexOf(s, pattern).value;
              && r[..i] == s[..i]
              && r[i..i + |replacement|] == replacement
              && r[i + |replacement|..] == s[i + |pattern|..]
  {
    match IndexOf(s, pattern)
    case None => s
    case Some(i) => s[..i] + replacement + s[i + |pattern|..]
  }

  /** Text framed by the same prefix and suffix determines the part between
      them. */
  lemma FrameCancel(pre: string, x: string, y: string, post: string)
    requires pre + x + post == pre + y + post
    ensures x == y
  {
    assert |x| == |y|;
    assert x == (pre + x + post)[|pre|..|pre| + |x|];
    assert y == (pre + y + post)[|pre|..|pre| + |y|];
  }

  // ---------------------------------------------------------------------------
  // strings.ToLower, over ASCII letters

  function LowerChar(c: char): char {
    if 'A' <= c <= 'Z' then (c as int - 'A' as int + 'a' as int) as char else c
  }

  function Lower(s: string): (r: string)
    ensures |r| == |s|
    ensures forall i :: 0 <= i < |s| ==> r[i] == LowerChar(s[i])
  {
    seq(|s|, i requires 0 <= i < |s| => LowerChar(s[i]))
  }

  // ---------------------------------------------------------------------------
  // Decimal numbers (strconv.Itoa, strconv.Atoi and strconv.ParseInt(s, 10, 64))

  predicate IsDigit(c: char) {
    '0' <= c <= '9'
  }

  predicate AllDigits(s: string) {
    forall i :: 0 <= i < |s| ==> IsDigit(s[i])
  }

  function DigitChar(d: nat): char
    requires d < 10
  {
    ('0' as int + d) as char
  }

  function DigitValue(c: char): nat
    requires IsDigit(c)
  {
    c as int - '0' as int
  }

  /** The value of a string of decimal digits. */
  function DigitsValue(s: string): nat
    requires AllDigits(s)
  {
    if |s| == 0 then 0 else DigitsValue(s[..|s| - 1]) * 10 + DigitValue(s[|s| - 1])
  }

  /** Decimal rendering of a natural number, without leading zeros. */
  function NatToString(n: nat): (r: string)
    ensures |r| > 0 && AllDigits(r)
    ensures |r| > 1 ==> r[0] != '0'
  {
    if n < 10 then [DigitChar(n)] else NatToString(n / 10) + [DigitChar(n % 10)]
  }

  /** strconv.Itoa. */
  function IntToString(n: int): (r: string)
    ensures |r| > 0
    ensures n >= 0 <==> IsDigit(r[0])
    ensures n >= 0 ==> AllDigits(r) && (|r| > 1 ==> r[0] != '0')
    ensures n < 0 ==> r[0] == '-' && |r| > 1 && AllDigits(r[1..]) && (|r| > 2 ==> r[1] != '0')
  {
    if n < 0 then "-" + NatToString(-n) else NatToString(n)
  }

  const TwoTo63: int := 0x8000_0000_0000_0000

  /** Decimal integer syntax: an optional '+' or '-', then one or more
      digits and nothing else. */
  predicate Numeral(s: string) {
    && |s| > 0
    && (IsDigit(s[0]) || ((s[0] == '+' || s[0] == '-') && |s| > 1))
    && forall i :: 0 < i < |s| ==> IsDigit(s[i])
  }

  /** The integer a numeral denotes. */
  function NumeralValue(s: string): int
    requires Numeral(s)
  {
    var magnitude: int := if IsDigit(s[0]) then DigitsValue(s) else DigitsValue(s[1..]);
    if s[0] == '-' then -magnitude else magnitude
  }

  /** strconv.ParseInt(s, 10, 64), which is also strconv.Atoi on a 64-bit
      platform: an optional sign, at least one digit, nothing else, and a value
      that fits in 64 bits; None stands for the returned error. */
  function ParseInt64(s: string): (r: Option<int>)
    ensures r.Some? ==> -TwoTo63 <= r.value < TwoTo63
    ensures s == "" ==> r.None?
    ensures r.Some? <==> Numeral(s) && -TwoTo63 <= NumeralValue(s) < TwoTo63
    ensures r.Some? ==> r.value == NumeralValue(s)
  {
    if |s| == 0 then None
    else
      var negative := s[0] == '-';
      var digits := if s[0] == '+' || s[0] == '-' then s[1..] else s;
      if |digits| == 0 || !AllDigits(digits) then None
      else
        var magnitude: int := DigitsValue(digits);
        if !negative && magnitude >= TwoTo63 then None
        else if negative && magnitude > TwoTo63 then None
        else Some(if negative then -magnitude else magnitude)
  }

  lemma {:induction false} NatToStringValue(n: nat)
    ensures DigitsValue(NatToString(n)) == n
  {
    var s := NatToString(n);
    if n >= 10 {
      NatToStringValue(n / 10);
      assert s[..|s| - 1] == NatToString(n / 10);
    }
  }

  /** Itoa and ParseInt are inverse on every 64-bit integer. */
  lemma ParseIntToString(n: int)
    requires -TwoTo63 <= n < TwoTo63
    ensures ParseInt64(IntToString(n)) == Some(n)
  {
    var s := IntToString(n);
    if n < 0 {
      NatToStringValue(-n);
      assert s == "-" + NatToString(-n);
      assert s[1..] == NatToString(-n);
    } else {
      NatToStringValue(n);
      assert s == NatToString(n);
    }
  }
}
