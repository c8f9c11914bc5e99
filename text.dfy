/** String helpers the core relies on: `strings.HasPrefix`, `strings.HasSuffix`,
    `strings.TrimPrefix`, `strings.Repeat`, decimal rendering (`%d`) and
    `strconv.ParseUint(s, 10, 64)`. Go strings are byte strings; here each `char`
    stands for one byte. */
module Text {
  import opened Wrappers

  predicate HasPrefix(s: string, prefix: string) {
    |prefix| <= |s| && s[..|prefix|] == prefix
  }

  predicate HasSuffix(s: string, suffix: string) {
    |suffix| <= |s| && s[|s| - |suffix|..] == suffix
  }

  /** `strings.TrimPrefix`: drops the prefix when it is there, otherwise returns `s`. */
  function TrimPrefix(s: string, prefix: string): (r: string)
    ensures HasPrefix(s, prefix) ==> prefix + r == s
    ensures !HasPrefix(s, prefix) ==> r == s
  {
    if HasPrefix(s, prefix) then
      assert s == s[..|prefix|] + s[|prefix|..];
      s[|prefix|..]
    else s
  }

  /** `strings.Repeat(string(c), n)`. */
  function Repeat(c: char, n: nat): (r: string)
    ensures |r| == n
    ensures forall i :: 0 <= i < n ==> r[i] == c
  {
    seq(n, _ => c)
  }

  predicate IsDigit(c: char) {
    '0' <= c <= '9'
  }

  predicate AllDigits(s: string) {
    forall i :: 0 <= i < |s| ==> IsDigit(s[i])
  }

  function DigitChar(d: nat): (c: char)
    requires d < 10
    ensures IsDigit(c) && (c as int) - ('0' as int) == d
  {
    ('0' as int + d) as char
  }

  /** The number a string of decimal digits denotes (leading zeros allowed). */
  function DecimalValue(s: string): nat
    requires AllDigits(s)
  {
    if s == [] then 0
    else DecimalValue(s[..|s| - 1]) * 10 + ((s[|s| - 1] as int) - ('0' as int))
  }

  /** Largest value of Go's `uint64`. */
  const MaxUint64: nat := 0x1_0000_0000_0000_0000 - 1

  /** `strconv.ParseUint(s, 10, 64)`: a non-empty string of ASCII digits (no sign, no
      underscores) whose value fits in 64 bits; anything else is an error. */
  function ParseUint64(s: string): (r: Option<nat>)
    ensures r.Some? <==> |s| > 0 && AllDigits(s) && DecimalValue(s) <= MaxUint64
    ensures r.Some? ==> r.value == DecimalValue(s) && r.value <= MaxUint64
  {
    if |s| > 0 && AllDigits(s) && DecimalValue(s) <= MaxUint64 then Some(DecimalValue(s))
    else None
  }

  /** `fmt.Sprintf("%d", n)` for a non-negative number: digits, most significant first,
      without leading zeros. */
  function NatToString(n: nat): (r: string)
    ensures |r| > 0 && AllDigits(r)
    ensures DecimalValue(r) == n
    ensures |r| > 1 ==> r[0] != '0'
    decreases n
  {
    if n < 10 then [DigitChar(n)]
    else
      var front := NatToString(n / 10);
      var r := front + [DigitChar(n % 10)];
      assert r[..|r| - 1] == front;
      r
  }

  /** `fmt.Sprintf("%d", i)` for any Go `int`: a minus sign before negative values. */
  function IntToString(i: int): (r: string)
    ensures i >= 0 ==> r == NatToString(i)
    ensures i < 0 ==> r == "-" + NatToString(-i)
  {
    if i < 0 then "-" + NatToString(-i) else NatToString(i)
  }

  /** Parsing what `%d` printed gives the number back, for every value a `uint64` holds. */
  lemma ParseRendered(n: nat)
    requires n <= MaxUint64
    ensures ParseUint64(NatToString(n)) == Some(n)
  {
  }
}
