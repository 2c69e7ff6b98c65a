/** String helpers the bot relies on: Go's `strings.HasPrefix` and
    `strings.TrimPrefix`, the triple-backtick fence the bot wraps command
    output in, and the decimal rendering `fmt.Sprintf("%d", n)` of a count. */
module Text {

  /** `strings.HasPrefix(s, p)`. */
  predicate HasPrefix(s: string, p: string) {
    |p| <= |s| && s[..|p|] == p
  }

  /** `strings.TrimPrefix(s, p)`: drops one leading copy of `p`, if any. */
  function TrimPrefix(s: string, p: string): (r: string)
    ensures HasPrefix(s, p) ==> p + r == s
    ensures !HasPrefix(s, p) ==> r == s
  {
    if HasPrefix(s, p) then s[|p|..] else s
  }

  const Backticks: string := "```"

  /** Wraps text in a Slack code block. */
  function Fence(s: string): (r: string)
    ensures |r| == |s| + 6
    ensures r[..3] == Backticks && r[|r| - 3..] == Backticks
    ensures r[3..|s| + 3] == s
  {
    Backticks + s + Backticks
  }

  /** The text inside a code block, the inverse of `Fence`. */
  function Unfence(r: string): (s: string)
    requires |r| >= 6
    ensures |s| == |r| - 6
  {
    r[3..|r| - 3]
  }

  lemma FenceRoundTrip(s: string)
    ensures Unfence(Fence(s)) == s
  {
  }

  predicate IsDigit(c: char) {
    '0' <= c <= '9'
  }

  predicate AllDigits(s: string) {
    forall i :: 0 <= i < |s| ==> IsDigit(s[i])
  }

  function DigitChar(d: nat): (c: char)
    requires d < 10
    ensures IsDigit(c)
  {
    ('0' as int + d) as char
  }

  /** `fmt.Sprintf("%d", n)` for a non-negative `n`: the shortest base-10
      numeral, without sign or leading zeros. */
  function Decimal(n: nat): (s: string)
    ensures |s| >= 1 && AllDigits(s)
    ensures s[0] == '0' ==> n == 0
    decreases n
  {
    if n < 10 then [DigitChar(n)] else Decimal(n / 10) + [DigitChar(n % 10)]
  }

  /** The value of a base-10 numeral (a reading independent of `Decimal`). */
  function DecimalValue(s: string): (v: nat)
    requires AllDigits(s)
    ensures |s| == 0 ==> v == 0
  {
    if |s| == 0 then 0
    else DecimalValue(s[..|s| - 1]) * 10 + (s[|s| - 1] as int - '0' as int)
  }

  /** Rendering a count and reading it back gives the count. */
  lemma {:induction false} DecimalRoundTrip(n: nat)
    ensures DecimalValue(Decimal(n)) == n
    decreases n
  {
    var s := Decimal(n);
    if n >= 10 {
      DecimalRoundTrip(n / 10);
      assert s[..|s| - 1] == Decimal(n / 10);
    }
  }

  /** Different counts render differently. */
  lemma DecimalInjective(m: nat, n: nat)
    requires Decimal(m) == Decimal(n)
    ensures m == n
  {
    DecimalRoundTrip(m);
    DecimalRoundTrip(n);
  }
}
