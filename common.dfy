/** Small value types and string helpers shared by the other modules. */
module Common {

  datatype Option<+T> = None | Some(value: T)

  /** A Go `(value, error)` pair: either a value or an error message. */
  datatype Result<+T> = Ok(value: T) | Err(msg: string)

  /** `strings.HasPrefix` */
  predicate HasPrefix(s: string, p: string)
  {
    |p| <= |s| && s[..|p|] == p
  }

  /** `sub` occurs in `s` starting at index `i`. */
  predicate OccursAt(s: string, sub: string, i: int)
  {
    0 <= i && i + |sub| <= |s| && s[i..i + |sub|] == sub
  }

  /** `strings.Contains` */
  predicate Contains(s: string, sub: string)
  {
    exists i | 0 <= i <= |s| :: OccursAt(s, sub, i)
  }

  /** `strings.Replace(s, pat, rep, 1)` for a non-empty `pat`: the leftmost occurrence is replaced. */
  function ReplaceFirst(s: string, pat: string, rep: string): string
    requires pat != []
  {
    if |s| < |pat| then s
    else if s[..|pat|] == pat then rep + s[|pat|..]
    else [s[0]] + ReplaceFirst(s[1..], pat, rep)
  }

  lemma {:induction false} ReplaceFirstAbsent(s: string, pat: string, rep: string)
    requires pat != []
    requires !Contains(s, pat)
    ensures ReplaceFirst(s, pat, rep) == s
  {
    if |s| >= |pat| {
      assert !OccursAt(s, pat, 0);
      forall i | 0 <= i <= |s[1..]| ensures !OccursAt(s[1..], pat, i) {
        assert !OccursAt(s, pat, i + 1);
        if i + |pat| <= |s[1..]| {
          assert s[1..][i..i + |pat|] == s[i + 1..i + 1 + |pat|];
        }
      }
      ReplaceFirstAbsent(s[1..], pat, rep);
    }
  }

  /** A string that starts with `pat` has exactly that prefix replaced. */
  lemma ReplaceFirstAtStart(s: string, pat: string, rep: string)
    requires pat != [] && HasPrefix(s, pat)
    ensures ReplaceFirst(s, pat, rep) == rep + s[|pat|..]
  {
  }

  predicate IsDigit(c: char)
  {
    '0' <= c <= '9'
  }

  predicate AllDigits(s: string)
  {
    forall k | 0 <= k < |s| :: IsDigit(s[k])
  }

  /** The number a string of decimal digits denotes, most significant digit first. */
  function DigitsValue(s: string): int
    requires AllDigits(s)
  {
    if |s| == 0 then 0 else 10 * DigitsValue(s[..|s| - 1]) + (s[|s| - 1] as int - '0' as int)
  }

  /** The number a decimal numeral with an optional leading minus denotes. */
  function DecimalValue(s: string): int
  {
    if |s| > 0 && s[0] == '-' && AllDigits(s[1..]) then -DigitsValue(s[1..])
    else if AllDigits(s) then DigitsValue(s)
    else 0
  }

  /** Decimal digits of a natural number, as `strconv.Itoa` prints it: no leading zero, and the digits denote `n`. */
  function NatToString(n: nat): (r: string)
    ensures |r| >= 1
    ensures AllDigits(r)
    ensures r[0] == '0' ==> n == 0 && r == "0"
    ensures DigitsValue(r) == n
    decreases n
  {
    var d := [(('0' as int) + n % 10) as char];
    if n < 10 then d
    else
      var p := NatToString(n / 10);
      assert (p + d)[..|p|] == p;
      p + d
  }

  /** `strconv.Itoa`: the decimal numeral of `i`, with a minus exactly for negative numbers. */
  function Itoa(i: int): (r: string)
    ensures |r| >= 1
    ensures (i < 0) == (r[0] == '-')
    ensures var digits := if i < 0 then r[1..] else r;
      && |digits| >= 1 && AllDigits(digits)
      && (digits[0] == '0' ==> i == 0 && r == "0")
    ensures DecimalValue(r) == i
  {
    if i < 0 then
      var m := NatToString(-i);
      assert ("-" + m)[1..] == m;
      "-" + m
    else NatToString(i)
  }
}
