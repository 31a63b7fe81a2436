/**
 * The three pieces of Go's standard library the probe relies on for text:
 * `strconv.Atoi` (reading a statistic), the `%d` verb of `fmt.Sprintf`
 * (writing a count) and `strings.Join` (writing the report line).
 */
module Text {
  import opened Wrappers

  predicate IsDigit(c: char) {
    '0' <= c <= '9'
  }

  function DigitValue(c: char): (d: nat)
    requires IsDigit(c)
    ensures d < 10
  {
    (c as int) - ('0' as int)
  }

  function DigitChar(d: nat): (c: char)
    requires d < 10
    ensures IsDigit(c) && DigitValue(c) == d
  {
    (('0' as int) + d) as char
  }

  predicate AllDigits(s: string) {
    forall i :: 0 <= i < |s| ==> IsDigit(s[i])
  }

  /** The number a run of decimal digits denotes, most significant digit first. */
  function DigitsValue(s: string): nat
    requires AllDigits(s)
  {
    if s == [] then 0 else DigitsValue(s[..|s| - 1]) * 10 + DigitValue(s[|s| - 1])
  }

  /**
   * `strconv.Atoi`: an optional `+` or `-`, then one or more decimal digits.
   * Anything else (the empty string, a lone sign, a stray character) is a
   * syntax error, reported as None.
   */
  function Atoi(s: string): (r: Option<int>)
    ensures r.Some? <==>
      (s != [] && AllDigits(s)) || (|s| > 1 && (s[0] == '-' || s[0] == '+') && AllDigits(s[1..]))
    ensures s != [] && AllDigits(s) ==> r == Some(DigitsValue(s))
    ensures |s| > 1 && s[0] == '+' && AllDigits(s[1..]) ==> r == Some(DigitsValue(s[1..]))
    ensures |s| > 1 && s[0] == '-' && AllDigits(s[1..]) ==> r == Some(-(DigitsValue(s[1..]) as int))
  {
    if s == [] then None
    else
      var digits := if s[0] == '-' || s[0] == '+' then s[1..] else s;
      if digits == [] || !AllDigits(digits) then None
      else
        var magnitude: int := DigitsValue(digits);
        Some(if s[0] == '-' then -magnitude else magnitude)
  }

  /** `%d` of a non-negative number: its digits without leading zeros. */
  function FormatNat(n: nat): (s: string)
    ensures s != [] && AllDigits(s)
    ensures DigitsValue(s) == n
    ensures s[0] == '0' ==> s == "0"
    decreases n
  {
    if n < 10 then [DigitChar(n)]
    else
      var prefix := FormatNat(n / 10);
      var s := prefix + [DigitChar(n % 10)];
      assert s[..|s| - 1] == prefix;
      s
  }

  /** `%d` of any integer: a minus sign before the digits of a negative number. */
  function FormatInt(n: int): (s: string)
    ensures s != []
    ensures s[0] == '-' <==> n < 0
    ensures n >= 0 ==> AllDigits(s) && DigitsValue(s) == n && (s[0] == '0' ==> s == "0")
    ensures n < 0 ==> |s| > 1 && AllDigits(s[1..]) && DigitsValue(s[1..]) == -n && s[1] != '0'
  {
    if n < 0 then
      var digits := FormatNat(-n);
      assert ("-" + digits)[1..] == digits;
      "-" + digits
    else FormatNat(n)
  }

  /** Reading back what `%d` wrote gives the number again. */
  lemma AtoiFormatInt(n: int)
    ensures Atoi(FormatInt(n)) == Some(n)
  {
  }

  /** `strings.Join`: the elements with `sep` between each neighbouring pair. */
  function Join(xs: seq<string>, sep: string): (r: string)
    ensures |xs| == 1 ==> r == xs[0]
    decreases |xs|
  {
    if |xs| == 0 then ""
    else if |xs| == 1 then xs[0]
    else xs[0] + sep + Join(xs[1..], sep)
  }

  /** Joining one more element adds the separator and that element at the end. */
  lemma {:induction false} JoinSnoc(xs: seq<string>, x: string, sep: string)
    requires xs != []
    ensures Join(xs + [x], sep) == Join(xs, sep) + sep + x
    decreases |xs|
  {
    if |xs| == 1 {
      assert (xs + [x])[1..] == [x];
    } else {
      assert (xs + [x])[1..] == xs[1..] + [x];
      JoinSnoc(xs[1..], x, sep);
    }
  }

  /** The joined string is as long as the parts plus one separator per gap. */
  lemma {:induction false} JoinLength(xs: seq<string>, sep: string)
    requires xs != []
    ensures |Join(xs, sep)| == TotalLength(xs) + (|xs| - 1) * |sep|
    decreases |xs|
  {
    if |xs| > 1 {
      JoinLength(xs[1..], sep);
    }
  }

  function TotalLength(xs: seq<string>): nat {
    if xs == [] then 0 else |xs[0]| + TotalLength(xs[1..])
  }
}
