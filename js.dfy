/** Values of the client's JavaScript world that the pages branch on. */
module Js {

  /** `T | null | undefined`, or a JSON field that may be missing. */
  datatype Option<+T> = None | Some(value: T)
  {
    /** `x || d` for a field whose present values are truthy. */
    function GetOr(d: T): T
    {
      match this
      case Some(v) => v
      case None => d
    }
  }

  /** A string is truthy in JavaScript exactly when it is not empty. */
  predicate Truthy(s: string)
  {
    s != ""
  }

  /** The value of a digit character. */
  function DigitValue(c: char): int
  {
    c as int - '0' as int
  }

  /** Reads a string of decimal digits, most significant first. */
  function DecimalValue(s: string): int
  {
    if s == [] then 0 else DecimalValue(s[..|s| - 1]) * 10 + DigitValue(s[|s| - 1])
  }

  /** Reads an optionally signed decimal numeral. */
  function SignedValue(s: string): int
  {
    if s != [] && s[0] == '-' then -DecimalValue(s[1..]) else DecimalValue(s)
  }

  /** The decimal digits of a natural number, most significant first. */
  function Digits(n: nat): (r: string)
    ensures |r| >= 1
    ensures forall k :: 0 <= k < |r| ==> '0' <= r[k] <= '9'
    ensures n < 10 <==> |r| == 1
    ensures DecimalValue(r) == n
  {
    if n < 10 then [DigitChar(n)]
    else
      var init := Digits(n / 10);
      var r := init + [DigitChar(n % 10)];
      assert r[..|r| - 1] == init;
      r
  }

  function DigitChar(d: nat): (c: char)
    requires d < 10
    ensures '0' <= c <= '9'
    ensures DigitValue(c) == d
  {
    "0123456789"[d]
  }

  /** `n.toString()` for an integer-valued number: the decimal numeral that reads back as `n`. */
  function NumberToString(n: int): (r: string)
    ensures Truthy(r)
    ensures r[0] == '-' <==> n < 0
    ensures SignedValue(r) == n
  {
    if n < 0 then
      var r := "-" + Digits(-n);
      assert r[1..] == Digits(-n);
      r
    else Digits(n)
  }

  /** Distinct numbers have distinct texts, and zero is written `0`. */
  lemma {:induction false} NumberToStringInjective(m: int, n: int)
    ensures NumberToString(m) == NumberToString(n) <==> m == n
    ensures NumberToString(0) == "0"
  {
    if NumberToString(m) == NumberToString(n) {
      assert SignedValue(NumberToString(m)) == SignedValue(NumberToString(n));
    }
  }
}
