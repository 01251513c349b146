/** `strconv.Itoa` and `strconv.Atoi` on 64-bit integers. */
module Decimal {
  import opened GoErrors
  import opened CacheStore

  function Digit(d: nat): char
    requires d < 10
  {
    '0' + d as char
  }

  function Digits(n: nat): (s: string)
    ensures |s| > 0
    ensures s[0] != '-' && s[0] != '+'
  {
    if n < 10 then [Digit(n)] else Digits(n / 10) + [Digit(n % 10)]
  }

  function Itoa(n: int): string {
    if n < 0 then "-" + Digits(-n) else Digits(n)
  }

  function ParseDigits(s: string): Option<nat> {
    if s == [] then None
    else
      var last := s[|s| - 1];
      if !('0' <= last <= '9') then None
      else
        var d := last as int - '0' as int;
        if |s| == 1 then Some(d)
        else
          var front := ParseDigits(s[..|s| - 1]);
          if front.None? then None else Some(10 * front.value + d)
  }

  /** An optional sign, then digits; out of the 64-bit range is an error. */
  function Atoi(s: string): Option<int> {
    if s == [] then None
    else
      var magnitude := ParseDigits(if s[0] == '-' || s[0] == '+' then s[1..] else s);
      if magnitude.None? then None
      else
        var m: int := magnitude.value;
        var n := if s[0] == '-' then -m else m;
        if -INT64_MAX - 1 <= n <= INT64_MAX then Some(n) else None
  }

  lemma {:induction false} DigitsParse(n: nat)
    ensures ParseDigits(Digits(n)) == Some(n)
  {
    if n >= 10 {
      DigitsParse(n / 10);
      var s := Digits(n);
      assert s[..|s| - 1] == Digits(n / 10);
    }
  }

  predicate AllDigits(s: string) {
    forall i :: 0 <= i < |s| ==> '0' <= s[i] <= '9'
  }

  lemma {:induction false} DigitsOnly(s: string)
    ensures ParseDigits(s).Some? <==> s != "" && AllDigits(s)
  {
    if |s| > 1 {
      var front := s[..|s| - 1];
      DigitsOnly(front);
      assert AllDigits(s) ==> AllDigits(front);
      assert forall i :: 0 <= i < |front| ==> s[i] == front[i];
    }
  }

  function Unsigned(s: string): string {
    if s != "" && (s[0] == '-' || s[0] == '+') then s[1..] else s
  }

  /** What is a number: digits, at least one, after at most one sign, within 64 bits. */
  lemma AtoiAccepts(s: string)
    ensures var t := Unsigned(s);
      Atoi(s).Some? <==>
        && t != "" && AllDigits(t)
        && (ParseDigits(t).Some? ==> ParseDigits(t).value <= INT64_MAX + if s[0] == '-' then 1 else 0)
  {
    DigitsOnly(Unsigned(s));
  }

  lemma AtoiItoa(n: int)
    requires -INT64_MAX - 1 <= n <= INT64_MAX
    ensures Atoi(Itoa(n)) == Some(n)
  {
    if n < 0 {
      DigitsParse(-n);
      assert Itoa(n)[1..] == Digits(-n);
    } else {
      DigitsParse(n);
    }
  }
}
