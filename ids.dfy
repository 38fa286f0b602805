/**
 * Node ids and their integer ranks (`get_id_as_int`, node.py:13-14).
 *
 * An id is an opaque string such as "P3"; its rank is the integer written
 * after its first character.  Python's `int` raises `ValueError` on text that
 * is not an integer literal; that outcome is `None` here.
 */
module Ids {
  import opened Wrappers

  predicate IsDigit(c: char) {
    '0' <= c <= '9'
  }

  predicate AllDigits(s: string) {
    forall k :: 0 <= k < |s| ==> IsDigit(s[k])
  }

  /** The text `int` accepts here: an optional sign followed by at least one digit. */
  predicate IntLiteral(s: string) {
    if |s| > 0 && (s[0] == '+' || s[0] == '-') then |s| > 1 && AllDigits(s[1..])
    else |s| > 0 && AllDigits(s)
  }

  /** The value of a string of decimal digits, most significant digit first. */
  function DigitsValue(s: string): nat
    requires AllDigits(s)
  {
    if |s| == 0 then 0
    else 10 * DigitsValue(s[..|s| - 1]) + (s[|s| - 1] as int - '0' as int)
  }

  /** Python's `int(s)` on a decimal literal; `None` where it raises. */
  function ParseInt(s: string): (r: Option<int>)
    ensures r.Some? <==> IntLiteral(s)
    ensures r.Some? && AllDigits(s) ==> r.value == DigitsValue(s)
    ensures |s| > 1 && s[0] == '-' && AllDigits(s[1..]) ==> r == Some(-(DigitsValue(s[1..]) as int))
    ensures |s| > 1 && s[0] == '+' && AllDigits(s[1..]) ==> r == Some(DigitsValue(s[1..]))
  {
    if |s| > 0 && (s[0] == '+' || s[0] == '-') then
      if |s| > 1 && AllDigits(s[1..]) then
        var magnitude: int := DigitsValue(s[1..]);
        Some(if s[0] == '-' then -magnitude else magnitude)
      else None
    else if |s| > 0 && AllDigits(s) then Some(DigitsValue(s))
    else None
  }

  /** `get_id_as_int`: the rank of an id is the integer after its first character. */
  function IdAsInt(id: string): (r: Option<int>)
    ensures r.Some? <==> |id| >= 1 && IntLiteral(id[1..])
    ensures |id| >= 1 && AllDigits(id[1..]) && r.Some? ==> r.value == DigitsValue(id[1..])
    ensures |id| > 2 && id[1] == '-' && AllDigits(id[2..]) ==> r == Some(-(DigitsValue(id[2..]) as int))
    ensures |id| > 2 && id[1] == '+' && AllDigits(id[2..]) ==> r == Some(DigitsValue(id[2..]))
  {
    if |id| == 0 then None
    else
      assert |id| > 1 ==> id[1..][1..] == id[2..];
      ParseInt(id[1..])
  }

  function DigitChar(d: nat): (c: char)
    requires d < 10
    ensures IsDigit(c) && c as int - '0' as int == d
  {
    ('0' as int + d) as char
  }

  /** The decimal numeral of `n`, without leading zeros: how ids such as "P12" are written. */
  function Decimal(n: nat): (s: string)
    ensures |s| >= 1 && AllDigits(s)
  {
    if n < 10 then [DigitChar(n)] else Decimal(n / 10) + [DigitChar(n % 10)]
  }

  lemma {:induction false} DecimalValue(n: nat)
    ensures DigitsValue(Decimal(n)) == n
  {
    var s := Decimal(n);
    if n < 10 {
      assert s[..|s| - 1] == [];
    } else {
      assert s[..|s| - 1] == Decimal(n / 10);
      DecimalValue(n / 10);
    }
  }

  /** Every id made of one prefix character and a decimal numeral has that numeral's value as rank. */
  lemma IdRankRoundTrip(prefix: char, n: nat)
    ensures IdAsInt([prefix] + Decimal(n)) == Some(n)
  {
    var id := [prefix] + Decimal(n);
    assert id[1..] == Decimal(n);
    DecimalValue(n);
  }

  /** The first character of an id plays no part in its rank. */
  lemma RankIgnoresPrefix(a: char, b: char, rest: string)
    ensures IdAsInt([a] + rest) == IdAsInt([b] + rest)
  {
  }

  /** Distinct ids can share a rank: a leading zero is ignored, so "P01" and "P1" tie. */
  lemma LeadingZeroRankCollision()
    ensures "P01" != "P1" && IdAsInt("P01") == IdAsInt("P1") == Some(1)
  {
  }
}
