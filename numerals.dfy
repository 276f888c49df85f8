/** Decimal text <-> integer, as Python's int(str) and str(int) are used by the bot.
    The accepted grammar is simplified: an optional sign followed by one or more
    ASCII digits (no surrounding whitespace, no underscores, no non-ASCII digits). */
module Numerals {
  import opened Wrappers

  predicate IsDigit(c: char) { '0' <= c <= '9' }

  function DigitValue(c: char): (d: nat)
    requires IsDigit(c)
    ensures d < 10
  {
    (c as int) - ('0' as int)
  }

  function DigitChar(d: nat): (c: char)
    requires d < 10
    ensures IsDigit(c) && DigitValue(c) == d
  {
    (('0' as int) + d) as char
  }

  predicate AllDigits(s: string) { forall i :: 0 <= i < |s| ==> IsDigit(s[i]) }

  predicate IsSign(c: char) { c == '+' || c == '-' }

  /** The accepted integer literals, stated as a grammar: [sign] digit+ */
  predicate IsIntLiteral(s: string) {
    if |s| > 0 && IsSign(s[0]) then |s| > 1 && AllDigits(s[1..])
    else |s| > 0 && AllDigits(s)
  }

  function Pow10(k: nat): (p: nat)
    ensures p >= 1
  {
    if k == 0 then 1 else 10 * Pow10(k - 1)
  }

  /** The positional value of a digit string, summed from the most significant digit:
      the reference that the left-to-right reading below is checked against. */
  function PositionalValue(s: string): nat
    requires AllDigits(s)
  {
    if s == [] then 0 else DigitValue(s[0]) * Pow10(|s| - 1) + PositionalValue(s[1..])
  }

  /** Appending a digit shifts the value one place and adds the digit. */
  lemma {:induction false} PositionalSnoc(s: string, c: char)
    requires AllDigits(s) && IsDigit(c)
    ensures PositionalValue(s + [c]) == 10 * PositionalValue(s) + DigitValue(c)
  {
    if s != [] {
      assert (s + [c])[1..] == s[1..] + [c];
      PositionalSnoc(s[1..], c);
      var d := DigitValue(s[0]);
      assert Pow10(|s|) == 10 * Pow10(|s| - 1);
      assert d * Pow10(|s|) == 10 * (d * Pow10(|s| - 1));
    }
  }

  /** The value of a digit string read left to right (most significant first). */
  function ParseDigits(s: string): (r: Option<nat>)
    ensures r == if AllDigits(s) then Some(PositionalValue(s)) else None
  {
    if s == [] then Some(0)
    else
      var init, last := s[..|s| - 1], s[|s| - 1];
      match ParseDigits(init)
      case None => None
      case Some(v) =>
        if IsDigit(last) then
          assert s == init + [last];
          PositionalSnoc(init, last);
          Some(10 * v + DigitValue(last))
        else None
  }

  /** A leading zero does not change the value, as int("075") == 75. */
  lemma LeadingZeroIgnored(s: string)
    ensures ParseDigits(['0'] + s) == ParseDigits(s)
  {
  }

  /** Python int(s): None stands for the ValueError it raises. */
  function ParseInt(s: string): (r: Option<int>)
    ensures r.Some? <==> IsIntLiteral(s)
    ensures r.Some? ==> r.value == if s[0] == '-' then -(PositionalValue(s[1..]) as int)
                                   else if s[0] == '+' then PositionalValue(s[1..])
                                   else PositionalValue(s)
  {
    if s == [] then None
    else if IsSign(s[0]) then
      if |s| == 1 then None
      else match ParseDigits(s[1..])
        case None => None
        case Some(v) =>
          var n: int := if s[0] == '-' then -(v as int) else v;
          Some(n)
    else match ParseDigits(s)
      case None => None
      case Some(v) => Some(v as int)
  }

  /** A sign in front of a digit string: '+' keeps the value, '-' negates it, so
      int("+75") == 75 and int("-0") == 0. */
  lemma SignedDigits(s: string)
    requires |s| > 0 && AllDigits(s)
    ensures ParseInt(['+'] + s) == ParseInt(s)
    ensures ParseInt(['-'] + s) == Some(-ParseInt(s).value)
  {
  }

  /** Decimal digits of a natural number, without leading zeros. */
  function NatToDecimal(n: nat): (s: string)
    ensures |s| > 0 && AllDigits(s)
  {
    if n < 10 then [DigitChar(n)]
    else NatToDecimal(n / 10) + [DigitChar(n % 10)]
  }

  /** str(n) never starts with a redundant zero. */
  lemma {:induction false} NoLeadingZero(n: nat)
    ensures |NatToDecimal(n)| > 1 ==> NatToDecimal(n)[0] != '0'
  {
    if n >= 100 {
      NoLeadingZero(n / 10);
    }
  }

  /** Python str(n) for an int, as used by f-string interpolation. */
  function ToDecimal(n: int): (s: string)
    ensures IsIntLiteral(s)
    ensures |s| > 0 && (s[0] == '-' <==> n < 0)
    ensures s[0] != '+'
    ensures s[0] != '-' && |s| > 1 ==> s[0] != '0'
    ensures s[0] == '-' ==> |s| > 1 && s[1] != '0'
  {
    if n < 0 then
      var d := NatToDecimal(-n);
      NoLeadingZero(-n);
      assert ("-" + d)[1] == d[0];
      "-" + d
    else
      NoLeadingZero(n);
      NatToDecimal(n)
  }

  lemma {:induction false} ParseNatToDecimal(n: nat)
    ensures ParseDigits(NatToDecimal(n)) == Some(n)
  {
    var s := NatToDecimal(n);
    if n >= 10 {
      ParseNatToDecimal(n / 10);
      assert s[..|s| - 1] == NatToDecimal(n / 10);
    }
  }

  /** Reading back what str(n) printed gives n again. */
  lemma ParseToDecimal(n: int)
    ensures ParseInt(ToDecimal(n)) == Some(n)
  {
    var s := ToDecimal(n);
    if n < 0 {
      assert s[1..] == NatToDecimal(-n);
      ParseNatToDecimal(-n);
      assert PositionalValue(s[1..]) == -n;
    } else {
      ParseNatToDecimal(n);
      assert IsDigit(s[0]) && PositionalValue(s) == n;
    }
  }
}
