/** The string and integer conversions the aggregation layer relies on:
    `strings.Join`, `strings.Replace(s, " ", "%20%", -1)`, `strconv.Itoa`
    and `strconv.Atoi` (decimal, without the 64-bit range check). */
module Text {
  import opened Wrappers

  /** `strings.Join`: the parts with `sep` between neighbours. */
  function Join(parts: seq<string>, sep: string): string
    decreases |parts|
  {
    if |parts| == 0 then ""
    else if |parts| == 1 then parts[0]
    else parts[0] + sep + Join(parts[1..], sep)
  }

  /** The search-query rewrite of `FindTags`: every space becomes "%20%". */
  function EscapeSpaces(s: string): (r: string)
    ensures ' ' !in r
    ensures |r| >= |s|
    decreases |s|
  {
    if |s| == 0 then ""
    else (if s[0] == ' ' then "%20%" else [s[0]]) + EscapeSpaces(s[1..])
  }

  /** A query without spaces is sent unchanged. */
  lemma {:induction false} EscapeSpacesIdentity(s: string)
    requires ' ' !in s
    ensures EscapeSpaces(s) == s
    decreases |s|
  {
    if |s| > 0 {
      assert s[0] in s;
      assert forall c :: c in s[1..] ==> c in s;
      EscapeSpacesIdentity(s[1..]);
      assert s == [s[0]] + s[1..];
    }
  }

  /** Rewriting twice is the same as rewriting once. */
  lemma EscapeSpacesIdempotent(s: string)
    ensures EscapeSpaces(EscapeSpaces(s)) == EscapeSpaces(s)
  {
    EscapeSpacesIdentity(EscapeSpaces(s));
  }

  /** The rewrite works character by character, so it distributes over concatenation. */
  lemma {:induction false} EscapeSpacesAppend(a: string, b: string)
    ensures EscapeSpaces(a + b) == EscapeSpaces(a) + EscapeSpaces(b)
    decreases |a|
  {
    if |a| > 0 {
      var head := if a[0] == ' ' then "%20%" else [a[0]];
      assert (a + b)[0] == a[0] && (a + b)[1..] == a[1..] + b;
      assert EscapeSpaces(a + b) == head + EscapeSpaces(a[1..] + b);
      EscapeSpacesAppend(a[1..], b);
      assert head + (EscapeSpaces(a[1..]) + EscapeSpaces(b)) == (head + EscapeSpaces(a[1..])) + EscapeSpaces(b);
    } else {
      assert a + b == b;
    }
  }

  predicate IsDigit(c: char) {
    '0' <= c <= '9'
  }

  predicate AllDigits(s: string) {
    forall i :: 0 <= i < |s| ==> IsDigit(s[i])
  }

  function DigitChar(d: nat): (c: char)
    requires d < 10
    ensures IsDigit(c) && c as int - '0' as int == d
  {
    ('0' as int + d) as char
  }

  /** Decimal digits of a natural number, most significant first, no leading zeros. */
  function NatToDecimal(n: nat): string
    decreases n
  {
    if n < 10 then [DigitChar(n)] else NatToDecimal(n / 10) + [DigitChar(n % 10)]
  }

  /** `strconv.Itoa`: a leading '-' for negative numbers, then the digits. */
  function Itoa(n: int): string {
    if n < 0 then "-" + NatToDecimal(-n) else NatToDecimal(n)
  }

  /** The value of a string of decimal digits. */
  function DigitsValue(s: string): nat
    requires AllDigits(s)
    decreases |s|
  {
    if |s| == 0 then 0
    else DigitsValue(s[..|s| - 1]) * 10 + (s[|s| - 1] as int - '0' as int)
  }

  /** One or more decimal digits and nothing else. */
  function ParseDigits(s: string): Option<nat> {
    if |s| > 0 && AllDigits(s) then Some(DigitsValue(s)) else None
  }

  /** `strconv.Atoi`: an optional '+' or '-', then one or more decimal digits;
      anything else (the empty string included) is an error, here `None`. */
  function Atoi(s: string): Option<int> {
    if |s| > 0 && (s[0] == '+' || s[0] == '-') then
      match ParseDigits(s[1..])
      case None => None
      case Some(m) =>
        var v: int := if s[0] == '-' then 0 - (m as int) else m;
        Some(v)
    else
      ParseDigits(s)
  }

  lemma {:induction false} NatToDecimalDigits(n: nat)
    ensures |NatToDecimal(n)| > 0 && AllDigits(NatToDecimal(n))
    ensures DigitsValue(NatToDecimal(n)) == n
    decreases n
  {
    if n >= 10 {
      NatToDecimalDigits(n / 10);
      var s := NatToDecimal(n);
      assert s[..|s| - 1] == NatToDecimal(n / 10);
    }
  }

  /** `Atoi` reads back what `Itoa` writes, for every integer. */
  lemma AtoiItoa(n: int)
    ensures Atoi(Itoa(n)) == Some(n)
  {
    if n < 0 {
      var t := NatToDecimal(-n);
      NatToDecimalDigits(-n);
      assert ParseDigits(t) == Some(-n);
      var s := "-" + t;
      assert s[0] == '-' && s[1..] == t;
      assert Itoa(n) == s;
    } else {
      var t := NatToDecimal(n);
      NatToDecimalDigits(n);
      assert ParseDigits(t) == Some(n);
      assert IsDigit(t[0]);
      assert Itoa(n) == t;
    }
  }

  /** The empty string and a sign without digits are rejected. */
  lemma AtoiRejectsEmpty()
    ensures Atoi("") == None && Atoi("+") == None && Atoi("-") == None
  {
  }

  /** A non-digit anywhere, other than a leading sign, is rejected. */
  lemma AtoiRejects(s: string, i: nat)
    requires i < |s| && !IsDigit(s[i]) && (i > 0 || (s[0] != '+' && s[0] != '-'))
    ensures Atoi(s) == None
  {
    if s[0] == '+' || s[0] == '-' {
      assert !IsDigit(s[1..][i - 1]);
    }
  }
}
