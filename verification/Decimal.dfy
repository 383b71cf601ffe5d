// Decimal text as the Go standard library prints and parses 64-bit integers, and
// the trimming of surrounding white space.

module Decimal {
  import opened Membership

  const MAX_INT64: int := 0x7fff_ffff_ffff_ffff
  const MIN_INT64: int := -0x8000_0000_0000_0000

  predicate IsDigit(c: char) {
    '0' <= c <= '9'
  }

  predicate IsDigits(s: string) {
    forall i | 0 <= i < |s| :: IsDigit(s[i])
  }

  function Digit(d: nat): char
    requires d < 10
  {
    '0' + d as char
  }

  function Print(n: nat): string {
    if n < 10 then [Digit(n)] else Print(n / 10) + [Digit(n % 10)]
  }

  function Value(s: string): nat
    requires IsDigits(s)
  {
    if s == [] then 0 else 10 * Value(s[..|s| - 1]) + (s[|s| - 1] - '0') as nat
  }

  // An optional sign, at least one digit, and a value that fits in 64 bits.
  function ParseInt(s: string): Option<int> {
    var negative := s != [] && s[0] == '-';
    var rest := if s != [] && (s[0] == '-' || s[0] == '+') then s[1..] else s;
    if rest == [] || !IsDigits(rest) then None
    else
      var v: int := if negative then 0 - Value(rest) else Value(rest);
      if MIN_INT64 <= v <= MAX_INT64 then Some(v) else None
  }

  predicate IsSpace(c: char) {
    c in {'\t', '\n', '\U{0B}', '\U{0C}', '\r', ' ', '\U{85}', '\U{A0}', '\U{1680}', '\U{2028}', '\U{2029}', '\U{202F}',
      '\U{205F}', '\U{3000}'} ||
    '\U{2000}' <= c <= '\U{200A}'
  }

  predicate IsBlank(s: string) {
    forall i | 0 <= i < |s| :: IsSpace(s[i])
  }

  function Trim(s: string): string {
    if s == [] then s
    else if IsSpace(s[0]) then Trim(s[1..])
    else if IsSpace(s[|s| - 1]) then Trim(s[..|s| - 1])
    else s
  }

  lemma {:induction false} PrintsDigits(n: nat)
    ensures |Print(n)| >= 1 && IsDigits(Print(n)) && Value(Print(n)) == n
  {
    if n >= 10 {
      PrintsDigits(n / 10);
      assert Print(n)[..|Print(n)| - 1] == Print(n / 10);
    }
  }

  // Which numbers are parsed, with a sign or without.
  lemma ParsesSigned(n: nat)
    ensures ParseInt(Print(n)) == ParseInt("+" + Print(n)) == if n <= MAX_INT64 then Some(n) else None
    ensures ParseInt("-" + Print(n)) == if 0 - n >= MIN_INT64 then Some(0 - n) else None
    ensures ParseInt("") == ParseInt("+") == ParseInt("-") == None
  {
    PrintsDigits(n);
    assert IsDigit(Print(n)[0]);
    assert ("+" + Print(n))[1..] == Print(n) == ("-" + Print(n))[1..];
  }

  // Trimming leaves nothing exactly of white space, and else nothing at either end.
  lemma {:induction false} TrimLeaves(s: string)
    ensures Trim(s) == "" <==> IsBlank(s)
    ensures Trim(s) != "" ==> !IsSpace(Trim(s)[0]) && !IsSpace(Trim(s)[|Trim(s)| - 1])
  {
    if s != [] && IsSpace(s[0]) {
      TrimLeaves(s[1..]);
      assert forall i | 1 <= i < |s| :: s[i] == s[1..][i - 1];
    } else if s != [] && IsSpace(s[|s| - 1]) {
      TrimLeaves(s[..|s| - 1]);
    }
  }

  // Printing a number that fits and parsing it back, with any white space trimmed,
  // gives the number.
  lemma PrintParse(n: nat)
    requires n <= MAX_INT64
    ensures ParseInt(Print(n)) == Some(n) && Trim(Print(n)) == Print(n)
  {
    PrintsDigits(n);
    assert IsDigit(Print(n)[0]) && IsDigit(Print(n)[|Print(n)| - 1]);
  }
}
