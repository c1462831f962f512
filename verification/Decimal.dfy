/** Decimal text of integers, as formatted into command tags and merged rows and parsed back out of them. */
module Decimal {
  import opened Protocol

  predicate IsDigit(c: char) {
    '0' <= c <= '9'
  }

  predicate AllDigits(s: string) {
    forall i :: 0 <= i < |s| ==> IsDigit(s[i])
  }

  function Digit(d: nat): char
    requires d < 10
  {
    '0' + d as char
  }

  function Print(n: nat): string {
    if n < 10 then [Digit(n)] else Print(n / 10) + [Digit(n % 10)]
  }

  function Read(s: string): nat
    requires AllDigits(s)
  {
    if s == [] then 0 else Read(s[..|s| - 1]) * 10 + (s[|s| - 1] - '0') as nat
  }

  lemma {:induction false} PrintRead(n: nat)
    ensures Print(n) != [] && AllDigits(Print(n)) && Read(Print(n)) == n
  {
    if n >= 10 {
      PrintRead(n / 10);
      assert Print(n)[..|Print(n)| - 1] == Print(n / 10);
    }
  }

  function PrintSigned(n: int): string {
    if n < 0 then "-" + Print(-n) else Print(n)
  }

  /** The integer a text stands for: an optional sign and at least one digit. */
  function ReadSigned(s: string): Option<int> {
    var digits := if s != [] && (s[0] == '-' || s[0] == '+') then s[1..] else s;
    if digits == [] || !AllDigits(digits) then None
    else
      var n: int := Read(digits);
      Some(if s[0] == '-' then -n else n)
  }

  lemma PrintReadSigned(n: int)
    ensures ReadSigned(PrintSigned(n)) == Some(n)
    ensures forall i :: 0 <= i < |PrintSigned(n)| ==> IsDigit(PrintSigned(n)[i]) || PrintSigned(n)[i] == '-'
  {
    var s := PrintSigned(n);
    if n < 0 {
      PrintRead(-n);
      assert s[1..] == Print(-n);
    } else {
      PrintRead(n);
      assert IsDigit(s[0]);
    }
  }
}
