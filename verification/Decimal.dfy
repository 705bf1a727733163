/** Decimal digits: reading a run of them, and printing a number. */
module Decimal {

  predicate IsDigit(c: char) {
    '0' <= c <= '9'
  }

  predicate AllDigits(s: string) {
    forall k :: 0 <= k < |s| ==> IsDigit(s[k])
  }

  function Number(s: string): nat
    requires AllDigits(s)
  {
    if s == "" then 0
    else 10 * Number(s[..|s| - 1]) + (s[|s| - 1] as int - '0' as int)
  }

  function Print(n: nat): (s: string)
    ensures s != "" && AllDigits(s)
    ensures n > 0 ==> s[0] != '0'
  {
    var digit := ['0' + (n % 10) as char];
    if n < 10 then digit else Print(n / 10) + digit
  }

  /** Reading back a printed number gives the number. */
  lemma {:induction false} NumberOfPrint(n: nat)
    ensures Number(Print(n)) == n
  {
    if n >= 10 {
      NumberOfPrint(n / 10);
      assert Print(n)[..|Print(n)| - 1] == Print(n / 10);
    }
  }

  /** Place value: appending a digit multiplies by ten and adds it, and the digits 0 to 9 are worth 0 to 9. */
  lemma PlaceValue(s: string, c: char)
    requires AllDigits(s) && IsDigit(c)
    ensures Number("") == 0
    ensures Number(s + [c]) == 10 * Number(s) + Number([c])
    ensures forall k :: 0 <= k < 10 ==> Number(["0123456789"[k]]) == k
  {
    assert (s + [c])[..|s|] == s;
    assert [c][..0] == "";
    forall k | 0 <= k < 10
      ensures Number(["0123456789"[k]]) == k
    {
      var d := ["0123456789"[k]];
      assert d[..|d| - 1] == "";
    }
  }
}
