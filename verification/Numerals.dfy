/** Integers as the text they are printed as. */
module Numerals {
  function Digits(n: nat): string {
    if n < 10 then ["0123456789"[n]] else Digits(n / 10) + ["0123456789"[n % 10]]
  }

  function Itoa(n: int): string {
    if n < 0 then "-" + Digits(-n) else Digits(n)
  }

  // ---------- reading them back ----------

  predicate IsDigit(c: char) {
    '0' <= c <= '9'
  }

  function ValueOf(c: char): nat
    requires IsDigit(c)
  {
    c as int - '0' as int
  }

  predicate IsNumber(s: string) {
    s != "" && forall c :: c in s ==> IsDigit(c)
  }

  /** The number a text of digits stands for. */
  function ReadNumber(s: string): nat
    requires IsNumber(s)
  {
    var n := |s| - 1;
    ValueOf(s[n]) + if n == 0 then 0 else 10 * ReadNumber(s[..n])
  }

  lemma DigitReads(n: nat)
    requires n < 10
    ensures IsDigit("0123456789"[n]) && ValueOf("0123456789"[n]) == n
  {
    var digits := "0123456789";
    assert digits[0] == '0' && digits[1] == '1' && digits[2] == '2' && digits[3] == '3' && digits[4] == '4';
    assert digits[5] == '5' && digits[6] == '6' && digits[7] == '7' && digits[8] == '8' && digits[9] == '9';
  }

  lemma {:induction false} DigitsRead(n: nat)
    ensures IsNumber(Digits(n)) && ReadNumber(Digits(n)) == n
  {
    DigitReads(n % 10);
    if n >= 10 {
      DigitsRead(n / 10);
      assert Digits(n)[..|Digits(n)| - 1] == Digits(n / 10);
    }
  }

  /** What is printed of a number that is not negative is read back as it. */
  lemma NumberReads(n: int)
    requires n >= 0
    ensures IsNumber(Itoa(n)) && ReadNumber(Itoa(n)) == n
  {
    DigitsRead(n);
  }
}
