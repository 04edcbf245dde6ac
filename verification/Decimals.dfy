/** Decimal numerals as strconv prints and reads them. */
module Decimals {
  import opened Common

  const MAX_INT64: int := 0x7FFF_FFFF_FFFF_FFFF
  const MIN_INT64: int := -0x8000_0000_0000_0000

  predicate IsDigit(c: char) {
    '0' <= c <= '9'
  }

  predicate AllDigits(s: string) {
    forall i :: 0 <= i < |s| ==> IsDigit(s[i])
  }

  function DigitValue(c: char): int {
    c as int - '0' as int
  }

  function Digit(d: nat): char
    requires d < 10
  {
    (d + '0' as int) as char
  }

  function Digits(n: nat): string {
    if n < 10 then [Digit(n)] else Digits(n / 10) + [Digit(n % 10)]
  }

  function FormatInt(n: int): string {
    if n < 0 then "-" + Digits(-n) else Digits(n)
  }

  function Number(s: string): int {
    if s == "" then 0 else 10 * Number(s[..|s| - 1]) + DigitValue(s[|s| - 1])
  }

  function Unsigned(s: string): string {
    if s != "" && (s[0] == '-' || s[0] == '+') then s[1..] else s
  }

  /** strconv.ParseInt(s, 10, 64): an optional sign, then digits, within 64 bits. */
  function ParseInt(s: string): Option<int> {
    var digits := Unsigned(s);
    if digits == "" || !AllDigits(digits) then None
    else
      var n := if s[0] == '-' then -Number(digits) else Number(digits);
      if MIN_INT64 <= n <= MAX_INT64 then Some(n) else None
  }

  /** No plus sign, no leading zero, no minus zero. */
  predicate Canonical(s: string) {
    var digits := if s != "" && s[0] == '-' then s[1..] else s;
    && digits != "" && AllDigits(digits)
    && (digits[0] == '0' ==> s == "0")
  }

  lemma {:induction false} DigitsRead(n: nat)
    ensures Digits(n) != "" && AllDigits(Digits(n)) && Number(Digits(n)) == n
    ensures Digits(n)[0] == '0' ==> n == 0 && Digits(n) == "0"
  {
    if n >= 10 {
      DigitsRead(n / 10);
      assert Digits(n)[..|Digits(n)| - 1] == Digits(n / 10);
    }
  }

  /** Reading back what was printed. */
  lemma ParseFormat(n: int)
    requires MIN_INT64 <= n <= MAX_INT64
    ensures ParseInt(FormatInt(n)) == Some(n)
    ensures Canonical(FormatInt(n))
  {
    DigitsRead(if n < 0 then -n else n);
    if n < 0 {
      assert FormatInt(n)[1..] == Digits(-n);
    }
  }

  lemma {:induction false} NumberBounds(s: string)
    requires AllDigits(s)
    ensures Number(s) >= 0
    ensures s != "" && s[0] != '0' ==> Number(s) > 0
  {
    if s != "" {
      NumberBounds(s[..|s| - 1]);
    }
  }

  /** Printing what was read is never longer, and is the same text exactly when that text
      had no leading zero. */
  lemma {:induction false} DigitsOfNumber(s: string)
    requires s != "" && AllDigits(s)
    ensures Number(s) >= 0
    ensures |Digits(Number(s))| <= |s|
    ensures Digits(Number(s)) == s <==> (s[0] == '0' ==> s == "0")
    ensures |Digits(Number(s))| == |s| ==> Digits(Number(s)) == s
  {
    NumberBounds(s);
    if |s| > 1 {
      var front := s[..|s| - 1];
      NumberBounds(front);
      DigitsOfNumber(front);
      assert s == front + [s[|s| - 1]];
      var n, d := Number(front), DigitValue(s[|s| - 1]);
      assert Number(s) == 10 * n + d && 0 <= d < 10;
      if n == 0 {
        assert front[0] == '0';
        assert Digits(Number(s)) == [Digit(d)];
      } else {
        assert Number(s) / 10 == n && Number(s) % 10 == d;
        assert Digits(Number(s)) == Digits(n) + [s[|s| - 1]];
        if Digits(Number(s)) == s {
          assert Digits(n) == front;
        }
      }
    }
  }

  /** A numeral comes back unchanged exactly when it is canonical, and never longer. */
  lemma FormatParse(s: string)
    requires ParseInt(s).Some?
    ensures |FormatInt(ParseInt(s).value)| <= |s|
    ensures FormatInt(ParseInt(s).value) == s <==> Canonical(s)
    ensures |FormatInt(ParseInt(s).value)| == |s| ==> FormatInt(ParseInt(s).value) == s
  {
    var digits := Unsigned(s);
    DigitsOfNumber(digits);
    NumberBounds(digits);
    DigitsRead(Number(digits));
    if s[0] == '-' {
      assert s == "-" + digits;
    } else if s[0] == '+' {
      assert s == "+" + digits;
      assert Digits(Number(digits))[0] != '+';
    }
  }
}
