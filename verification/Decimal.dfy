/** Decimal numbers as Go's strconv prints and reads them. */
module Decimal {
  import opened Collections

  function Digit(n: nat): char
    requires n < 10
  {
    '0' + n as char
  }

  function Digits(n: nat): (r: string)
    ensures r != "" && forall i :: 0 <= i < |r| ==> '0' <= r[i] <= '9'
  {
    if n < 10 then [Digit(n)] else Digits(n / 10) + [Digit(n % 10)]
  }

  /** strconv.Itoa */
  function Itoa(n: int): (r: string)
    ensures r != "" && '\n' !in r
  {
    if n < 0 then "-" + Digits(-n) else Digits(n)
  }

  function Undigits(s: string): Option<nat> {
    if s == "" then Some(0)
    else if !('0' <= s[|s| - 1] <= '9') then None
    else match Undigits(s[..|s| - 1])
         case None => None
         case Some(m) => Some(10 * m + (s[|s| - 1] - '0') as nat)
  }

  /** strconv.Atoi with its error dropped: malformed text reads as 0. */
  function Atoi(s: string): int {
    var sign := s != "" && (s[0] == '-' || s[0] == '+');
    var ds := if sign then s[1..] else s;
    if ds == "" then 0
    else match Undigits(ds)
         case None => 0
         case Some(n) => if sign && s[0] == '-' then 0 - n else n as int
  }

  lemma {:induction false} DigitsBack(n: nat)
    ensures Undigits(Digits(n)) == Some(n)
  {
    if n >= 10 {
      DigitsBack(n / 10);
      assert Digits(n)[..|Digits(n)| - 1] == Digits(n / 10);
    } else {
      assert Digits(n)[..0] == "";
    }
  }

  /** A sign is read, and what is no number reads as zero. */
  lemma {:induction false} AtoiReads(n: int, s: string)
    requires n >= 0
    ensures Atoi("+" + Digits(n)) == n && Atoi("-" + Digits(n)) == -n && Atoi("") == 0 && Atoi("-") == 0
    ensures s != "" && s[0] != '+' && s[0] != '-' && Undigits(s) == None ==> Atoi(s) == 0
  {
    DigitsBack(n);
    assert ("+" + Digits(n))[1..] == Digits(n) && ("-" + Digits(n))[1..] == Digits(n);
  }

  lemma {:induction false} ItoaBack(n: int)
    ensures Atoi(Itoa(n)) == n
  {
    if n < 0 {
      DigitsBack(-n);
      assert Itoa(n)[1..] == Digits(-n);
    } else {
      DigitsBack(n);
    }
  }
}
