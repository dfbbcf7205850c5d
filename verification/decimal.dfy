/** Printing and reading back the port that a policy carries in a label. */
module Decimal {
  import opened Prelude

  function Digit(n: nat): char
    requires n < 10
  {
    '0' + n as char
  }

  function Digits(n: nat): (s: string)
    ensures s != "" && forall c :: c in s ==> '0' <= c <= '9'
  {
    if n < 10 then [Digit(n)] else Digits(n / 10) + [Digit(n % 10)]
  }

  /** `fmt.Sprintf("%d", n)`. */
  function Print(n: int): string {
    if n < 0 then "-" + Digits(-n) else Digits(n)
  }

  function ReadDigits(s: string): Option<nat>
  {
    if s == "" then None
    else
      var c := s[|s| - 1];
      if !('0' <= c <= '9') then None
      else if |s| == 1 then Some((c - '0') as nat)
      else
        match ReadDigits(s[..|s| - 1])
        case None => None
        case Some(high) => Some(10 * high + (c - '0') as nat)
  }

  /** `strconv.Atoi` with its error dropped: 0 for anything that is not a decimal integer. */
  function Read(s: string): int {
    var negative := s != "" && s[0] == '-';
    var signed := s != "" && (s[0] == '-' || s[0] == '+');
    match ReadDigits(if signed then s[1..] else s)
    case None => 0
    case Some(n) => if negative then 0 - n else n
  }

  /** Go's conversion to `int32`: the low 32 bits, read as two's complement. */
  function ToInt32(n: int): (r: int)
    ensures -0x8000_0000 <= r < 0x8000_0000
  {
    (n + 0x8000_0000) % 0x1_0000_0000 - 0x8000_0000
  }

  lemma {:induction false} ReadDigitsOfDigits(n: nat)
    ensures ReadDigits(Digits(n)) == Some(n)
  {
    var s := Digits(n);
    if n >= 10 {
      ReadDigitsOfDigits(n / 10);
      assert s[..|s| - 1] == Digits(n / 10);
    }
  }

  lemma ReadOfPrint(n: int)
    ensures Print(n) != "" && Read(Print(n)) == n
  {
    if n < 0 {
      ReadDigitsOfDigits(-n);
      assert Print(n)[1..] == Digits(-n);
    } else {
      ReadDigitsOfDigits(n);
      assert Print(n)[0] in Digits(n);
    }
  }

  /** Every 32-bit port survives being printed into a label and read back. */
  lemma PrintReadRoundTrip(port: int)
    requires -0x8000_0000 <= port < 0x8000_0000
    ensures Print(port) != ""
    ensures ToInt32(Read(Print(port))) == port
  {
    ReadOfPrint(port);
  }

  /** The number that a string of digits stands for. */
  function Value(s: string): int {
    if s == "" then 0 else 10 * Value(s[..|s| - 1]) + (s[|s| - 1] as int - '0' as int)
  }

  /** A printed number is its decimal notation: digits only, of that value, without leading zeros. */
  lemma {:induction false} DigitsMean(n: nat)
    ensures Value(Digits(n)) == n
    ensures (forall c :: c in Digits(n) ==> '0' <= c <= '9') && (n > 0 ==> Digits(n)[0] != '0')
  {
    if n < 10 {
      assert Value([Digit(n)]) == 10 * Value([]) + n by { assert [Digit(n)][..0] == []; }
    } else {
      DigitsMean(n / 10);
      assert Digits(n)[..|Digits(n)| - 1] == Digits(n / 10);
    }
  }

  lemma PrintMeans(n: int)
    ensures n >= 0 ==> Print(n) != "" && Value(Print(n)) == n && forall c :: c in Print(n) ==> '0' <= c <= '9'
    ensures n > 0 ==> Print(n)[0] != '0'
    ensures n < 0 ==> Print(n) == "-" + Print(-n)
  {
    if n >= 0 {
      DigitsMean(n);
    }
  }

  function Power10(k: nat): nat {
    if k == 0 then 1 else 10 * Power10(k - 1)
  }

  /** A number below 10 to the k has at most k digits. */
  lemma {:induction false} DigitsFew(n: nat, k: nat)
    requires n < Power10(k) && k >= 1
    ensures |Digits(n)| <= k
  {
    if n >= 10 {
      DigitsFew(n / 10, k - 1);
    }
  }

  lemma PrintInjective(a: int, b: int)
    requires Print(a) == Print(b)
    ensures a == b
  {
    ReadOfPrint(a);
    ReadOfPrint(b);
  }
}
