/** Steam identifiers in OpenID claimed ids. */
module ClaimedId {
  import opened Options

  const PREFIX := "https://steamcommunity.com/openid/id/"
  const LIMIT := 0x8000_0000_0000_0000

  predicate IsDigit(c: char) {
    '0' <= c <= '9'
  }

  function DigitValue(c: char): nat
    requires IsDigit(c)
  {
    c as int - '0' as int
  }

  predicate AllDigits(s: string) {
    forall i | 0 <= i < |s| :: IsDigit(s[i])
  }

  /** The number a string of digits denotes, leading zeros and all. */
  function Value(digits: string): nat
    requires AllDigits(digits)
  {
    if digits == "" then 0
    else 10 * Value(digits[..|digits| - 1]) + DigitValue(digits[|digits| - 1])
  }

  /** The decimal form of a number, without leading zeros. */
  function Decimal(n: nat): (s: string)
    ensures s != "" && AllDigits(s)
  {
    if n < 10 then [('0' as int + n) as char] else Decimal(n / 10) + [('0' as int + n % 10) as char]
  }

  function TrimSlashes(s: string): (r: string)
    ensures r <= s && (r == "" || r[|r| - 1] != '/')
    ensures forall i | |r| <= i < |s| :: s[i] == '/'
  {
    if s != "" && s[|s| - 1] == '/' then TrimSlashes(s[..|s| - 1]) else s
  }

  /** A checked 64-bit parse, digit by digit: it gives up where it would overflow. */
  function ParseFrom(digits: string, sum: nat): Option<nat>
    requires AllDigits(digits) && sum < LIMIT
  {
    if digits == "" then Some(sum)
    else
      var next := 10 * sum + DigitValue(digits[0]);
      if next < LIMIT then ParseFrom(digits[1..], next) else None
  }

  function ParseClaimedId(claimed: string): Option<nat> {
    if !(PREFIX <= claimed) then None
    else
      var digits := TrimSlashes(claimed[|PREFIX|..]);
      if digits == "" || !AllDigits(digits) then None else ParseFrom(digits, 0)
  }

  // ---------------------------------------------------------------- the parse

  function Power(k: nat): nat {
    if k == 0 then 1 else 10 * Power(k - 1)
  }

  lemma TimesTen(digit: nat, p: nat)
    ensures 10 * (digit * p) == digit * (10 * p)
  {
  }

  lemma {:induction false} ValueFromLeft(digits: string)
    requires AllDigits(digits) && digits != ""
    ensures Value(digits) == DigitValue(digits[0]) * Power(|digits| - 1) + Value(digits[1..])
  {
    var n := |digits| - 1;
    if n > 0 {
      ValueFromLeft(digits[..n]);
      assert digits[..n][1..] == digits[1..][..n - 1];
      assert digits[1..][n - 1] == digits[n];
      assert Value(digits[1..]) == 10 * Value(digits[1..][..n - 1]) + DigitValue(digits[n]);
      TimesTen(DigitValue(digits[0]), Power(n - 1));
    } else {
      assert digits[..0] == "" && digits[1..] == "";
    }
  }

  lemma {:induction false} PowerPositive(k: nat)
    ensures Power(k) >= 1
  {
    if k > 0 {
      PowerPositive(k - 1);
    }
  }

  /** Giving up at the first overflow is the same as comparing the whole number. */
  lemma {:induction false} ParseFromIsValue(digits: string, sum: nat)
    requires AllDigits(digits) && sum < LIMIT
    ensures var whole := sum * Power(|digits|) + Value(digits);
            ParseFrom(digits, sum) == if whole < LIMIT then Some(whole) else None
    decreases |digits|
  {
    if digits != "" {
      var next := 10 * sum + DigitValue(digits[0]);
      ValueFromLeft(digits);
      var p := Power(|digits| - 1);
      PowerPositive(|digits| - 1);
      assert sum * Power(|digits|) + Value(digits) == next * p + Value(digits[1..]) by {
        Regroup(sum, DigitValue(digits[0]), p);
      }
      if next < LIMIT {
        ParseFromIsValue(digits[1..], next);
      } else {
        Grows(next, p);
      }
    }
  }

  lemma Regroup(sum: nat, digit: nat, p: nat)
    ensures sum * (10 * p) + digit * p == (10 * sum + digit) * p
  {
  }

  lemma Grows(n: nat, p: nat)
    requires p >= 1
    ensures n * p >= n
  {
  }

  function Slashes(k: nat): string {
    seq(k, _ => '/')
  }

  lemma {:induction false} TrimAdds(s: string, k: nat)
    requires s == "" || s[|s| - 1] != '/'
    ensures TrimSlashes(s + Slashes(k)) == s
  {
    if k == 0 {
      assert s + Slashes(0) == s;
    } else {
      assert (s + Slashes(k))[..|s| + k - 1] == s + Slashes(k - 1);
      TrimAdds(s, k - 1);
    }
  }

  lemma {:induction false} DecimalValue(n: nat)
    ensures Value(Decimal(n)) == n
  {
    if n >= 10 {
      DecimalValue(n / 10);
      assert Decimal(n)[..|Decimal(n)| - 1] == Decimal(n / 10);
    } else {
      assert Decimal(n)[..0] == "";
    }
  }

  /** Every identifier below 2^63, in decimal and with any number of trailing slashes, comes back. */
  lemma RoundTrip(n: nat, slashes: nat)
    requires n < 0x8000_0000_0000_0000
    ensures ParseClaimedId(PREFIX + Decimal(n) + Slashes(slashes)) == Some(n)
  {
    var digits := Decimal(n);
    var claimed := PREFIX + digits + Slashes(slashes);
    assert claimed[|PREFIX|..] == digits + Slashes(slashes);
    assert PREFIX <= claimed;
    assert IsDigit(digits[|digits| - 1]);
    TrimAdds(digits, slashes);
    ParseFromIsValue(digits, 0);
    DecimalValue(n);
  }

  /** What is accepted, and what it is worth: the prefix, then digits worth less than 2^63,
      then slashes only. Everything else is refused. */
  lemma AcceptedExactly(claimed: string, n: nat)
    ensures ParseClaimedId(claimed) == Some(n) <==>
            exists digits, slashes: nat ::
              && claimed == PREFIX + digits + Slashes(slashes)
              && digits != "" && AllDigits(digits) && Value(digits) == n < 0x8000_0000_0000_0000
  {
    if ParseClaimedId(claimed) == Some(n) {
      var rest := claimed[|PREFIX|..];
      var digits := TrimSlashes(rest);
      ParseFromIsValue(digits, 0);
      assert rest == digits + Slashes(|rest| - |digits|);
      assert claimed == PREFIX + digits + Slashes(|rest| - |digits|);
    }
    forall digits, slashes: nat |
      && claimed == PREFIX + digits + Slashes(slashes)
      && digits != "" && AllDigits(digits) && Value(digits) == n < 0x8000_0000_0000_0000
      ensures ParseClaimedId(claimed) == Some(n)
    {
      assert claimed[|PREFIX|..] == digits + Slashes(slashes);
      assert PREFIX <= claimed;
      assert IsDigit(digits[|digits| - 1]);
      TrimAdds(digits, slashes);
      ParseFromIsValue(digits, 0);
    }
  }
}
