/**
 * The text form of a listening address, `format!("{}:{}", addr, port)`:
 * the host, a colon, and the port in canonical decimal (Rust's `Display`
 * for unsigned integers: no sign, no leading zeros, "0" for zero).
 *
 * `NatToDecimal` is what the formatter produces; `DecimalValue` reads
 * digits back, and `ParseBindAddr` splits a whole address at its last
 * colon. The lemmas show that the formatted form loses nothing.
 */
module BindAddress {
  import opened Wrappers

  predicate IsDigit(c: char) {
    '0' <= c <= '9'
  }

  predicate AllDigits(s: string) {
    forall i :: 0 <= i < |s| ==> IsDigit(s[i])
  }

  /** Canonical decimal: at least one digit, and no leading zero unless the numeral is "0". */
  predicate IsCanonicalDecimal(s: string) {
    |s| >= 1 && AllDigits(s) && (s[0] == '0' ==> |s| == 1)
  }

  function DigitChar(d: nat): (c: char)
    requires d < 10
    ensures IsDigit(c)
  {
    ('0' as int + d) as char
  }

  function DigitValue(c: char): (d: nat)
    requires IsDigit(c)
    ensures d < 10 && DigitChar(d) == c
  {
    c as int - '0' as int
  }

  /** The decimal numeral of `n`, most significant digit first. */
  function NatToDecimal(n: nat): (s: string)
    ensures IsCanonicalDecimal(s)
    ensures s[0] == '0' <==> n == 0
    decreases n
  {
    if n < 10 then [DigitChar(n)] else NatToDecimal(n / 10) + [DigitChar(n % 10)]
  }

  /** The number a string of digits denotes (the empty string denotes 0). */
  function DecimalValue(s: string): (n: nat)
    requires AllDigits(s)
  {
    if s == [] then 0 else DecimalValue(s[..|s| - 1]) * 10 + DigitValue(s[|s| - 1])
  }

  /** Reading the formatted numeral back yields the number. */
  lemma {:induction false} DecimalRoundTrip(n: nat)
    ensures DecimalValue(NatToDecimal(n)) == n
    decreases n
  {
    var s := NatToDecimal(n);
    if n >= 10 {
      DecimalRoundTrip(n / 10);
      assert s[..|s| - 1] == NatToDecimal(n / 10);
    }
  }

  /** Every canonical numeral is the formatting of the number it denotes. */
  lemma {:induction false} CanonicalDecimalRoundTrip(s: string)
    requires IsCanonicalDecimal(s)
    ensures NatToDecimal(DecimalValue(s)) == s
    decreases |s|
  {
    if |s| == 1 {
      assert s[..0] == [];
    } else {
      var init := s[..|s| - 1];
      assert IsCanonicalDecimal(init);
      CanonicalDecimalRoundTrip(init);
      DecimalPositive(init);
      var n := DecimalValue(s);
      assert n / 10 == DecimalValue(init) && n % 10 == DigitValue(s[|s| - 1]);
      assert s == init + [s[|s| - 1]];
    }
  }

  /** A canonical numeral of two or more digits denotes at least 10. */
  lemma {:induction false} DecimalPositive(s: string)
    requires IsCanonicalDecimal(s)
    ensures s[0] != '0' ==> DecimalValue(s) >= 1
    ensures |s| >= 2 ==> DecimalValue(s) >= 10
    decreases |s|
  {
    if |s| >= 2 {
      var init := s[..|s| - 1];
      assert IsCanonicalDecimal(init) && init[0] == s[0];
      DecimalPositive(init);
    } else {
      assert s[..0] == [];
    }
  }

  /** Different numbers are formatted differently. */
  lemma DecimalInjective(m: nat, n: nat)
    requires NatToDecimal(m) == NatToDecimal(n)
    ensures m == n
  {
    DecimalRoundTrip(m);
    DecimalRoundTrip(n);
  }

  /** A 16-bit port takes at most five digits. */
  lemma {:induction false} PortDigits(n: nat)
    requires n < 0x1_0000
    ensures 1 <= |NatToDecimal(n)| <= 5
  {
    DecimalLength(n, 5);
  }

  lemma {:induction false} DecimalLength(n: nat, k: nat)
    requires n < Pow10(k)
    ensures |NatToDecimal(n)| <= if k == 0 then 1 else k
    decreases n
  {
    if n >= 10 {
      DecimalLength(n / 10, k - 1);
    }
  }

  function Pow10(k: nat): (p: nat)
    ensures p >= 1
  {
    if k == 0 then 1 else 10 * Pow10(k - 1)
  }

  /** `addr + ":" + decimal(port)`, as `format!("{}:{}", addr, port)` builds it. */
  function FormatBindAddr(addr: string, port: nat): (s: string)
    ensures |s| == |addr| + 1 + |NatToDecimal(port)|
    ensures s[..|addr|] == addr && s[|addr|] == ':'
    ensures IsCanonicalDecimal(s[|addr| + 1..])
    ensures DecimalValue(s[|addr| + 1..]) == port
  {
    var digits := NatToDecimal(port);
    var s := addr + ":" + digits;
    assert s[|addr| + 1..] == digits;
    DecimalRoundTrip(port);
    s
  }

  /**
   * Splits at the LAST colon, so that a host which itself contains colons
   * (an IPv6 literal, say) stays whole.
   */
  function SplitAtLastColon(s: string): (r: Option<(string, string)>)
    ensures r.Some? ==> s == r.value.0 + ":" + r.value.1 && ':' !in r.value.1
    ensures r.None? ==> ':' !in s
    decreases |s|
  {
    if s == [] then None
    else if s[|s| - 1] == ':' then Some((s[..|s| - 1], ""))
    else match SplitAtLastColon(s[..|s| - 1])
      case None => None
      case Some((host, tail)) => Some((host, tail + [s[|s| - 1]]))
  }

  lemma {:induction false} SplitAtLastColonOf(host: string, tail: string)
    requires ':' !in tail
    ensures SplitAtLastColon(host + ":" + tail) == Some((host, tail))
    decreases |tail|
  {
    var s := host + ":" + tail;
    if tail == [] {
      assert s[..|s| - 1] == host;
    } else {
      var init := tail[..|tail| - 1];
      assert s[..|s| - 1] == host + ":" + init;
      assert ':' !in init by {
        forall i | 0 <= i < |init| ensures init[i] != ':' { assert init[i] == tail[i]; }
      }
      SplitAtLastColonOf(host, init);
      assert tail == init + [tail[|tail| - 1]];
    }
  }

  /** The inverse of `FormatBindAddr` for ports below 2^16. */
  function ParseBindAddr(s: string): (r: Option<(string, nat)>)
    ensures r.Some? ==> r.value.1 < 0x1_0000 && FormatBindAddr(r.value.0, r.value.1) == s
  {
    match SplitAtLastColon(s)
    case None => None
    case Some((host, digits)) =>
      if IsCanonicalDecimal(digits) && DecimalValue(digits) < 0x1_0000 then
        CanonicalDecimalRoundTrip(digits);
        Some((host, DecimalValue(digits)))
      else None
  }

  /** Formatting an address and parsing it back recovers host and port. */
  lemma BindAddrRoundTrip(addr: string, port: nat)
    requires port < 0x1_0000
    ensures ParseBindAddr(FormatBindAddr(addr, port)) == Some((addr, port))
  {
    var digits := NatToDecimal(port);
    assert ':' !in digits by {
      forall i | 0 <= i < |digits| ensures digits[i] != ':' { assert IsDigit(digits[i]); }
    }
    SplitAtLastColonOf(addr, digits);
    DecimalRoundTrip(port);
  }
}
