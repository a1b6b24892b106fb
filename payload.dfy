/** The JSON text the plugin hands to its host when the player is prepared: `{"duration":<n>}`,
    with `n` rendered as Java renders an `int` in string concatenation. */
module PreparedPayload {
  import opened Streams

  predicate IsDigit(c: char)
  {
    '0' <= c <= '9'
  }

  predicate AllDigits(s: string)
  {
    forall i :: 0 <= i < |s| ==> IsDigit(s[i])
  }

  function DigitChar(d: nat): (c: char)
    requires d < 10
    ensures IsDigit(c)
  {
    (48 + d) as char
  }

  function DigitValue(c: char): (d: nat)
    requires IsDigit(c)
    ensures d < 10 && DigitChar(d) == c
  {
    c as int - 48
  }

  /** The decimal digits of `n`, most significant first, without leading zeros. */
  function Digits(n: nat): (s: string)
    ensures |s| >= 1 && AllDigits(s)
    ensures s[0] == '0' ==> n == 0
    decreases n
  {
    if n < 10 then [DigitChar(n)] else Digits(n / 10) + [DigitChar(n % 10)]
  }

  /** `Integer.toString(n)`: an optional minus sign followed by the digits of `|n|`. */
  function Decimal(n: int): (s: string)
    ensures |s| >= 1 && (s[0] == '-' <==> n < 0)
    ensures n < 0 ==> |s| >= 2 && s[1] != '0'
    ensures s[0] == '0' ==> n == 0
  {
    if n < 0 then "-" + Digits(-n) else Digits(n)
  }

  /** The number a non-empty run of decimal digits denotes. */
  function DigitsValue(s: string): nat
    requires |s| >= 1 && AllDigits(s)
    decreases |s|
  {
    if |s| == 1 then DigitValue(s[0]) else 10 * DigitsValue(s[..|s| - 1]) + DigitValue(s[|s| - 1])
  }

  /** Reads a decimal integer: an optional minus sign and at least one digit, nothing else. */
  function ParseDecimal(s: string): Option<int>
  {
    if |s| >= 2 && s[0] == '-' && AllDigits(s[1..]) then Some(0 - DigitsValue(s[1..]) as int)
    else if |s| >= 1 && AllDigits(s) then Some(DigitsValue(s))
    else None
  }

  /** A JSON number without fraction or exponent (section 6 of RFC 8259): `-? (0 | [1-9][0-9]*)`. */
  predicate IsJsonInteger(s: string)
  {
    var body := if |s| > 0 && s[0] == '-' then s[1..] else s;
    |body| >= 1 && AllDigits(body) && (body[0] == '0' ==> |body| == 1)
  }

  const PREFIX: string := "{\"duration\":"
  const SUFFIX: string := "}"

  /** The payload `onPrepared` builds for a media of `duration` milliseconds. */
  function Payload(duration: int): (s: string)
    ensures |s| > |PREFIX| + |SUFFIX| && s[..|PREFIX|] == PREFIX && s[|s| - |SUFFIX|..] == SUFFIX
    ensures s[|PREFIX|] == '-' <==> duration < 0
  {
    PREFIX + Decimal(duration) + SUFFIX
  }

  /** Reads a payload back: the fixed prefix and suffix around a decimal integer. */
  function ParsePayload(s: string): Option<int>
  {
    if |s| >= |PREFIX| + |SUFFIX| && s[..|PREFIX|] == PREFIX && s[|s| - |SUFFIX|..] == SUFFIX
    then ParseDecimal(s[|PREFIX|..|s| - |SUFFIX|])
    else None
  }

  lemma {:induction false} DigitsRoundTrip(n: nat)
    ensures DigitsValue(Digits(n)) == n
    decreases n
  {
    if n >= 10 {
      var s := Digits(n);
      DigitsRoundTrip(n / 10);
      assert s[..|s| - 1] == Digits(n / 10);
      assert s[|s| - 1] == DigitChar(n % 10);
    }
  }

  lemma DecimalRoundTrip(n: int)
    ensures ParseDecimal(Decimal(n)) == Some(n)
  {
    var s := Decimal(n);
    if n < 0 {
      var digits := Digits(-n);
      assert s == "-" + digits && s[1..] == digits;
      DigitsRoundTrip(-n);
      assert ParseDecimal(s) == Some(0 - DigitsValue(digits) as int);
    } else {
      assert s == Digits(n) && s[0] != '-';
      DigitsRoundTrip(n);
      assert ParseDecimal(s) == Some(DigitsValue(s));
    }
  }

  /** The duration is rendered as JSON requires an integer to be written. */
  lemma DecimalIsJsonInteger(n: int)
    ensures IsJsonInteger(Decimal(n))
  {
    if n < 0 {
      assert Decimal(n)[1..] == Digits(-n);
    } else {
      assert Decimal(n)[0] != '-';
    }
  }

  /** The payload carries the duration it was built from, as a JSON integer between the fixed
      `{"duration":` and `}`. */
  lemma PayloadRoundTrip(duration: int)
    ensures ParsePayload(Payload(duration)) == Some(duration)
    ensures IsJsonInteger(Payload(duration)[|PREFIX|..|Payload(duration)| - |SUFFIX|])
    ensures Payload(duration)[|PREFIX|] == '-' <==> duration < 0
  {
    var s := Payload(duration);
    assert s[..|PREFIX|] == PREFIX;
    assert s[|s| - |SUFFIX|..] == SUFFIX;
    assert s[|PREFIX|..|s| - |SUFFIX|] == Decimal(duration);
    DecimalRoundTrip(duration);
    DecimalIsJsonInteger(duration);
  }
}
