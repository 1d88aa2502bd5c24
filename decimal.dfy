/**
 * Decimal integers as the delivery transcoder meets them: strconv.Atoi on
 * the way in and fmt's %v for an int on the way out. Integers are
 * unbounded, so Atoi's 64-bit range error is not modelled.
 */
module Decimal {
  import opened Common

  predicate IsDigit(c: char) {
    '0' <= c <= '9'
  }

  predicate AllDigits(s: string) {
    forall i :: 0 <= i < |s| ==> IsDigit(s[i])
  }

  function DigitValue(c: char): nat
    requires IsDigit(c)
  {
    c as int - '0' as int
  }

  function DigitChar(d: nat): char
    requires d < 10
  {
    ('0' as int + d) as char
  }

  /** The value of a run of decimal digits, most significant digit first. */
  function DigitsValue(ds: string): nat
    requires AllDigits(ds)
    decreases |ds|
  {
    if ds == [] then 0 else DigitsValue(ds[..|ds| - 1]) * 10 + DigitValue(ds[|ds| - 1])
  }

  /**
   * strconv.Atoi: an optional '+' or '-' followed by at least one decimal
   * digit; anything else is a syntax error (None).
   */
  function Atoi(s: string): Option<int>
  {
    if s == [] then None
    else
      var digits := if s[0] == '-' || s[0] == '+' then s[1..] else s;
      if digits == [] || !AllDigits(digits) then None
      else
        var magnitude: int := DigitsValue(digits);
        if s[0] == '-' then Some(-magnitude) else Some(magnitude)
  }

  /** The shortest decimal spelling of a natural number. */
  function NatDigits(n: nat): string
    decreases n
  {
    if n < 10 then [DigitChar(n)] else NatDigits(n / 10) + [DigitChar(n % 10)]
  }

  /** fmt.Sprintf("%v", n) for an int. */
  function FormatInt(n: int): string
  {
    if n < 0 then "-" + NatDigits(-n) else NatDigits(n)
  }

  /** A run of digits without a superfluous leading zero. */
  predicate CanonicalDigits(ds: string) {
    |ds| > 0 && AllDigits(ds) && (ds[0] == '0' ==> |ds| == 1)
  }

  /**
   * The strings %v can print for an int: "0", a canonical run of digits, or
   * '-' followed by a canonical run that is not "0".
   */
  predicate Canonical(s: string) {
    CanonicalDigits(s) || (|s| >= 2 && s[0] == '-' && CanonicalDigits(s[1..]) && s[1] != '0')
  }

  lemma {:induction false} LeadingDigitPositive(ds: string)
    requires |ds| > 0 && AllDigits(ds) && ds[0] != '0'
    ensures DigitsValue(ds) > 0
    decreases |ds|
  {
    if |ds| > 1 {
      LeadingDigitPositive(ds[..|ds| - 1]);
    }
  }

  /** NatDigits spells n canonically, and reading the spelling back gives n. */
  lemma {:induction false} NatDigitsSpellsValue(n: nat)
    ensures CanonicalDigits(NatDigits(n))
    ensures DigitsValue(NatDigits(n)) == n
    decreases n
  {
    if n >= 10 {
      NatDigitsSpellsValue(n / 10);
      var front := NatDigits(n / 10);
      var s := front + [DigitChar(n % 10)];
      assert s[..|s| - 1] == front;
    }
  }

  /** A canonical run of digits is exactly what NatDigits prints for its value. */
  lemma {:induction false} CanonicalDigitsSpelling(ds: string)
    requires CanonicalDigits(ds)
    ensures NatDigits(DigitsValue(ds)) == ds
    decreases |ds|
  {
    var last := ds[|ds| - 1];
    if |ds| == 1 {
      assert DigitChar(DigitValue(last)) == last;
      assert ds == [last];
    } else {
      var front := ds[..|ds| - 1];
      assert CanonicalDigits(front);
      CanonicalDigitsSpelling(front);
      LeadingDigitPositive(front);
      var v := DigitsValue(ds);
      assert v == DigitsValue(front) * 10 + DigitValue(last);
      assert v / 10 == DigitsValue(front) && v % 10 == DigitValue(last);
      assert DigitChar(DigitValue(last)) == last;
      assert ds == front + [last];
    }
  }

  /** Atoi reads back every integer %v prints. */
  lemma AtoiFormatInt(n: int)
    ensures Atoi(FormatInt(n)) == Some(n)
  {
    var m: nat := if n < 0 then -n else n;
    NatDigitsSpellsValue(m);
    var s := FormatInt(n);
    if n < 0 {
      assert s[1..] == NatDigits(m);
    } else {
      assert IsDigit(s[0]);
    }
  }

  /** %v only ever prints canonical strings. */
  lemma FormatIntCanonical(n: int)
    ensures Canonical(FormatInt(n))
  {
    var m: nat := if n < 0 then -n else n;
    NatDigitsSpellsValue(m);
    if n < 0 {
      var s := FormatInt(n);
      assert s[1..] == NatDigits(m);
    }
  }

  /** A canonical string survives Atoi followed by %v unchanged. */
  lemma CanonicalRoundTrip(s: string)
    requires Canonical(s)
    ensures Atoi(s).Some? && FormatInt(Atoi(s).value) == s
  {
    if CanonicalDigits(s) {
      CanonicalDigitsSpelling(s);
    } else {
      var digits := s[1..];
      CanonicalDigitsSpelling(digits);
      LeadingDigitPositive(digits);
      var v: int := DigitsValue(digits);
      assert Atoi(s) == Some(-v);
      assert s == "-" + digits;
    }
  }

  /**
   * For a string Atoi accepts, printing its value gives the string back
   * exactly when the string is canonical.
   */
  lemma RoundTripIffCanonical(s: string)
    requires Atoi(s).Some?
    ensures FormatInt(Atoi(s).value) == s <==> Canonical(s)
  {
    if FormatInt(Atoi(s).value) == s {
      FormatIntCanonical(Atoi(s).value);
    }
    if Canonical(s) {
      CanonicalRoundTrip(s);
    }
  }

  /** Leading zeros and a '+' sign are accepted by Atoi and lost by %v. */
  lemma NonCanonicalExamples()
    ensures Atoi("007") == Some(7) && FormatInt(7) == "7"
    ensures Atoi("+5") == Some(5) && FormatInt(5) == "5"
    ensures Atoi("200") == Some(200) && FormatInt(200) == "200"
    ensures Atoi("") == None && Atoi("-") == None && Atoi("12a") == None
  {
    assert "007"[..2] == "00" && "00"[..1] == "0" && "0"[..0] == "";
    assert DigitsValue("007") == 7;
    assert "+5"[1..] == "5";
    assert "200"[..2] == "20" && "20"[..1] == "2" && "2"[..0] == "";
    assert DigitsValue("200") == 200;
    assert !AllDigits("12a") by { assert !IsDigit("12a"[2]); }
    assert "-"[1..] == "";
  }
}
