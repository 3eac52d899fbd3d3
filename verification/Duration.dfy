/** The configured lifetimes: digits followed by one unit letter, read once in milliseconds
    and once in seconds from two separate tables. */
module Duration {
  import opened Options

  datatype Amount = Amount(amount: nat, unit: char)

  const DAY_MS := 86_400_000
  const DAY_SECONDS := 86_400

  predicate IsDigit(c: char) {
    '0' <= c <= '9'
  }

  predicate IsUnit(c: char) {
    c == 's' || c == 'm' || c == 'h' || c == 'd'
  }

  predicate AllDigits(s: string) {
    forall i :: 0 <= i < |s| ==> IsDigit(s[i])
  }

  /** Decimal value of a digit string. */
  function DigitsValue(s: string): nat
    requires AllDigits(s)
  {
    if s == [] then 0
    else 10 * DigitsValue(s[..|s| - 1]) + (s[|s| - 1] as int - '0' as int)
  }

  /** The pattern ^(\d+)([smhd])$. */
  function ParseAmount(s: string): Option<Amount> {
    if |s| >= 2 && IsUnit(s[|s| - 1]) && AllDigits(s[..|s| - 1])
    then Some(Amount(DigitsValue(s[..|s| - 1]), s[|s| - 1]))
    else None
  }

  function UnitMs(unit: char): nat {
    match unit
    case 's' => 1000
    case 'm' => 60_000
    case 'h' => 3_600_000
    case _ => DAY_MS
  }

  function UnitSeconds(unit: char): nat {
    match unit
    case 's' => 1
    case 'm' => 60
    case 'h' => 3600
    case 'd' => DAY_SECONDS
    case _ => 60
  }

  function ParseDurationMs(s: string, fallback: nat := 7 * DAY_MS): nat {
    match ParseAmount(s)
    case None => fallback
    case Some(a) => a.amount * UnitMs(a.unit)
  }

  function ParseDurationSeconds(s: string, fallback: nat := DAY_SECONDS): nat {
    match ParseAmount(s)
    case None => fallback
    case Some(a) => a.amount * UnitSeconds(a.unit)
  }

  /** A lifetime the service and the JWT library read alike: an amount and a unit, not zero. */
  predicate WellFormed(s: string) {
    ParseAmount(s).Some? && ParseAmount(s).value.amount > 0
  }

  /** What the JWT library adds to `iat` for a well-formed lifetime: whole seconds out of milliseconds. */
  function JwtLifetime(s: string): nat {
    ParseDurationMs(s) / 1000
  }

  /** Decimal printing, the partner of DigitsValue. */
  function PrintNat(n: nat): (s: string)
    ensures |s| >= 1 && AllDigits(s)
  {
    var digit := ['0', '1', '2', '3', '4', '5', '6', '7', '8', '9'][n % 10];
    if n < 10 then [digit] else PrintNat(n / 10) + [digit]
  }

  lemma {:induction false} PrintedDigitsParse(n: nat)
    ensures DigitsValue(PrintNat(n)) == n
  {
    var s := PrintNat(n);
    if n >= 10 {
      PrintedDigitsParse(n / 10);
      assert s[..|s| - 1] == PrintNat(n / 10);
    } else {
      assert s[..|s| - 1] == [];
    }
  }

  /** Printing an amount and a unit and reading it back gives the same amount and unit. */
  lemma PrintedDurationParses(n: nat, unit: char)
    requires IsUnit(unit)
    ensures ParseAmount(PrintNat(n) + [unit]) == Some(Amount(n, unit))
  {
    var s := PrintNat(n) + [unit];
    assert s[..|s| - 1] == PrintNat(n);
    PrintedDigitsParse(n);
  }

  /** Both tables read a printed duration as its product. */
  lemma PrintedDurationReadings(n: nat, unit: char)
    requires IsUnit(unit)
    ensures ParseDurationMs(PrintNat(n) + [unit]) == n * UnitMs(unit)
    ensures ParseDurationSeconds(PrintNat(n) + [unit]) == n * UnitSeconds(unit)
    ensures WellFormed(PrintNat(n) + [unit]) <==> n > 0
  {
    PrintedDurationParses(n, unit);
  }

  lemma ReadingInNumbers(n: nat, unit: char, ms: nat, seconds: nat)
    requires IsUnit(unit) && UnitMs(unit) == ms && UnitSeconds(unit) == seconds
    ensures ParseDurationMs(PrintNat(n) + [unit]) == n * ms && ParseDurationSeconds(PrintNat(n) + [unit]) == n * seconds
    ensures JwtLifetime(PrintNat(n) + [unit]) == n * seconds
  {
    PrintedDurationReadings(n, unit);
    PrintedDurationParses(n, unit);
    ReadingsAgreeIffMatched(PrintNat(n) + [unit]);
  }

  /** The readings in numbers, and the two fallbacks: a week in milliseconds, a day in seconds. */
  lemma ReadingsInNumbers(n: nat, s: string)
    ensures ParseDurationMs(PrintNat(n) + "s") == n * 1000 && ParseDurationSeconds(PrintNat(n) + "s") == n * 1
    ensures ParseDurationMs(PrintNat(n) + "m") == n * 60_000 && ParseDurationSeconds(PrintNat(n) + "m") == n * 60
    ensures ParseDurationMs(PrintNat(n) + "h") == n * 3_600_000 && ParseDurationSeconds(PrintNat(n) + "h") == n * 3600
    ensures ParseDurationMs(PrintNat(n) + "d") == n * 86_400_000 && ParseDurationSeconds(PrintNat(n) + "d") == n * 86_400
    ensures JwtLifetime(PrintNat(n) + "s") == n * 1 && JwtLifetime(PrintNat(n) + "m") == n * 60
    ensures JwtLifetime(PrintNat(n) + "h") == n * 3600 && JwtLifetime(PrintNat(n) + "d") == n * 86_400
    ensures ParseAmount(s) == None ==> ParseDurationMs(s) == 604_800_000 && ParseDurationSeconds(s) == 86_400
  {
    ReadingInNumbers(n, 's', 1000, 1);
    ReadingInNumbers(n, 'm', 60_000, 60);
    ReadingInNumbers(n, 'h', 3_600_000, 3600);
    ReadingInNumbers(n, 'd', 86_400_000, 86_400);
  }

  function Zeros(k: nat): (s: string)
    ensures |s| == k && AllDigits(s)
  {
    seq(k, _ => '0')
  }

  lemma DigitPrints(c: char)
    requires IsDigit(c)
    ensures PrintNat(c as int - '0' as int) == [c]
  {
  }

  /** A digit string is its value in decimal, after any number of zeros. */
  lemma {:induction false} DigitsArePrinted(s: string) returns (k: nat)
    requires s != "" && AllDigits(s)
    ensures s == Zeros(k) + PrintNat(DigitsValue(s))
  {
    var init, c := s[..|s| - 1], s[|s| - 1];
    var digit := c as int - '0' as int;
    DigitPrints(c);
    assert s == init + [c];
    if init == "" {
      k := 0;
      assert DigitsValue(s) == digit;
    } else {
      k := DigitsArePrinted(init);
      var n := DigitsValue(init);
      assert DigitsValue(s) == 10 * n + digit;
      if n == 0 {
        k := k + 1;
        assert PrintNat(0) == "0";
        assert Zeros(k) == Zeros(k - 1) + "0";
      } else {
        assert (10 * n + digit) / 10 == n && (10 * n + digit) % 10 == digit;
        assert PrintNat(10 * n + digit) == PrintNat(n) + [c];
      }
    }
  }

  lemma {:induction false} LeadingZerosDoNotCount(k: nat, s: string)
    requires AllDigits(s)
    ensures AllDigits(Zeros(k) + s) && DigitsValue(Zeros(k) + s) == DigitsValue(s)
    decreases |s|, k
  {
    var z := Zeros(k) + s;
    if s == "" {
      assert z == Zeros(k);
      if k > 0 {
        assert Zeros(k)[..k - 1] == Zeros(k - 1) == Zeros(k - 1) + "";
        LeadingZerosDoNotCount(k - 1, "");
      }
    } else {
      assert z[..|z| - 1] == Zeros(k) + s[..|s| - 1];
      LeadingZerosDoNotCount(k, s[..|s| - 1]);
    }
  }

  /** The strings the pattern takes, and what it reads in them: digits, which are a number in decimal after any number of
      zeros, and one of the four unit letters. */
  lemma MatchedIffPrinted(s: string, n: nat, unit: char)
    ensures ParseAmount(s) == Some(Amount(n, unit))
            <==> IsUnit(unit) && exists k: nat :: s == Zeros(k) + PrintNat(n) + [unit]
    ensures IsUnit(unit) <==> unit in "smhd"
  {
    if ParseAmount(s) == Some(Amount(n, unit)) {
      var k := DigitsArePrinted(s[..|s| - 1]);
      assert s == s[..|s| - 1] + [unit] == Zeros(k) + PrintNat(n) + [unit];
    }
    if k: nat :| s == Zeros(k) + PrintNat(n) + [unit] {
      assert s[..|s| - 1] == Zeros(k) + PrintNat(n);
      LeadingZerosDoNotCount(k, PrintNat(n));
      PrintedDigitsParse(n);
    }
  }

  lemma UnitTablesAgree(unit: char)
    requires IsUnit(unit)
    ensures UnitMs(unit) == 1000 * UnitSeconds(unit)
  {
  }

  /** The two readings of one string agree exactly when the pattern matches: the two fallbacks,
      seven days and one day, do not. */
  lemma ReadingsAgreeIffMatched(s: string)
    ensures ParseDurationMs(s) == 1000 * ParseDurationSeconds(s) <==> ParseAmount(s).Some?
    ensures ParseAmount(s).Some? ==> JwtLifetime(s) == ParseDurationSeconds(s)
  {
    match ParseAmount(s)
    case None =>
    case Some(a) =>
      UnitTablesAgree(a.unit);
      calc {
        ParseDurationMs(s);
        a.amount * (1000 * UnitSeconds(a.unit));
        1000 * (a.amount * UnitSeconds(a.unit));
        1000 * ParseDurationSeconds(s);
      }
  }

  lemma WellFormedLifetime(s: string)
    requires WellFormed(s)
    ensures ParseDurationMs(s) == 1000 * JwtLifetime(s)
    ensures JwtLifetime(s) == ParseDurationSeconds(s) > 0
  {
    ReadingsAgreeIffMatched(s);
    var a := ParseAmount(s).value;
    assert a.amount * UnitSeconds(a.unit) >= 1 by {
      assert IsUnit(a.unit) && UnitSeconds(a.unit) >= 1;
      ProductPositive(a.amount, UnitSeconds(a.unit));
    }
  }

  lemma ProductPositive(x: nat, y: nat)
    requires x >= 1 && y >= 1
    ensures x * y >= 1
  {
  }
}
