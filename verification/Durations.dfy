// duration_serde: durations in the configuration file.
module Durations {
  import opened Wrappers
  import opened Decimal

  // std::time::Duration
  datatype Duration = Duration(secs: nat, nanos: nat)

  predicate Valid(d: Duration) {
    d.secs < U64 && d.nanos < 1_000_000_000
  }

  function Millis(d: Duration): nat {
    d.secs * 1000 + d.nanos / 1_000_000
  }

  function FromMillis(ms: nat): Duration {
    Duration(ms / 1000, ms % 1000 * 1_000_000)
  }

  function FromSecs(s: nat): Duration {
    Duration(s, 0)
  }

  function Serialize(d: Duration): string {
    var ms := Millis(d);
    if ms % 1000 == 0 then Digits(ms / 1000, 1, 10) + "s" else Digits(ms, 1, 10) + "ms"
  }

  // How many digits the text starts with.
  function DigitPrefix(s: string): (k: nat)
    ensures k <= |s| && forall i :: 0 <= i < k ==> IsDigit(s[i])
    ensures k < |s| ==> !IsDigit(s[k])
  {
    if s == "" || !IsDigit(s[0]) then 0 else 1 + DigitPrefix(s[1..])
  }

  function Checked(secs: nat): Option<Duration> {
    if secs < U64 then Some(FromSecs(secs)) else None
  }

  function Parse(s: string): Option<Duration> {
    var split := DigitPrefix(s);
    if split == |s| then None
    else
      match ParseU64(s[..split])
      case None => None
      case Some(amount) =>
        if s[split..] == "ms" then Some(FromMillis(amount))
        else if s[split..] == "s" then Some(FromSecs(amount))
        else if s[split..] == "m" then Checked(amount * 60)
        else if s[split..] == "h" then Checked(amount * 3600)
        else None
  }

  // A valid duration, cut to whole milliseconds.
  function Truncated(d: Duration): Duration {
    Duration(d.secs, d.nanos / 1_000_000 * 1_000_000)
  }

  lemma {:induction false} PrefixOfDigits(digits: string, unit: string)
    requires forall c :: c in digits ==> IsDigit(c)
    requires unit != "" && !IsDigit(unit[0])
    ensures DigitPrefix(digits + unit) == |digits|
  {
    if digits == "" {
      assert digits + unit == unit;
    } else {
      assert (digits + unit)[1..] == digits[1..] + unit;
      PrefixOfDigits(digits[1..], unit);
    }
  }

  lemma DigitsThenUnit(n: nat, unit: string)
    requires unit == "s" || unit == "ms"
    ensures var s := Digits(n, 1, 10) + unit;
            DigitPrefix(s) < |s| && s[DigitPrefix(s)..] == unit
    ensures var s := Digits(n, 1, 10) + unit;
            ParseU64(s[..DigitPrefix(s)]) == if n >= U64 then None else Some(n)
  {
    var d := Digits(n, 1, 10);
    DigitsValue(n, 1);
    PrefixOfDigits(d, unit);
    assert (d + unit)[..|d|] == d && (d + unit)[|d|..] == unit;
  }

  lemma ParseDigits(n: nat, unit: string)
    requires unit == "s" || unit == "ms"
    ensures Parse(Digits(n, 1, 10) + unit)
         == if n >= U64 then None else if unit == "s" then Some(FromSecs(n)) else Some(FromMillis(n))
  {
    DigitsThenUnit(n, unit);
  }

  lemma MillisSplit(d: Duration)
    requires Valid(d)
    ensures Millis(d) / 1000 == d.secs && Millis(d) % 1000 == d.nanos / 1_000_000
  {
  }

  // Reading a printed duration back gives it cut to milliseconds exactly when it is
  // a whole number of seconds or its millisecond count fits in 64 bits; any other
  // printed duration is refused.
  lemma RoundTrip(d: Duration)
    requires Valid(d)
    ensures Parse(Serialize(d)) == Some(Truncated(d)) <==> Millis(d) % 1000 == 0 || Millis(d) < U64
    ensures Parse(Serialize(d)) != Some(Truncated(d)) ==> Parse(Serialize(d)) == None
  {
    MillisSplit(d);
    if Millis(d) % 1000 == 0 {
      ParseDigits(Millis(d) / 1000, "s");
    } else {
      ParseDigits(Millis(d), "ms");
    }
  }

  // The limits on max_wait and on the RTK timeout keep both inside the good case.
  lemma ConfiguredWaitRoundTrips(d: Duration)
    requires Valid(d) && d.secs <= 900
    ensures Parse(Serialize(d)) == Some(Truncated(d))
  {
    RoundTrip(d);
  }

  // Every duration that configuration text can give is valid, has whole milliseconds,
  // and is whole seconds or has fewer than 2^64 of them.
  lemma ParsedIsPrintable(s: string)
    requires Parse(s).Some?
    ensures var d := Parse(s).value;
            Valid(d) && Truncated(d) == d && (Millis(d) % 1000 == 0 || Millis(d) < U64)
  {
    var d := Parse(s).value;
    var amount := ParseU64(s[..DigitPrefix(s)]).value;
    if d == FromMillis(amount) {
      assert amount == 1000 * (amount / 1000) + amount % 1000;
    }
  }

  // What the program reads it can print and read again: saving the configuration loses
  // nothing of any duration that was ever in it.
  lemma ReadPrintRead(s: string)
    requires Parse(s).Some?
    ensures Parse(Serialize(Parse(s).value)) == Parse(s)
  {
    ParsedIsPrintable(s);
    RoundTrip(Parse(s).value);
  }

  // A duration that does not survive printing, 2^64 + 384 milliseconds and one more: it can
  // only be built by hand, because no configuration text gives it.
  lemma LongDurationRefused()
    ensures var d := Duration(18_446_744_073_709_552, 1_000_000);
            Valid(d) && Parse(Serialize(d)) == None && forall s: string :: Parse(s) != Some(d)
  {
    var d := Duration(18_446_744_073_709_552, 1_000_000);
    RoundTrip(d);
    forall s: string | Parse(s).Some? ensures Parse(s) != Some(d) {
      ParsedIsPrintable(s);
    }
  }

  // ---- the texts that are durations ------------------------------------------------------

  // A number with a unit, and the duration it stands for.
  ghost predicate Reads(s: string, digits: string, unit: string, d: Duration) {
    && s == digits + unit && digits != "" && (forall c :: c in digits ==> '0' <= c <= '9')
    && Value(digits) < 0x1_0000_0000_0000_0000
    && match unit
       case "ms" => d == Duration(Value(digits) / 1000, Value(digits) % 1000 * 1_000_000)
       case "s" => d == Duration(Value(digits), 0)
       case "m" => Value(digits) * 60 < 0x1_0000_0000_0000_0000 && d == Duration(Value(digits) * 60, 0)
       case "h" => Value(digits) * 3600 < 0x1_0000_0000_0000_0000 && d == Duration(Value(digits) * 3600, 0)
       case _ => false
  }

  lemma UnitAt(digits: string, unit: string)
    requires (forall c :: c in digits ==> IsDigit(c)) && unit in {"ms", "s", "m", "h"}
    ensures var s := digits + unit;
            DigitPrefix(s) == |digits| < |s| && s[..|digits|] == digits && s[|digits|..] == unit
  {
    PrefixOfDigits(digits, unit);
    var s := digits + unit;
    assert s[..|digits|] == digits && s[|digits|..] == unit;
  }

  // A text is read as a duration exactly when it is a number that fits in 64 bits, then
  // ms, s, m or h, and the seconds fit too.
  lemma ParsedExactly(s: string, d: Duration)
    ensures Parse(s) == Some(d) <==> exists digits: string, unit: string :: Reads(s, digits, unit, d)
  {
    if Parse(s) == Some(d) {
      var k := DigitPrefix(s);
      var digits, unit := s[..k], s[k..];
      assert s == digits + unit;
      assert Reads(s, digits, unit, d);
    }
    if digits: string, unit: string :| Reads(s, digits, unit, d) {
      UnitAt(digits, unit);
    }
  }
}
