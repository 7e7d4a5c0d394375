/** The duration parser of the bot: a token matching `^(\d+)([smhd])$` denotes
    a whole number of seconds, minutes, hours or days, in milliseconds. */
module Duration {

  import opened Wrappers

  predicate IsDigit(c: char) {
    '0' <= c <= '9'
  }

  predicate AllDigits(s: string) {
    forall i :: 0 <= i < |s| ==> IsDigit(s[i])
  }

  /** The `units` table: milliseconds per unit letter; any other character has none. */
  function UnitMillis(c: char): Option<nat> {
    match c
    case 's' => Some(1000)
    case 'm' => Some(1000 * 60)
    case 'h' => Some(1000 * 60 * 60)
    case 'd' => Some(1000 * 60 * 60 * 24)
    case _ => None
  }

  predicate IsUnit(c: char) {
    UnitMillis(c).Some?
  }

  /** The decimal value of a digit string (what `parseInt` yields for one, leading zeros included). */
  function DigitsValue(s: string): nat
    requires AllDigits(s)
  {
    if s == [] then 0 else DigitsValue(s[..|s| - 1]) * 10 + (s[|s| - 1] - '0') as int
  }

  /** `parseDuration`: the whole token must be one or more ASCII digits followed by
      exactly one unit letter (case-sensitive); anything else is `null`. */
  function ParseDuration(token: string): (ms: Option<nat>)
    ensures |token| < 2 ==> ms.None?
    ensures ms.Some? ==> ms.value % 1000 == 0
  {
    if |token| < 2 then None
    else
      var amount, unit := token[..|token| - 1], token[|token| - 1];
      if AllDigits(amount) && IsUnit(unit) then Some(DigitsValue(amount) * UnitMillis(unit).value)
      else None
  }

  /** The test the mute handler applies to the parsed value: `null` and `0` are both falsy. */
  predicate MuteDurationAccepted(parsed: Option<nat>) {
    parsed.Some? && parsed.value != 0
  }

  /** The canonical decimal spelling of a natural number (no leading zeros). */
  function DecimalString(n: nat): (s: string)
    ensures |s| >= 1 && AllDigits(s) && DigitsValue(s) == n
  {
    var last := ['0' + (n % 10) as char];
    if n < 10 then last
    else
      var prefix := DecimalString(n / 10);
      assert (prefix + last)[..|prefix + last| - 1] == prefix;
      prefix + last
  }

  /** A token written the way the command's help text suggests: an amount and a unit letter. */
  function FormatDuration(amount: nat, unit: char): string {
    DecimalString(amount) + [unit]
  }

  /** Every digit string followed by a unit letter is accepted, with value amount times the unit. */
  lemma ParseAccepts(digits: string, unit: char)
    requires |digits| >= 1 && AllDigits(digits) && IsUnit(unit)
    ensures ParseDuration(digits + [unit]) == Some(DigitsValue(digits) * UnitMillis(unit).value)
  {
    var token := digits + [unit];
    assert token[..|token| - 1] == digits;
  }

  /** Every accepted token has that shape: digits, then one unit letter, and nothing else. */
  lemma ParseOnlyPattern(token: string)
    requires ParseDuration(token).Some?
    ensures |token| >= 2
    ensures var digits, unit := token[..|token| - 1], token[|token| - 1];
      AllDigits(digits) && IsUnit(unit) && token == digits + [unit]
      && ParseDuration(token).value == DigitsValue(digits) * UnitMillis(unit).value
  {
  }

  /** A character that is neither a digit nor, in last position, a unit letter
      (a sign, a decimal point, an upper-case unit, an unknown unit) means `null`. */
  lemma ParseRejectsForeignChar(token: string, i: nat)
    requires (i < |token| - 1 && !IsDigit(token[i])) || (i == |token| - 1 && !IsUnit(token[i]))
    ensures ParseDuration(token) == None
  {
  }

  /** Parsing inverts formatting: `FormatDuration(n, u)` parses to n times the unit. */
  lemma FormatRoundTrip(amount: nat, unit: char)
    requires IsUnit(unit)
    ensures ParseDuration(FormatDuration(amount, unit)) == Some(amount * UnitMillis(unit).value)
  {
    ParseAccepts(DecimalString(amount), unit);
  }

  lemma {:induction false} LeadingZeroValue(s: string)
    requires AllDigits(s)
    ensures AllDigits("0" + s) && DigitsValue("0" + s) == DigitsValue(s)
  {
    if s != [] {
      var init := s[..|s| - 1];
      LeadingZeroValue(init);
      assert ("0" + s)[..|"0" + s| - 1] == "0" + init;
    }
  }

  /** Leading zeros do not change a token's value: `"007m"` means the same as `"7m"`. */
  lemma LeadingZeroIgnored(token: string)
    requires ParseDuration(token).Some?
    ensures ParseDuration("0" + token) == ParseDuration(token)
  {
    ParseOnlyPattern(token);
    var digits, unit := token[..|token| - 1], token[|token| - 1];
    LeadingZeroValue(digits);
    assert "0" + token == ("0" + digits) + [unit];
    ParseAccepts("0" + digits, unit);
  }

  /** The mute guard refuses exactly the tokens that do not parse and the ones whose amount is zero. */
  lemma MuteGuardExact(token: string)
    ensures MuteDurationAccepted(ParseDuration(token)) <==>
      ParseDuration(token).Some? && DigitsValue(token[..|token| - 1]) > 0
  {
  }

  /** The values named by the duration option's help text (bot.js:63) and the refusal
      reply (bot.js:284), one seconds example, and the zero duration the mute guard refuses. */
  lemma AcceptedExamples()
    ensures ParseDuration("1h") == Some(3600000)
    ensures ParseDuration("30m") == Some(1800000)
    ensures ParseDuration("1d") == Some(86400000)
    ensures ParseDuration("45s") == Some(45000)
    ensures ParseDuration("0s") == Some(0) && !MuteDurationAccepted(ParseDuration("0s"))
  {
    assert DigitsValue("1") == 1 && DigitsValue("0") == 0 by {
      assert "1"[..0] == [] && "0"[..0] == [];
    }
    assert DigitsValue("30") == 30 && DigitsValue("45") == 45 by {
      assert "30"[..1] == "3" && "45"[..1] == "4";
      assert "3"[..0] == [] && "4"[..0] == [];
    }
    ParseAccepts("1", 'h');
    assert "1h" == "1" + ['h'];
    ParseAccepts("30", 'm');
    assert "30m" == "30" + ['m'];
    ParseAccepts("1", 'd');
    assert "1d" == "1" + ['d'];
    ParseAccepts("45", 's');
    assert "45s" == "45" + ['s'];
    ParseAccepts("0", 's');
    assert "0s" == "0" + ['s'];
  }

  /** Tokens the pattern refuses: an unknown unit, a sign, a decimal point, an
      upper-case unit, a bare unit and the empty string. */
  lemma RejectedExamples()
    ensures ParseDuration("10x") == None
    ensures ParseDuration("-5m") == None
    ensures ParseDuration("1.5h") == None
    ensures ParseDuration("1H") == None
    ensures ParseDuration("h") == None && ParseDuration("") == None
  {
    ParseRejectsForeignChar("10x", 2);
    ParseRejectsForeignChar("-5m", 0);
    ParseRejectsForeignChar("1.5h", 1);
    ParseRejectsForeignChar("1H", 1);
  }
}
