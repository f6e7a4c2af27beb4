/**
 * The `"%Y-%m-%d"` date format: reading a plant date (`datetime.strptime`)
 * and writing a harvest date (`strftime`).
 */
module DateFormat {

  import opened Wrappers
  import opened Decimal
  import opened Calendar

  /** Why a date string was refused: the text does not match the pattern, or it names no such day. */
  datatype DateError = FormatMismatch | ValueOutOfRange

  /** Four-digit year, two-digit month and two-digit day, separated by hyphens. */
  function FormatDate(d: Date): (s: string)
    requires ValidDate(d)
    ensures HasDateShape(s)
  {
    FixedDigits(d.year, 4) + "-" + FixedDigits(d.month, 2) + "-" + FixedDigits(d.day, 2)
  }

  /** Ten characters: four digits, a hyphen, two digits, a hyphen, two digits. */
  predicate HasDateShape(s: string)
  {
    |s| == 10 && s[4] == '-' && s[7] == '-'
    && AllDigits(s[..4]) && AllDigits(s[5..7]) && AllDigits(s[8..])
  }

  /** The month and day fields are within what the pattern's `%m` (01-12) and `%d` (01-31) accept. */
  predicate FieldsInPattern(s: string)
    requires HasDateShape(s)
  {
    1 <= DigitsValue(s[5..7]) <= 12 && 1 <= DigitsValue(s[8..]) <= 31
  }

  /** The date named by the three numeric fields of a string of the right shape. */
  function FieldsDate(s: string): Date
    requires HasDateShape(s)
  {
    Date(DigitsValue(s[..4]), DigitsValue(s[5..7]), DigitsValue(s[8..]))
  }

  /**
   * Parse a plant date. A string off the pattern is a `FormatMismatch`; one on
   * the pattern that names year 0 or a day past the end of its month is a
   * `ValueOutOfRange`.
   */
  function ParseDate(s: string): (r: Result<Date, DateError>)
    ensures r.Ok? ==> ValidDate(r.value)
    ensures r == Err(FormatMismatch) <==> !HasDateShape(s) || !FieldsInPattern(s)
    ensures r == Err(ValueOutOfRange) <==> HasDateShape(s) && FieldsInPattern(s) && !ValidDate(FieldsDate(s))
  {
    if !HasDateShape(s) || !FieldsInPattern(s) then Err(FormatMismatch)
    else if !ValidDate(FieldsDate(s)) then Err(ValueOutOfRange)
    else Ok(FieldsDate(s))
  }

  /** Every accepted string is the canonical rendering of the date it names. */
  lemma ParsedIsCanonical(s: string)
    requires ParseDate(s).Ok?
    ensures FormatDate(ParseDate(s).value) == s
  {
    assert ParseDate(s).value == FieldsDate(s);
    FieldsRoundTrip(s);
  }

  /** Writing the three fields of a string of the right shape back at their widths restores the string. */
  lemma FieldsRoundTrip(s: string)
    requires HasDateShape(s)
    ensures var d := FieldsDate(s);
      FixedDigits(d.year, 4) + "-" + FixedDigits(d.month, 2) + "-" + FixedDigits(d.day, 2) == s
  {
    DigitsRoundTrip(s[..4]);
    DigitsRoundTrip(s[5..7]);
    DigitsRoundTrip(s[8..]);
    assert s == s[..4] + "-" + s[5..7] + "-" + s[8..];
  }

  /** Formatting a valid date and parsing it back gives the same date. */
  lemma ParseFormatRoundTrip(d: Date)
    requires ValidDate(d)
    ensures ParseDate(FormatDate(d)) == Ok(d)
  {
    var s := FormatDate(d);
    assert s[..4] == FixedDigits(d.year, 4);
    assert s[5..7] == FixedDigits(d.month, 2);
    assert s[8..] == FixedDigits(d.day, 2);
    FixedDigitsRoundTrip(d.year, 4);
    FixedDigitsRoundTrip(d.month, 2);
    FixedDigitsRoundTrip(d.day, 2);
  }

  /** A string parses exactly when it is the rendering of some valid date. */
  lemma ParseDateAcceptsExactlyRenderings(s: string)
    ensures ParseDate(s).Ok? <==> exists d :: ValidDate(d) && FormatDate(d) == s
  {
    if exists d :: ValidDate(d) && FormatDate(d) == s {
      var d :| ValidDate(d) && FormatDate(d) == s;
      ParseFormatRoundTrip(d);
    }
    if ParseDate(s).Ok? {
      ParsedIsCanonical(s);
    }
  }
}
