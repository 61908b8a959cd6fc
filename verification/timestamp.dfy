/** Parsing a timestamp with the pattern `%Y-%m-%d %H:%M:%S`, as CPython's
    `datetime.strptime` does, and writing a date with `%Y-%m-%d` and a time
    with `%H:%M:%S`, as `strftime` does.

    `strptime` compiles the pattern to a regular expression, matches it at the
    start of the text, rejects any text left over, and then builds a
    `datetime`, whose constructor checks the ranges. The directives become:
      %Y  exactly four digits
      %m  `1[0-2]|0[1-9]|[1-9]`
      %d  `3[01]|[12]\d|0[1-9]|[1-9]| [1-9]`
      %H  `2[0-3]|[0-1]\d|\d`
      %M  `[0-5]\d|\d`
      %S  `6[0-1]|[0-5]\d|\d`
    and the blank between date and time becomes `\s+`. Each field's two-digit
    alternatives come first, and the character after a field is never a digit
    when the match goes on, so a field takes two digits whenever the two-digit
    alternatives allow it and one digit otherwise. */
module Timestamp {
  import opened Wrappers
  import opened Decimal
  import opened Calendar

  /** A number read from the text, and the index just after it. */
  datatype Scan = Scan(value: int, next: nat)

  /** A field with two-digit alternatives covering lo..hi and a one-digit
      alternative covering lo..9. */
  function ScanField(s: string, i: nat, lo: int, hi: int): (r: Option<Scan>)
  {
    if i + 2 <= |s| && IsDigit(s[i]) && IsDigit(s[i + 1]) && lo <= TwoDigits(s, i) <= hi then
      Some(Scan(TwoDigits(s, i), i + 2))
    else if i < |s| && IsDigit(s[i]) && lo <= DigitValue(s[i]) then
      Some(Scan(DigitValue(s[i]), i + 1))
    else
      None
  }

  /** The day field: as ScanField over 1..31, plus a blank followed by 1..9. */
  function ScanDay(s: string, i: nat): (r: Option<Scan>)
  {
    match ScanField(s, i, 1, 31)
    case Some(f) => Some(f)
    case None =>
      if i + 2 <= |s| && s[i] == ' ' && IsDigit(s[i + 1]) && 1 <= DigitValue(s[i + 1]) then
        Some(Scan(DigitValue(s[i + 1]), i + 2))
      else
        None
  }

  /** What `\s` matches in a `str` pattern: the characters CPython's
      `str.isspace` accepts. */
  predicate IsSpace(c: char) {
    || '\U{9}' <= c <= '\U{D}' || '\U{1C}' <= c <= '\U{20}'
    || c == '\U{85}' || c == '\U{A0}' || c == '\U{1680}'
    || '\U{2000}' <= c <= '\U{200A}' || c == '\U{2028}' || c == '\U{2029}'
    || c == '\U{202F}' || c == '\U{205F}' || c == '\U{3000}'
  }

  /** The first index at or after `i` that does not hold a blank. */
  function SkipSpaces(s: string, i: nat): (j: nat)
    requires i <= |s|
    ensures i <= j <= |s|
    decreases |s| - i
  {
    if i < |s| && IsSpace(s[i]) then SkipSpaces(s, i + 1) else i
  }

  /** The directives of the format `%Y-%m-%d %H:%M:%S`: the six fields, the
      literal separators and the blank, which matches one or more blanks. */
  datatype Directive = Year | Month | Day | Hour | Minute | Second | Literal(c: char) | Blanks

  const Format: seq<Directive> :=
    [Year, Literal('-'), Month, Literal('-'), Day, Blanks, Hour, Literal(':'), Minute, Literal(':'), Second]

  /** The match of one directive at index `i`: the number a field reads (0
      for a literal or the blanks) and the index after the match. */
  function MatchDirective(d: Directive, s: string, i: nat): Option<Scan> {
    match d
    case Year => if i + 4 <= |s| && AllDigits(s[i..i + 4]) then Some(Scan(FourDigits(s, i), i + 4)) else None
    case Month => ScanField(s, i, 1, 12)
    case Day => ScanDay(s, i)
    case Hour => ScanField(s, i, 0, 23)
    case Minute => ScanField(s, i, 0, 59)
    case Second => ScanField(s, i, 0, 61)
    case Literal(c) => if i < |s| && s[i] == c then Some(Scan(0, i + 1)) else None
    case Blanks => if i < |s| && IsSpace(s[i]) then Some(Scan(0, SkipSpaces(s, i + 1))) else None
  }

  /** Stores the number a directive read into the field it names. */
  function Store(found: DateTime, d: Directive, value: int): DateTime {
    match d
    case Year => found.(date := found.date.(year := value))
    case Month => found.(date := found.date.(month := value))
    case Day => found.(date := found.date.(day := value))
    case Hour => found.(hour := value)
    case Minute => found.(minute := value)
    case Second => found.(second := value)
    case Literal(_) => found
    case Blanks => found
  }

  /** The match of the directives `Format[k..]` from index `i` to the end of
      `s`, storing each field read into `found`; None when a directive does
      not match or text is left over. */
  function MatchFrom(k: nat, s: string, i: nat, found: DateTime): Option<DateTime>
    requires k <= |Format|
    decreases |Format| - k
  {
    if k == |Format| then
      if i == |s| then Some(found) else None
    else
      var d :- MatchDirective(Format[k], s, i);
      MatchFrom(k + 1, s, d.next, Store(found, Format[k], d.value))
  }

  /** strptime's defaults for fields the format does not name: 1900-01-01
      00:00:00. Every field is named here, so none of them survives. */
  const Defaults := DateTime(Date(1900, 1, 1), 0, 0, 0)

  /** The regular-expression stage: the fields the format reads from `s`, or
      None when the format does not match or text is left over. */
  function MatchPattern(s: string): Option<DateTime> {
    MatchFrom(0, s, 0, Defaults)
  }

  /** `datetime.strptime(s, '%Y-%m-%d %H:%M:%S')`: None where it raises
      ValueError. */
  function ParseTimestamp(s: string): (r: Option<DateTime>)
    ensures r.Some? ==> ValidDateTime(r.value)
  {
    match MatchPattern(s)
    case None => None
    case Some(dt) => if ValidDateTime(dt) then Some(dt) else None
  }

  /** `strftime('%Y-%m-%d')`. */
  function FormatDate(d: Date): string
    requires ValidDate(d)
  {
    Pad4(d.year) + "-" + Pad2(d.month) + "-" + Pad2(d.day)
  }

  /** `strftime('%H:%M:%S')`. */
  function FormatTime(dt: DateTime): string
    requires ValidDateTime(dt)
  {
    Pad2(dt.hour) + ":" + Pad2(dt.minute) + ":" + Pad2(dt.second)
  }

  /** The zero-padded form the pattern describes: `YYYY-MM-DD HH:MM:SS`. */
  predicate IsCanonical(s: string) {
    && |s| == 19
    && AllDigits(s[..4])
    && s[4] == '-' && IsDigit(s[5]) && IsDigit(s[6])
    && s[7] == '-' && IsDigit(s[8]) && IsDigit(s[9])
    && s[10] == ' ' && IsDigit(s[11]) && IsDigit(s[12])
    && s[13] == ':' && IsDigit(s[14]) && IsDigit(s[15])
    && s[16] == ':' && IsDigit(s[17]) && IsDigit(s[18])
  }

  /** The numbers written in the digit positions of a canonical timestamp. */
  function CanonicalFields(s: string): DateTime
    requires IsCanonical(s)
  {
    DateTime(Date(FourDigits(s, 0), TwoDigits(s, 5), TwoDigits(s, 8)),
             TwoDigits(s, 11), TwoDigits(s, 14), TwoDigits(s, 17))
  }

  /** The ranges the format's own alternatives allow: months 1..12, days
      1..31, hours 0..23, minutes 0..59 and seconds 0..61. */
  predicate InFormatRange(f: DateTime) {
    && 1 <= f.date.month <= 12 && 1 <= f.date.day <= 31
    && 0 <= f.hour <= 23 && 0 <= f.minute <= 59 && 0 <= f.second <= 61
  }

  /** `HH:MM:SS` written with two digits per field from index `i` on. */
  predicate IsTwoDigitTime(s: string, i: nat) {
    && i + 8 <= |s|
    && IsDigit(s[i]) && IsDigit(s[i + 1]) && s[i + 2] == ':'
    && IsDigit(s[i + 3]) && IsDigit(s[i + 4]) && s[i + 5] == ':'
    && IsDigit(s[i + 6]) && IsDigit(s[i + 7])
  }

  /** The time part, when it is written with two digits per field: the
      format reads the hour, the minute and the second from their two digits
      each, and does not match when one of them is out of its range or when
      text follows the seconds. */
  lemma MatchTwoDigitTime(s: string, i: nat, found: DateTime)
    requires IsTwoDigitTime(s, i)
    ensures var h, mi, sec := TwoDigits(s, i), TwoDigits(s, i + 3), TwoDigits(s, i + 6);
      MatchFrom(6, s, i, found) ==
        if h <= 23 && mi <= 59 && sec <= 61 && i + 8 == |s|
        then Some(found.(hour := h, minute := mi, second := sec))
        else None
  {
    var h, mi, sec := TwoDigits(s, i), TwoDigits(s, i + 3), TwoDigits(s, i + 6);
    var rest := i + 8 == |s|;
    var afterHour, afterMinute, afterSecond := i + 1, i + 4, i + 7;
    assert forall found :: MatchFrom(11, s, afterSecond, found) == None;
    assert MatchFrom(10, s, i + 6, found.(hour := h, minute := mi)) ==
      if sec <= 61 && rest then Some(found.(hour := h, minute := mi, second := sec)) else None;
    assert forall found :: MatchFrom(9, s, afterMinute, found) == None;
    assert MatchFrom(8, s, i + 3, found.(hour := h)) ==
      if mi <= 59 && sec <= 61 && rest then Some(found.(hour := h, minute := mi, second := sec)) else None;
    assert forall found :: MatchFrom(7, s, afterHour, found) == None;
  }

  /** The month and day of a canonical timestamp: each is read from its two
      digits, and the format does not match when one is out of its range. */
  lemma MatchCanonicalMonthDay(s: string, found: DateTime)
    requires IsCanonical(s)
    ensures var f := CanonicalFields(s);
      MatchFrom(2, s, 5, found) ==
        if 1 <= f.date.month <= 12 && 1 <= f.date.day <= 31
        then MatchFrom(6, s, 11, found.(date := found.date.(month := f.date.month, day := f.date.day)))
        else None
  {
    var f := CanonicalFields(s);
    var mo, d := f.date.month, f.date.day;
    assert SkipSpaces(s, 11) == 11;
    assert forall found :: MatchFrom(5, s, 9, found) == None;
    assert MatchFrom(4, s, 8, found.(date := found.date.(month := mo))) ==
      if 1 <= d <= 31 then MatchFrom(6, s, 11, found.(date := found.date.(month := mo, day := d))) else None;
    assert forall found :: MatchFrom(3, s, 6, found) == None;
  }

  /** On a canonical timestamp the format reads each field from its two
      digits, and does not match when a field is out of its range: a field
      that then falls back to one digit leaves a digit where a separator
      must follow. */
  lemma MatchCanonical(s: string)
    requires IsCanonical(s)
    ensures MatchPattern(s) == if InFormatRange(CanonicalFields(s)) then Some(CanonicalFields(s)) else None
  {
    var f := CanonicalFields(s);
    var y, mo, d := f.date.year, f.date.month, f.date.day;
    var time := f.hour <= 23 && f.minute <= 59 && f.second <= 61;
    MatchTwoDigitTime(s, 11, DateTime(Date(y, mo, d), 0, 0, 0));
    MatchCanonicalMonthDay(s, DateTime(Date(y, 1, 1), 0, 0, 0));
    assert MatchFrom(0, s, 0, Defaults) == MatchFrom(2, s, 5, DateTime(Date(y, 1, 1), 0, 0, 0));
  }

  /** A canonical timestamp parses exactly when the numbers in it form a valid
      date and time; `2023-02-30 00:00:00` and `2023-01-02 24:00:00` do not. */
  lemma ParseCanonical(s: string)
    requires IsCanonical(s)
    ensures ParseTimestamp(s) == if ValidDateTime(CanonicalFields(s)) then Some(CanonicalFields(s)) else None
  {
    MatchCanonical(s);
  }

  /** Formatting a valid date and time gives a canonical timestamp, which
      parses back to the same date and time. */
  lemma FormatThenParse(dt: DateTime)
    requires ValidDateTime(dt)
    ensures IsCanonical(FormatDate(dt.date) + " " + FormatTime(dt))
    ensures ParseTimestamp(FormatDate(dt.date) + " " + FormatTime(dt)) == Some(dt)
  {
    var s := FormatDate(dt.date) + " " + FormatTime(dt);
    assert s[..4] == Pad4(dt.date.year);
    Pad4RoundTrip(dt.date.year);
    Pad2RoundTrip(dt.date.month);
    Pad2RoundTrip(dt.date.day);
    Pad2RoundTrip(dt.hour);
    Pad2RoundTrip(dt.minute);
    Pad2RoundTrip(dt.second);
    assert CanonicalFields(s) == dt;
    ParseCanonical(s);
  }

  /** The date of a canonical timestamp, formatted, is its first ten
      characters. */
  lemma CanonicalDateText(s: string)
    requires IsCanonical(s) && ValidDate(CanonicalFields(s).date)
    ensures FormatDate(CanonicalFields(s).date) == s[..10]
  {
    FourDigitsRoundTrip(s, 0);
    TwoDigitsRoundTrip(s, 5);
    TwoDigitsRoundTrip(s, 8);
    assert s[..10] == s[..4] + [s[4]] + s[5..7] + [s[7]] + s[8..10];
  }

  /** The time of a canonical timestamp, formatted, is its last eight
      characters. */
  lemma CanonicalTimeText(s: string)
    requires IsCanonical(s) && ValidDateTime(CanonicalFields(s))
    ensures FormatTime(CanonicalFields(s)) == s[11..]
  {
    TwoDigitsRoundTrip(s, 11);
    TwoDigitsRoundTrip(s, 14);
    TwoDigitsRoundTrip(s, 17);
    assert s[11..] == s[11..13] + [s[13]] + s[14..16] + [s[16]] + s[17..19];
  }

  /** A canonical timestamp that parses is rebuilt exactly by joining the
      formatted date and time with a blank. */
  lemma ParseThenFormat(s: string)
    requires IsCanonical(s) && ParseTimestamp(s).Some?
    ensures var dt := ParseTimestamp(s).value;
      FormatDate(dt.date) + " " + FormatTime(dt) == s
  {
    ParseCanonical(s);
    CanonicalDateText(s);
    CanonicalTimeText(s);
    assert s == s[..10] + " " + s[11..];
  }

  // The examples below follow the match from the end of the text backwards:
  // each `assert MatchFrom(k, s, i, found) == r` states the outcome of matching
  // the directives Format[k..] from index i, with the fields read so far in
  // `found`, and each line follows from the one before it by unfolding the
  // single directive Format[k].

  /** strptime's leniency: one-digit month, day, hour, minute and second are
      accepted. */
  lemma OneDigitFields()
    ensures ParseTimestamp("2023-1-2 1:0:0") == Some(DateTime(Date(2023, 1, 2), 1, 0, 0))
  {
    var s := "2023-1-2 1:0:0";
    var r := Some(DateTime(Date(2023, 1, 2), 1, 0, 0));
    assert MatchFrom(11, s, 14, DateTime(Date(2023, 1, 2), 1, 0, 0)) == r;
    assert MatchFrom(10, s, 13, DateTime(Date(2023, 1, 2), 1, 0, 0)) == r;
    assert MatchFrom(9, s, 12, DateTime(Date(2023, 1, 2), 1, 0, 0)) == r;
    assert MatchFrom(8, s, 11, DateTime(Date(2023, 1, 2), 1, 0, 0)) == r;
    assert MatchFrom(7, s, 10, DateTime(Date(2023, 1, 2), 1, 0, 0)) == r;
    assert MatchFrom(6, s, 9, DateTime(Date(2023, 1, 2), 0, 0, 0)) == r;
    assert SkipSpaces(s, 9) == 9;
    assert MatchFrom(5, s, 8, DateTime(Date(2023, 1, 2), 0, 0, 0)) == r;
    assert MatchFrom(4, s, 7, DateTime(Date(2023, 1, 1), 0, 0, 0)) == r;
    assert MatchFrom(3, s, 6, DateTime(Date(2023, 1, 1), 0, 0, 0)) == r;
    assert MatchFrom(2, s, 5, DateTime(Date(2023, 1, 1), 0, 0, 0)) == r;
    assert MatchFrom(1, s, 4, DateTime(Date(2023, 1, 1), 0, 0, 0)) == r;
    assert MatchFrom(0, s, 0, Defaults) == r;
  }

  /** A blank before a one-digit day is accepted. */
  lemma BlankBeforeDay()
    ensures ParseTimestamp("2023-01- 2 10:00:00") == Some(DateTime(Date(2023, 1, 2), 10, 0, 0))
  {
    var s := "2023-01- 2 10:00:00";
    var r := Some(DateTime(Date(2023, 1, 2), 10, 0, 0));
    assert MatchFrom(11, s, 19, DateTime(Date(2023, 1, 2), 10, 0, 0)) == r;
    assert MatchFrom(10, s, 17, DateTime(Date(2023, 1, 2), 10, 0, 0)) == r;
    assert MatchFrom(9, s, 16, DateTime(Date(2023, 1, 2), 10, 0, 0)) == r;
    assert MatchFrom(8, s, 14, DateTime(Date(2023, 1, 2), 10, 0, 0)) == r;
    assert MatchFrom(7, s, 13, DateTime(Date(2023, 1, 2), 10, 0, 0)) == r;
    assert MatchFrom(6, s, 11, DateTime(Date(2023, 1, 2), 0, 0, 0)) == r;
    assert SkipSpaces(s, 11) == 11;
    assert MatchFrom(5, s, 10, DateTime(Date(2023, 1, 2), 0, 0, 0)) == r;
    assert MatchFrom(4, s, 8, DateTime(Date(2023, 1, 1), 0, 0, 0)) == r;
    assert MatchFrom(3, s, 7, DateTime(Date(2023, 1, 1), 0, 0, 0)) == r;
    assert MatchFrom(2, s, 5, DateTime(Date(2023, 1, 1), 0, 0, 0)) == r;
    assert MatchFrom(1, s, 4, DateTime(Date(2023, 1, 1), 0, 0, 0)) == r;
    assert MatchFrom(0, s, 0, Defaults) == r;
  }

  /** Any run of blanks, tabs included, may separate the date from the time. */
  lemma BlanksBetweenDateAndTime()
    ensures ParseTimestamp("2023-01-02\t 10:00:00") == Some(DateTime(Date(2023, 1, 2), 10, 0, 0))
  {
    var s := "2023-01-02\t 10:00:00";
    var r := Some(DateTime(Date(2023, 1, 2), 10, 0, 0));
    assert MatchFrom(11, s, 20, DateTime(Date(2023, 1, 2), 10, 0, 0)) == r;
    assert MatchFrom(10, s, 18, DateTime(Date(2023, 1, 2), 10, 0, 0)) == r;
    assert MatchFrom(9, s, 17, DateTime(Date(2023, 1, 2), 10, 0, 0)) == r;
    assert MatchFrom(8, s, 15, DateTime(Date(2023, 1, 2), 10, 0, 0)) == r;
    assert MatchFrom(7, s, 14, DateTime(Date(2023, 1, 2), 10, 0, 0)) == r;
    assert MatchFrom(6, s, 12, DateTime(Date(2023, 1, 2), 0, 0, 0)) == r;
    assert SkipSpaces(s, 12) == 12;
    assert SkipSpaces(s, 11) == 12;
    assert MatchFrom(5, s, 10, DateTime(Date(2023, 1, 2), 0, 0, 0)) == r;
    assert MatchFrom(4, s, 8, DateTime(Date(2023, 1, 1), 0, 0, 0)) == r;
    assert MatchFrom(3, s, 7, DateTime(Date(2023, 1, 1), 0, 0, 0)) == r;
    assert MatchFrom(2, s, 5, DateTime(Date(2023, 1, 1), 0, 0, 0)) == r;
    assert MatchFrom(1, s, 4, DateTime(Date(2023, 1, 1), 0, 0, 0)) == r;
    assert MatchFrom(0, s, 0, Defaults) == r;
  }

  /** The year must have four digits. */
  lemma ShortYear()
    ensures ParseTimestamp("23-01-02 10:00:00") == None
  {
    var s := "23-01-02 10:00:00";
    assert !IsDigit(s[0..4][2]);
    assert MatchFrom(0, s, 0, Defaults) == None;
  }

  /** Text that does not look like a timestamp is rejected. */
  lemma NotATimestamp()
    ensures ParseTimestamp("bad-timestamp") == None
  {
    var s := "bad-timestamp";
    assert !IsDigit(s[0..4][0]);
    assert MatchFrom(0, s, 0, Defaults) == None;
  }

  /** A date on its own is rejected. */
  lemma DateOnly()
    ensures ParseTimestamp("2023-01-02") == None
  {
    var s := "2023-01-02";
    assert MatchFrom(5, s, 10, DateTime(Date(2023, 1, 2), 0, 0, 0)) == None;
    assert MatchFrom(4, s, 8, DateTime(Date(2023, 1, 1), 0, 0, 0)) == None;
    assert MatchFrom(3, s, 7, DateTime(Date(2023, 1, 1), 0, 0, 0)) == None;
    assert MatchFrom(2, s, 5, DateTime(Date(2023, 1, 1), 0, 0, 0)) == None;
    assert MatchFrom(1, s, 4, DateTime(Date(2023, 1, 1), 0, 0, 0)) == None;
    assert MatchFrom(0, s, 0, Defaults) == None;
  }

  /** Nothing may follow the seconds: strptime reports the unconverted data. */
  lemma TrailingBlank()
    ensures ParseTimestamp("2023-01-02 10:00:00 ") == None
  {
    var s := "2023-01-02 10:00:00 ";
    assert MatchFrom(11, s, 19, DateTime(Date(2023, 1, 2), 10, 0, 0)) == None;
    assert MatchFrom(10, s, 17, DateTime(Date(2023, 1, 2), 10, 0, 0)) == None;
    assert MatchFrom(9, s, 16, DateTime(Date(2023, 1, 2), 10, 0, 0)) == None;
    assert MatchFrom(8, s, 14, DateTime(Date(2023, 1, 2), 10, 0, 0)) == None;
    assert MatchFrom(7, s, 13, DateTime(Date(2023, 1, 2), 10, 0, 0)) == None;
    assert MatchFrom(6, s, 11, DateTime(Date(2023, 1, 2), 0, 0, 0)) == None;
    assert SkipSpaces(s, 11) == 11;
    assert MatchFrom(5, s, 10, DateTime(Date(2023, 1, 2), 0, 0, 0)) == None;
    assert MatchFrom(4, s, 8, DateTime(Date(2023, 1, 1), 0, 0, 0)) == None;
    assert MatchFrom(3, s, 7, DateTime(Date(2023, 1, 1), 0, 0, 0)) == None;
    assert MatchFrom(2, s, 5, DateTime(Date(2023, 1, 1), 0, 0, 0)) == None;
    assert MatchFrom(1, s, 4, DateTime(Date(2023, 1, 1), 0, 0, 0)) == None;
    assert MatchFrom(0, s, 0, Defaults) == None;
  }

  /** There is no 30 February. */
  lemma NoThirtiethOfFebruary()
    ensures ParseTimestamp("2023-02-30 10:00:00") == None
  {
    var s := "2023-02-30 10:00:00";
    assert AllDigits(s[..4]);
    ParseCanonical(s);
    assert CanonicalFields(s).date == Date(2023, 2, 30);
  }

  /** 2023 is not a leap year. */
  lemma NoLeapDayIn2023()
    ensures ParseTimestamp("2023-02-29 10:00:00") == None
  {
    var s := "2023-02-29 10:00:00";
    assert AllDigits(s[..4]);
    ParseCanonical(s);
    assert CanonicalFields(s).date == Date(2023, 2, 29);
  }

  /** The calendar starts at year 1. */
  lemma NoYearZero()
    ensures ParseTimestamp("0000-01-02 10:00:00") == None
  {
    var s := "0000-01-02 10:00:00";
    assert AllDigits(s[..4]);
    ParseCanonical(s);
    assert CanonicalFields(s).date.year == 0;
  }

  /** Zero-padded timestamps naming an impossible time of day are rejected. */
  lemma ImpossibleTimes()
    ensures ParseTimestamp("2023-01-02 24:00:00") == None
    ensures ParseTimestamp("2023-01-02 10:00:60") == None
  {
    var s1, s2 := "2023-01-02 24:00:00", "2023-01-02 10:00:60";
    assert AllDigits(s1[..4]) && AllDigits(s2[..4]);
    ParseCanonical(s1);
    ParseCanonical(s2);
    assert CanonicalFields(s1).hour == 24;
    assert CanonicalFields(s2).second == 60;
  }

  /** The leap day exists in 2024. */
  lemma LeapDay()
    ensures ParseTimestamp("2024-02-29 23:59:59") == Some(DateTime(Date(2024, 2, 29), 23, 59, 59))
  {
    var s := "2024-02-29 23:59:59";
    assert AllDigits(s[..4]);
    ParseCanonical(s);
    assert CanonicalFields(s) == DateTime(Date(2024, 2, 29), 23, 59, 59);
  }
}
