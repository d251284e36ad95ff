/** `compare_date` (extract_deputees.py): both arguments are parsed with
    `datetime.strptime(_, "%Y-%m-%d")`; the result is `date1 > date2`, or an
    error message when either string does not parse. */
module Dates {
  import opened Json

  datatype Date = Date(year: int, month: int, day: int)

  predicate IsDigit(c: char)
  {
    '0' <= c <= '9'
  }

  function Digit(c: char): nat
    requires IsDigit(c)
  {
    (c as int) - ('0' as int)
  }

  predicate IsLeapYear(y: int)
  {
    y % 4 == 0 && (y % 100 != 0 || y % 400 == 0)
  }

  function DaysInMonth(y: int, m: int): int
  {
    if m == 2 then (if IsLeapYear(y) then 29 else 28)
    else if m == 4 || m == 6 || m == 9 || m == 11 then 30
    else 31
  }

  /** A calendar day that `datetime` can represent. */
  predicate ValidDate(d: Date)
  {
    1 <= d.year <= 9999 && 1 <= d.month <= 12 && 1 <= d.day <= DaysInMonth(d.year, d.month)
  }

  /** Chronological order of days: `date1 < date2` on datetimes at midnight. */
  predicate Before(a: Date, b: Date)
  {
    a.year < b.year
    || (a.year == b.year && (a.month < b.month || (a.month == b.month && a.day < b.day)))
  }

  /** The month field as `%m` matches it before a '-': `1[0-2]|0[1-9]|[1-9]`. */
  function ParseMonth(f: string): (r: Option<int>)
    ensures r.Some? ==> 1 <= r.value <= 12
  {
    if |f| == 1 && '1' <= f[0] <= '9' then Some(Digit(f[0]))
    else if |f| == 2 && f[0] == '0' && '1' <= f[1] <= '9' then Some(Digit(f[1]))
    else if |f| == 2 && f[0] == '1' && '0' <= f[1] <= '2' then Some(10 + Digit(f[1]))
    else None
  }

  /** The day field as `%d` matches it at the end of the string:
      `3[01]|[12]\d|0[1-9]|[1-9]| [1-9]`, with nothing left unconverted. */
  function ParseDay(f: string): (r: Option<int>)
    ensures r.Some? ==> 1 <= r.value <= 31
  {
    if |f| == 1 && '1' <= f[0] <= '9' then Some(Digit(f[0]))
    else if |f| == 2 && f[0] == '3' && '0' <= f[1] <= '1' then Some(30 + Digit(f[1]))
    else if |f| == 2 && '1' <= f[0] <= '2' && IsDigit(f[1]) then Some(10 * Digit(f[0]) + Digit(f[1]))
    else if |f| == 2 && (f[0] == '0' || f[0] == ' ') && '1' <= f[1] <= '9' then Some(Digit(f[1]))
    else None
  }

  /** `strptime(s, "%Y-%m-%d")`: four digits, '-', a month, '-', a day, and
      the fields must name a real day; None where strptime raises ValueError. */
  function ParseDate(s: string): (r: Option<Date>)
    ensures r.Some? ==> ValidDate(r.value)
  {
    if |s| < 5 || !(IsDigit(s[0]) && IsDigit(s[1]) && IsDigit(s[2]) && IsDigit(s[3])) || s[4] != '-' then None
    else
      var year := 1000 * Digit(s[0]) + 100 * Digit(s[1]) + 10 * Digit(s[2]) + Digit(s[3]);
      var rest := s[5..];
      var split := if |rest| >= 2 && rest[1] == '-' then 1 else if |rest| >= 3 && rest[2] == '-' then 2 else 0;
      if split == 0 then None
      else
        match (ParseMonth(rest[..split]), ParseDay(rest[split + 1..]))
        case (Some(m), Some(d)) =>
          if 1 <= year && d <= DaysInMonth(year, m) then Some(Date(year, m, d)) else None
        case _ => None
  }

  /** What `compare_date` returns: a bool, or the message of its ValueError handler. */
  datatype DateComparison = Later(later: bool) | FormatError(message: string)
  {
    /** The truthiness the caller tests (`... and compare_date(...)`). */
    predicate Holds()
    {
      if Later? then later else message != []
    }
  }

  const FormatErrorMessage := "Error a date doesn't have the format AAAA-MM-JJ."

  function CompareDate(date1: string, date2: string): (r: DateComparison)
    ensures r.Later? <==> ParseDate(date1).Some? && ParseDate(date2).Some?
    ensures r.FormatError? ==> r.Holds()
  {
    match (ParseDate(date1), ParseDate(date2))
    case (Some(d1), Some(d2)) => Later(Before(d2, d1))
    case _ => FormatError(FormatErrorMessage)
  }

  /** On well-formed dates `compare_date` is `>` on days. */
  lemma CompareDateOnDates(date1: string, date2: string)
    requires ParseDate(date1).Some? && ParseDate(date2).Some?
    ensures CompareDate(date1, date2).Holds() <==> Before(ParseDate(date2).value, ParseDate(date1).value)
  {
  }

  lemma CompareDateIrreflexive(d: string)
    requires ParseDate(d).Some?
    ensures !CompareDate(d, d).Holds()
  {
  }

  lemma CompareDateAsymmetric(a: string, b: string)
    requires ParseDate(a).Some? && ParseDate(b).Some?
    ensures CompareDate(a, b).Holds() ==> !CompareDate(b, a).Holds()
  {
  }

  lemma CompareDateTransitive(a: string, b: string, c: string)
    requires ParseDate(a).Some? && ParseDate(b).Some? && ParseDate(c).Some?
    requires CompareDate(a, b).Holds() && CompareDate(b, c).Holds()
    ensures CompareDate(a, c).Holds()
  {
  }

  /** Two distinct days are always ordered one way or the other. */
  lemma CompareDateTotal(a: string, b: string)
    requires ParseDate(a).Some? && ParseDate(b).Some? && ParseDate(a) != ParseDate(b)
    ensures CompareDate(a, b).Holds() || CompareDate(b, a).Holds()
  {
  }

  /** A malformed date on either side makes `compare_date` return its
      (non-empty, hence truthy) error message. */
  lemma MalformedDateHolds(a: string, b: string)
    requires ParseDate(a).None? || ParseDate(b).None?
    ensures CompareDate(a, b) == FormatError(FormatErrorMessage)
    ensures CompareDate(a, b).Holds()
  {
  }

  /** The default date of the vote pass is a real day. */
  lemma DefaultDateParses()
    ensures ParseDate("1900-01-01") == Some(Date(1900, 1, 1))
  {
  }

  /** strptime's patterns accept a leap day and unpadded fields. */
  lemma ParseDateAccepts()
    ensures ParseDate("2024-02-29") == Some(Date(2024, 2, 29))
    ensures ParseDate("2024-2-9") == Some(Date(2024, 2, 9))
  {
  }

  /** They reject an impossible day, a month out of range and trailing
      digits. */
  lemma ParseDateRejects()
    ensures ParseDate("2023-02-29") == None
    ensures ParseDate("2024-13-01") == None
    ensures ParseDate("2024-01-011") == None
  {
  }
}
