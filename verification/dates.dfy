/** The date conversion of the Jira field preparation: a text in the form
    month/day/year, as `strptime(text, "%m/%d/%Y")` accepts it, rewritten as
    year-month-day; any other text is kept as it is. Digits are ASCII. */
module Dates {
  import opened Wrappers
  import opened Text

  datatype Date = Date(year: nat, month: nat, day: nat)

  predicate IsLeap(y: nat) {
    y % 4 == 0 && (y % 100 != 0 || y % 400 == 0)
  }

  function DaysIn(month: nat, year: nat): nat {
    if month == 2 then (if IsLeap(year) then 29 else 28)
    else if month == 4 || month == 6 || month == 9 || month == 11 then 30
    else 31
  }

  /** The dates `datetime` accepts. */
  predicate ValidDate(d: Date) {
    1 <= d.year <= 9999 && 1 <= d.month <= 12 && 1 <= d.day <= DaysIn(d.month, d.year)
  }

  predicate AllDigits(s: string) {
    forall i :: 0 <= i < |s| ==> IsDigit(s[i])
  }

  /** `%m`: one or two digits naming a month. */
  function MonthPart(p: string): (r: Option<nat>)
    ensures r.Some? ==> 1 <= r.value <= 12
  {
    if 1 <= |p| <= 2 && AllDigits(p) && 1 <= DigitsValue(p) <= 12 then Some(DigitsValue(p)) else None
  }

  /** `%d`: one or two digits for a day from 1 to 31, or a space and a
      non-zero digit. */
  function DayPart(p: string): (r: Option<nat>)
    ensures r.Some? ==> 1 <= r.value <= 31
  {
    if 1 <= |p| <= 2 && AllDigits(p) && 1 <= DigitsValue(p) <= 31 then Some(DigitsValue(p))
    else if |p| == 2 && p[0] == ' ' && '1' <= p[1] <= '9' then Some(p[1] as int - '0' as int)
    else None
  }

  /** `%Y`: exactly four digits. */
  function YearPart(p: string): Option<nat> {
    if |p| == 4 && AllDigits(p) then Some(DigitsValue(p)) else None
  }

  /** `strptime(s, "%m/%d/%Y")`: the date, or `None` where it raises (the
      text does not match or the date does not exist). */
  function ParseMdy(s: string): (r: Option<Date>)
    ensures r.Some? ==> ValidDate(r.value)
  {
    var parts := SplitChar(s, '/');
    if |parts| != 3 then None
    else
      match (MonthPart(parts[0]), DayPart(parts[1]), YearPart(parts[2]))
      case (Some(m), Some(d), Some(y)) =>
        if ValidDate(Date(y, m, d)) then Some(Date(y, m, d)) else None
      case _ => None
  }

  /** Two digits, with a leading zero below ten. */
  function Pad2(n: nat): (r: string)
    requires n < 100
    ensures |r| == 2 && AllDigits(r) && DigitsValue(r) == n
  {
    var r := [DigitChar(n / 10), DigitChar(n % 10)];
    assert r[..1] == [DigitChar(n / 10)] && r[..1][..0] == [];
    assert DigitsValue(r[..1]) == n / 10;
    assert DigitsValue(r) == DigitsValue(r[..1]) * 10 + n % 10;
    r
  }

  /** `strftime("%Y-%m-%d")`; the year has no leading zeros, as the C
      library renders `%Y`. */
  function IsoDate(d: Date): string
    requires ValidDate(d)
  {
    NatToString(d.year) + "-" + Pad2(d.month) + "-" + Pad2(d.day)
  }

  /** The conversion applied to a date field's text. */
  function ConvertDate(s: string): (r: string)
    ensures ParseMdy(s).None? ==> r == s
  {
    match ParseMdy(s)
    case Some(d) => IsoDate(d)
    case None => s
  }

  /** The usual rendering of a date as month/day/year. */
  function MdyText(d: Date): string {
    NatToString(d.month) + "/" + NatToString(d.day) + "/" + NatToString(d.year)
  }

  function Pow10(k: nat): nat {
    if k == 0 then 1 else 10 * Pow10(k - 1)
  }

  /** A number with `k` digits renders as `k` characters. */
  lemma {:induction false} NatToStringLength(n: nat, k: nat)
    requires 1 <= k && (k == 1 || Pow10(k - 1) <= n) && n < Pow10(k)
    ensures |NatToString(n)| == k
  {
    if k > 1 {
      if k == 2 {
        assert n / 10 < 10;
      } else {
        NatToStringLength(n / 10, k - 1);
      }
    }
  }

  /** The three pieces between the slashes. */
  lemma SplitThree(a: string, b: string, c: string)
    requires '/' !in a && '/' !in b && '/' !in c
    ensures SplitChar(a + "/" + b + "/" + c, '/') == [a, b, c]
  {
    assert Join([b, c], "/") == b + "/" + c;
    assert Join([c], "/") == c;
    SplitJoin(b, [c], '/');
    SplitNone(c, '/');
    assert a + "/" + b + "/" + c == a + ['/'] + Join([b, c], "/");
    SplitJoin(a, [b, c], '/');
  }

  /** A rendered number has no slash and reads back as itself. */
  lemma Rendered(n: nat)
    ensures '/' !in NatToString(n) && AllDigits(NatToString(n)) && DigitsValue(NatToString(n)) == n
  {
    NatToStringValue(n);
  }

  /** Every date with a four-digit year, written month/day/year, is parsed
      back to itself. */
  lemma ParseMdyRoundTrip(d: Date)
    requires ValidDate(d) && d.year >= 1000
    ensures ParseMdy(MdyText(d)) == Some(d)
  {
    Rendered(d.month);
    Rendered(d.day);
    Rendered(d.year);
    NatToStringLength(d.month, if d.month < 10 then 1 else 2);
    NatToStringLength(d.day, if d.day < 10 then 1 else 2);
    NatToStringLength(d.year, 4);
    SplitThree(NatToString(d.month), NatToString(d.day), NatToString(d.year));
  }

  /** So such a text converts to the year-month-day form of its date. */
  lemma ConvertRoundTrip(d: Date)
    requires ValidDate(d) && d.year >= 1000
    ensures ConvertDate(MdyText(d)) == IsoDate(d)
  {
    ParseMdyRoundTrip(d);
  }
}
