/**
 * Dates. Date arithmetic (`datetime.today()`, `timedelta(days = k)`) is modelled on integer day numbers;
 * `dt_to_string` (SelectionDataSimulation.py:69-77) is modelled on a calendar triple.
 */
module Dates {
  import opened Wrappers

  /** A day number; adding `k` is adding `timedelta(days = k)`. */
  type Day = int

  datatype CalendarDate = CalendarDate(year: int, month: int, day: int)

  predicate IsLeap(year: int)
  {
    year % 4 == 0 && (year % 100 != 0 || year % 400 == 0)
  }

  function DaysInMonth(year: int, month: int): int
    requires 1 <= month <= 12
  {
    if month == 2 then (if IsLeap(year) then 29 else 28)
    else if month == 4 || month == 6 || month == 9 || month == 11 then 30
    else 31
  }

  /** The dates a Python `datetime` can hold (years MINYEAR = 1 to MAXYEAR = 9999). */
  predicate ValidDate(d: CalendarDate)
  {
    1 <= d.year <= 9999 && 1 <= d.month <= 12 && 1 <= d.day <= DaysInMonth(d.year, d.month)
  }

  function Pow10(n: nat): (r: nat)
    ensures r >= 1
  {
    if n == 0 then 1 else 10 * Pow10(n - 1)
  }

  lemma Pow10Values()
    ensures Pow10(2) == 100 && Pow10(4) == 10000
  {
    assert Pow10(1) == 10;
    assert Pow10(3) == 1000;
  }

  predicate IsDigit(c: char) { '0' <= c <= '9' }

  predicate AllDigits(s: string) { forall i :: 0 <= i < |s| ==> IsDigit(s[i]) }

  /** `n` in decimal, left-padded with zeros to exactly `width` digits, as `strftime` writes %Y, %m and %d. */
  function PadDigits(n: nat, width: nat): (s: string)
    requires n < Pow10(width)
    ensures |s| == width && AllDigits(s)
  {
    if width == 0 then []
    else PadDigits(n / 10, width - 1) + [('0' as int + n % 10) as char]
  }

  /** The number a string of decimal digits denotes. */
  function DigitsValue(s: string): (n: nat)
    requires AllDigits(s)
    ensures n < Pow10(|s|)
  {
    if s == [] then 0 else DigitsValue(s[..|s| - 1]) * 10 + (s[|s| - 1] as int - '0' as int)
  }

  /** Reading back a padded number gives the number. */
  lemma {:induction false} PadDigitsRoundTrip(n: nat, width: nat)
    requires n < Pow10(width)
    ensures DigitsValue(PadDigits(n, width)) == n
  {
    if width > 0 {
      var s := PadDigits(n, width);
      PadDigitsRoundTrip(n / 10, width - 1);
      assert s[..|s| - 1] == PadDigits(n / 10, width - 1);
    }
  }

  lemma DivMod10(a: nat, d: nat)
    requires d < 10
    ensures (a * 10 + d) / 10 == a && (a * 10 + d) % 10 == d
  {
  }

  /** Padding the value of a digit string to its own length gives the string back. */
  lemma {:induction false} DigitsValueRoundTrip(s: string)
    requires AllDigits(s)
    ensures PadDigits(DigitsValue(s), |s|) == s
  {
    if s != [] {
      var init := s[..|s| - 1];
      var last := s[|s| - 1];
      var d := last as int - '0' as int;
      assert AllDigits(init);
      DigitsValueRoundTrip(init);
      var a := DigitsValue(init);
      var n := DigitsValue(s);
      assert n == a * 10 + d;
      DivMod10(a, d);
      assert PadDigits(n, |s|) == PadDigits(a, |init|) + [('0' as int + d) as char];
      assert ('0' as int + d) as char == last;
      assert s == init + [last];
    }
  }

  /** `dt_to_string`: None stays None; a date becomes YYYY-MM-DD with every field zero-padded. */
  function DtToString(d: Option<CalendarDate>): (r: Option<string>)
    requires d.Some? ==> ValidDate(d.value)
    ensures d.None? <==> r.None?
    ensures r.Some? ==> WellFormedDateString(r.value)
  {
    match d
    case None => None
    case Some(dt) =>
      Pow10Values();
      Some(PadDigits(dt.year, 4) + "-" + PadDigits(dt.month, 2) + "-" + PadDigits(dt.day, 2))
  }

  /** Ten characters: four digits, '-', two digits, '-', two digits. */
  predicate WellFormedDateString(s: string)
  {
    |s| == 10 && s[4] == '-' && s[7] == '-' && AllDigits(s[..4]) && AllDigits(s[5..7]) && AllDigits(s[8..])
  }

  /** The inverse reading of a YYYY-MM-DD string. */
  function ParseDate(s: string): Option<CalendarDate>
  {
    if WellFormedDateString(s)
    then Some(CalendarDate(DigitsValue(s[..4]), DigitsValue(s[5..7]), DigitsValue(s[8..])))
    else None
  }

  /** The formatted string determines the date: parsing it gives the date back. */
  lemma DtToStringRoundTrip(d: CalendarDate)
    requires ValidDate(d)
    ensures ParseDate(DtToString(Some(d)).value) == Some(d)
  {
    Pow10Values();
    var s := DtToString(Some(d)).value;
    assert s[..4] == PadDigits(d.year, 4);
    assert s[5..7] == PadDigits(d.month, 2);
    assert s[8..] == PadDigits(d.day, 2);
    PadDigitsRoundTrip(d.year, 4);
    PadDigitsRoundTrip(d.month, 2);
    PadDigitsRoundTrip(d.day, 2);
  }

  /** Every well-formed string that names a valid date is the formatting of that date. */
  lemma DtToStringOnto(s: string)
    requires ParseDate(s).Some? && ValidDate(ParseDate(s).value)
    ensures DtToString(ParseDate(s)) == Some(s)
  {
    Pow10Values();
    var y, m, d := s[..4], s[5..7], s[8..];
    assert WellFormedDateString(s);
    assert ParseDate(s).value == CalendarDate(DigitsValue(y), DigitsValue(m), DigitsValue(d));
    DigitsValueRoundTrip(y);
    DigitsValueRoundTrip(m);
    DigitsValueRoundTrip(d);
    assert s == y + "-" + m + "-" + d;
  }
}
