/**
 * `extractDate` (backend/src/services/analyzeTranscript.ts): the first start or end
 * pattern that matches decides the date, read as an ISO date, a numeric day/month/year,
 * a day and a French month name, or a position in a month ("mi", "fin", "début").
 * The current year comes from the clock in the source and is a parameter here.
 */
module DateExtraction {
  import opened Wrappers
  import opened Text
  import opened PatternCascade
  import opened ProjectSummary

  datatype DateKind = Start | End

  /**
   * A date pattern. `summerIdiom` stands for the test `pattern.source.includes("avant
   * l'été")`, which holds of exactly one end pattern ("terminer avant l'été").
   */
  datatype DatePattern = DatePattern(matcher: Matcher, summerIdiom: bool)

  /** The two ordered lists; `type === "start"` selects the first. */
  datatype DatePatterns = DatePatterns(start: seq<DatePattern>, end: seq<DatePattern>)

  /** French month names, with and without accents, to their two-digit number. */
  const Months: map<string, string> := map[
    "janvier" := "01", "février" := "02", "fevrier" := "02", "mars" := "03", "avril" := "04",
    "mai" := "05", "juin" := "06", "juillet" := "07", "août" := "08", "aout" := "08",
    "septembre" := "09", "octobre" := "10", "novembre" := "11", "décembre" := "12", "decembre" := "12"]

  /** A two-digit month number from 01 to 12. */
  predicate IsMonthText(s: string) {
    |s| == 2 && AllDigits(s) && 1 <= DigitsValue(s) <= 12
  }

  lemma MonthsAreMonthTexts()
    ensures forall name :: name in Months ==> IsMonthText(Months[name])
  {
    var numbers := ["01", "02", "03", "04", "05", "06", "07", "08", "09", "10", "11", "12"];
    forall k | 0 <= k < 12
      ensures IsMonthText(numbers[k])
    {
      assert DigitsValue(numbers[k][..1]) == numbers[k][0] as int - '0' as int;
    }
    forall name | name in Months
      ensures IsMonthText(Months[name])
    {
      assert Months[name] in numbers;
    }
  }

  /** `months[name]` for a name in the table. */
  function MonthOf(name: string): (month: string)
    requires name in Months
    ensures IsMonthText(month)
  {
    MonthsAreMonthTexts();
    Months[name]
  }

  /** `/^\d{1,2}$/`. */
  predicate IsOneOrTwoDigits(s: string) {
    1 <= |s| <= 2 && AllDigits(s)
  }

  /** Gregorian leap years, as JavaScript's `Date` counts them. */
  predicate IsLeapYear(y: int) {
    y % 4 == 0 && (y % 100 != 0 || y % 400 == 0)
  }

  function DaysInMonth(y: int, month: int): (d: int)
    requires 1 <= month <= 12
    ensures 28 <= d <= 31
    ensures month == 2 ==> (d == 29 <==> IsLeapYear(y))
  {
    if month == 2 then (if IsLeapYear(y) then 29 else 28)
    else if month == 4 || month == 6 || month == 9 || month == 11 then 30
    else 31
  }

  /** The year `new Date(y, …)` uses: two-digit years 0 to 99 mean 1900 to 1999. */
  function JsYear(y: int): int {
    if 0 <= y <= 99 then 1900 + y else y
  }

  /**
   * `new Date(parseInt(year), parseInt(month), 0).getDate()`, printed and padded: the
   * last day of the month, or "NaN" when the year does not parse.
   */
  function LastDayText(year: string, month: int): string
    requires 1 <= month <= 12
  {
    match ParseInt(year)
    case None => "NaN"
    case Some(y) => PadStart2(NatToString(DaysInMonth(JsYear(y), month)))
  }

  /** `match[3] || nextYear.toString()`. */
  function YearOr(capture: string, nextYear: int): string {
    if capture != "" then capture else IntToString(nextYear)
  }

  /** The day a position word stands for: "mi"/"milieu" the 15th, "fin" the last day, else the 1st. */
  function PositionDay(position: string, year: string, month: string): string
    requires IsMonthText(month)
  {
    if position == "mi" || position == "milieu" then "15"
    else if position == "fin" then LastDayText(year, DigitsValue(month))
    else "01"
  }

  /** A month name, in any case, that the table knows. */
  predicate NamesMonth(month: string) {
    month != "" && Lower(month) in Months
  }

  /** The numeric form: day and month of one or two digits, and a year. */
  predicate IsNumericForm(day: string, month: string, year: string) {
    day != "" && month != "" && year != "" && IsOneOrTwoDigits(day) && IsOneOrTwoDigits(month)
  }

  /** `${year}-${month}-${day}` for the numeric form; a two-digit year is in the 2000s. */
  function NumericDateText(day: string, month: string, year: string): string {
    (if |year| == 2 then "20" + year else year) + "-" + PadStart2(month) + "-" + PadStart2(day)
  }

  /** A day number and a month name. */
  predicate IsDayOfNamedMonth(day: string, month: string) {
    day != "" && IsOneOrTwoDigits(day) && NamesMonth(month)
  }

  function DayOfNamedMonthText(day: string, month: string, year: string, nextYear: int): string
    requires NamesMonth(month)
  {
    YearOr(year, nextYear) + "-" + MonthOf(Lower(month)) + "-" + PadStart2(day)
  }

  /** "mi" and a month name: the 15th. */
  function MidMonthText(month: string, year: string, nextYear: int): string
    requires NamesMonth(month)
  {
    YearOr(year, nextYear) + "-" + MonthOf(Lower(month)) + "-15"
  }

  /** The position word, lower-cased; without one, "fin" for an end date and "début" for a start. */
  function Position(day: string, kind: DateKind): string {
    if Lower(day) != "" then Lower(day) else if kind == End then "fin" else "début"
  }

  /** A position in a named month. */
  function PositionDateText(day: string, month: string, year: string, kind: DateKind, nextYear: int): string
    requires NamesMonth(month)
  {
    var y := YearOr(year, nextYear);
    var mm := MonthOf(Lower(month));
    y + "-" + mm + "-" + PositionDay(Position(day, kind), y, mm)
  }

  /** The forms with a month name: a day number, "mi", or a position word. */
  function NamedMonthForms(day: string, month: string, year: string, kind: DateKind, nextYear: int): Option<string> {
    if IsDayOfNamedMonth(day, month) then Some(DayOfNamedMonthText(day, month, year, nextYear))
    else if day == "mi" && NamesMonth(month) then Some(MidMonthText(month, year, nextYear))
    else if NamesMonth(month) then Some(PositionDateText(day, month, year, kind, nextYear))
    else None
  }

  /** A numeric year of two or four digits, the lengths `${year}-…` turns into a four-digit year. */
  predicate HasNumericYearLength(year: string) {
    |year| == 2 || |year| == 4
  }

  /**
   * The date forms as the source writes them, tried in its order on the three groups. The
   * numeric form takes any year the pattern captures, so a three-digit year, which
   * `(\d{2,4})` allows, is printed as it is (see `ThreeDigitYearAsWritten`).
   */
  function FromGroupsAsWritten(day: string, month: string, year: string, kind: DateKind, nextYear: int): Option<string> {
    if day != "" && IsDateShape(day) then Some(day)
    else if IsNumericForm(day, month, year) then Some(NumericDateText(day, month, year))
    else NamedMonthForms(day, month, year, kind, nextYear)
  }

  /**
   * The date forms as intended: the same, except that the numeric form is taken only with
   * a two- or four-digit year, so that every date returned is YYYY-MM-DD.
   */
  function FromGroups(day: string, month: string, year: string, kind: DateKind, nextYear: int): Option<string> {
    if day != "" && IsDateShape(day) then Some(day)
    else if IsNumericForm(day, month, year) && HasNumericYearLength(year) then Some(NumericDateText(day, month, year))
    else NamedMonthForms(day, month, year, kind, nextYear)
  }

  /** What one matching pattern returns: the summer idiom first, then the date forms. */
  function DateCandidate(p: DatePattern, m: Option<Match>, kind: DateKind, currentYear: int): Option<string> {
    if m.None? then None
    else if p.summerIdiom then Some(IntToString(currentYear + 1) + "-06-30")
    else FromGroups(Capture(m.value, 1), Capture(m.value, 2), Capture(m.value, 3), kind, currentYear + 1)
  }

  function PatternsFor(patterns: DatePatterns, kind: DateKind): seq<DatePattern> {
    if kind == Start then patterns.start else patterns.end
  }

  /** The candidates of the selected patterns, in order. */
  function DateCandidates(text: string, kind: DateKind, patterns: DatePatterns, currentYear: int)
    : (cs: seq<Option<string>>)
    ensures |cs| == |PatternsFor(patterns, kind)|
    ensures forall i :: 0 <= i < |cs| ==>
      cs[i] == DateCandidate(PatternsFor(patterns, kind)[i], PatternsFor(patterns, kind)[i].matcher(text), kind, currentYear)
  {
    var ps := PatternsFor(patterns, kind);
    seq(|ps|, i requires 0 <= i < |ps| => DateCandidate(ps[i], ps[i].matcher(text), kind, currentYear))
  }

  /** The body of `extractDate`'s loop for one pattern, with its early returns. */
  method DateFromMatch(p: DatePattern, m: Option<Match>, kind: DateKind, currentYear: int)
    returns (date: Option<string>)
    ensures date == DateCandidate(p, m, kind, currentYear)
  {
    if m.None? {
      return None;
    }
    var nextYear := currentYear + 1;
    if p.summerIdiom {
      return Some(IntToString(nextYear) + "-06-30");
    }
    date := DateFromGroups(Capture(m.value, 1), Capture(m.value, 2), Capture(m.value, 3), kind, nextYear);
  }

  /** The date forms of the loop body, tried in order on `match[1]`, `match[2]` and `match[3]`. */
  method DateFromGroups(match1: string, match2: string, match3: string, kind: DateKind, nextYear: int)
    returns (date: Option<string>)
    ensures date == FromGroups(match1, match2, match3, kind, nextYear)
  {
    if match1 != "" && IsDateShape(match1) {
      return Some(match1);
    }
    if match1 != "" && match2 != "" && match3 != "" && IsOneOrTwoDigits(match1) && IsOneOrTwoDigits(match2)
       && (|match3| == 2 || |match3| == 4)
    {
      var year := match3;
      if |year| == 2 {
        year := "20" + year;
      }
      return Some(year + "-" + PadStart2(match2) + "-" + PadStart2(match1));
    }
    date := NamedMonthDate(match1, match2, match3, kind, nextYear);
  }

  /** The forms with a month name, in the source's order. */
  method NamedMonthDate(match1: string, match2: string, match3: string, kind: DateKind, nextYear: int)
    returns (date: Option<string>)
    ensures date == NamedMonthForms(match1, match2, match3, kind, nextYear)
  {
    if match1 != "" && IsOneOrTwoDigits(match1) && match2 != "" && Lower(match2) in Months {
      return Some(YearOr(match3, nextYear) + "-" + MonthOf(Lower(match2)) + "-" + PadStart2(match1));
    }
    if match1 == "mi" && match2 != "" && Lower(match2) in Months {
      return Some(YearOr(match3, nextYear) + "-" + MonthOf(Lower(match2)) + "-15");
    }
    if match2 != "" && Lower(match2) in Months {
      var d := PositionDate(match1, match2, match3, kind, nextYear);
      return Some(d);
    }
    return None;
  }

  /** The "début/mi/fin mois" form: the day starts at "01" and is moved by the position word. */
  method PositionDate(match1: string, match2: string, match3: string, kind: DateKind, nextYear: int)
    returns (date: string)
    requires NamesMonth(match2)
    ensures date == PositionDateText(match1, match2, match3, kind, nextYear)
  {
    var position := if Lower(match1) != "" then Lower(match1) else (if kind == End then "fin" else "début");
    var month := MonthOf(Lower(match2));
    var year := YearOr(match3, nextYear);
    var day := "01";
    if position == "mi" || position == "milieu" {
      day := "15";
    } else if position == "fin" {
      day := LastDayText(year, DigitsValue(month));
    }
    date := year + "-" + month + "-" + day;
  }

  /**
   * `extractDate`: the first date produced by the start or end patterns, in order; null
   * when none produces one.
   */
  method ExtractDate(text: string, kind: DateKind, patterns: DatePatterns, currentYear: int)
    returns (date: Option<string>)
    ensures date == FirstSome(DateCandidates(text, kind, patterns, currentYear))
    ensures date.None? <==> forall i :: 0 <= i < |PatternsFor(patterns, kind)| ==>
      DateCandidate(PatternsFor(patterns, kind)[i], PatternsFor(patterns, kind)[i].matcher(text), kind, currentYear).None?
  {
    var ps := if kind == Start then patterns.start else patterns.end;
    ghost var candidates := DateCandidates(text, kind, patterns, currentYear);
    var i := 0;
    while i < |ps|
      invariant ps == PatternsFor(patterns, kind)
      invariant 0 <= i <= |ps|
      invariant forall j :: 0 <= j < i ==> candidates[j].None?
    {
      date := DateFromMatch(ps[i], ps[i].matcher(text), kind, currentYear);
      assert candidates[i] == date;
      if date.Some? {
        FirstSomeAt(candidates, i);
        return;
      }
      NoneSoFar(candidates, i);
      i := i + 1;
    }
    date := None;
    FirstSomeSpec(candidates);
  }

  // ---------------------------------------------------------------------------
  // Properties of the date forms
  // ---------------------------------------------------------------------------

  /** A four-digit year prints as four digits. */
  lemma FourDigitYearText(y: int)
    requires 1000 <= y <= 9999
    ensures |IntToString(y)| == 4 && AllDigits(IntToString(y))
  {
    assert Pow10(3) == 1000 && Pow10(4) == 10000;
    NatToStringLength(y, 4);
    NatToStringMinLength(y, 3);
  }

  /** A day of the month, 1 to 99, printed and padded, is two digits. */
  lemma DayTextShape(n: nat)
    requires 1 <= n <= 99
    ensures |PadStart2(NatToString(n))| == 2 && AllDigits(PadStart2(NatToString(n)))
  {
    assert Pow10(2) == 100;
    NatToStringLength(n, 2);
  }

  /** For a year in digits, "fin" gives the number of days of the month, as two digits. */
  lemma LastDayOfMonth(year: string, month: int)
    requires |year| > 0 && AllDigits(year) && 1 <= month <= 12
    ensures LastDayText(year, month) == PadStart2(NatToString(DaysInMonth(JsYear(DigitsValue(year)), month)))
    ensures |LastDayText(year, month)| == 2 && AllDigits(LastDayText(year, month))
  {
    ParseIntOfDigits(year);
    DayTextShape(DaysInMonth(JsYear(DigitsValue(year)), month));
  }

  lemma DayNumbersPrint()
    ensures NatToString(28) == "28" && NatToString(29) == "29"
  {
    assert NatToString(2) == "2";
  }

  /** The end of February is the 29th in leap years and the 28th otherwise. */
  lemma EndOfFebruary(year: string)
    requires |year| > 0 && AllDigits(year) && DigitsValue(year) >= 100
    ensures LastDayText(year, 2) == if IsLeapYear(DigitsValue(year)) then "29" else "28"
  {
    LastDayOfMonth(year, 2);
    DayNumbersPrint();
  }

  // Steps of the examples below.
  lemma YearValue2024()
    ensures AllDigits("2024") && DigitsValue("2024") == 2024
  {
    assert "2024"[..3] == "202";
    assert "202"[..2] == "20";
    assert "20"[..1] == "2";
  }

  lemma YearValue2025()
    ensures AllDigits("2025") && DigitsValue("2025") == 2025
  {
    assert "2025"[..3] == "202";
    assert "202"[..2] == "20";
    assert "20"[..1] == "2";
  }

  /** Example of `EndOfFebruary`: 2024 is a leap year, so February ends on the 29th. */
  lemma EndOfFebruary2024()
    ensures LastDayText("2024", 2) == "29"
  {
    YearValue2024();
    assert IsLeapYear(2024);
    EndOfFebruary("2024");
  }

  /** Example of `EndOfFebruary`: 2025 is not, so February ends on the 28th. */
  lemma EndOfFebruary2025()
    ensures LastDayText("2025", 2) == "28"
  {
    YearValue2025();
    assert !IsLeapYear(2025);
    EndOfFebruary("2025");
  }

  /** Every month name is at least three letters long, so it never reads as a number. */
  lemma MonthNamesAreLong()
    ensures forall name :: name in Months ==> |name| >= 3
  {
  }

  /** A month name is not a one- or two-digit number. */
  lemma MonthNameIsNotNumber(month: string)
    requires NamesMonth(month)
    ensures !IsOneOrTwoDigits(month)
  {
    MonthNamesAreLong();
  }

  /** `y-mm-dd` from a four-digit year and two-digit month and day has the ISO date shape. */
  lemma ComposedDateShape(year: string, month: string, day: string)
    requires |year| == 4 && AllDigits(year)
    requires |month| == 2 && AllDigits(month)
    requires |day| == 2 && AllDigits(day)
    ensures IsDateShape(year + "-" + month + "-" + day)
  {
    var d := year + "-" + month + "-" + day;
    assert d[..4] == year;
    assert d[5..7] == month;
    assert d[8..] == day;
  }

  /** A four-digit year text: the captured one, or next year printed. */
  predicate IsFourDigitYear(year: string) {
    |year| == 4 && AllDigits(year)
  }

  lemma YearOrShape(year: string, nextYear: int)
    requires year == "" || IsFourDigitYear(year)
    requires 1000 <= nextYear <= 9999
    ensures IsFourDigitYear(YearOr(year, nextYear))
  {
    FourDigitYearText(nextYear);
  }

  lemma PaddedShape(s: string)
    requires IsOneOrTwoDigits(s)
    ensures |PadStart2(s)| == 2 && AllDigits(PadStart2(s))
  {
  }

  lemma NumericDateShape(day: string, month: string, year: string)
    requires IsNumericForm(day, month, year) && AllDigits(year) && (|year| == 2 || |year| == 4)
    ensures IsDateShape(NumericDateText(day, month, year))
  {
    var y := if |year| == 2 then "20" + year else year;
    assert |y| == 4 && AllDigits(y) by {
      if |year| == 2 {
        assert y == ['2', '0', year[0], year[1]];
      }
    }
    PaddedShape(day);
    PaddedShape(month);
    assert NumericDateText(day, month, year) == y + "-" + PadStart2(month) + "-" + PadStart2(day);
    ComposedDateShape(y, PadStart2(month), PadStart2(day));
  }

  lemma DayOfNamedMonthShape(day: string, month: string, year: string, nextYear: int)
    requires IsDayOfNamedMonth(day, month)
    requires year == "" || IsFourDigitYear(year)
    requires 1000 <= nextYear <= 9999
    ensures IsDateShape(DayOfNamedMonthText(day, month, year, nextYear))
  {
    YearOrShape(year, nextYear);
    PaddedShape(day);
    ComposedDateShape(YearOr(year, nextYear), MonthOf(Lower(month)), PadStart2(day));
  }

  lemma MidMonthShape(month: string, year: string, nextYear: int)
    requires NamesMonth(month)
    requires year == "" || IsFourDigitYear(year)
    requires 1000 <= nextYear <= 9999
    ensures IsDateShape(MidMonthText(month, year, nextYear))
  {
    YearOrShape(year, nextYear);
    var prefix := YearOr(year, nextYear) + "-" + MonthOf(Lower(month));
    assert prefix + "-15" == prefix + "-" + "15";
    ComposedDateShape(YearOr(year, nextYear), MonthOf(Lower(month)), "15");
  }

  lemma PositionDateShape(day: string, month: string, year: string, kind: DateKind, nextYear: int)
    requires NamesMonth(month)
    requires year == "" || IsFourDigitYear(year)
    requires 1000 <= nextYear <= 9999
    ensures IsDateShape(PositionDateText(day, month, year, kind, nextYear))
  {
    var y := YearOr(year, nextYear);
    var mm := MonthOf(Lower(month));
    YearOrShape(year, nextYear);
    if Position(day, kind) == "fin" {
      LastDayOfMonth(y, DigitsValue(mm));
    }
    ComposedDateShape(y, mm, PositionDay(Position(day, kind), y, mm));
  }

  /**
   * The year captures the patterns can produce: none; four digits, from `(\d{4})?`; or two
   * to four digits in the numeric form, from `(\d{2,4})` after a day and a month in digits.
   */
  predicate PatternYear(day: string, month: string, year: string) {
    year == "" || IsFourDigitYear(year) || (AllDigits(year) && 2 <= |year| <= 4 && IsNumericForm(day, month, year))
  }

  /**
   * Every date the date forms return has the YYYY-MM-DD shape the summary schema expects,
   * for every year capture the patterns can produce, as long as next year has four digits.
   */
  lemma FromGroupsShape(day: string, month: string, year: string, kind: DateKind, nextYear: int)
    requires 1000 <= nextYear <= 9999
    requires PatternYear(day, month, year)
    ensures FromGroups(day, month, year, kind, nextYear).Some? ==> IsDateShape(FromGroups(day, month, year, kind, nextYear).value)
  {
    if day != "" && IsDateShape(day) {
    } else if IsNumericForm(day, month, year) && HasNumericYearLength(year) {
      NumericDateShape(day, month, year);
    } else if IsDayOfNamedMonth(day, month) {
      MonthNameIsNotNumber(month);
      DayOfNamedMonthShape(day, month, year, nextYear);
    } else if day == "mi" && NamesMonth(month) {
      MonthNameIsNotNumber(month);
      MidMonthShape(month, year, nextYear);
    } else if NamesMonth(month) {
      MonthNameIsNotNumber(month);
      PositionDateShape(day, month, year, kind, nextYear);
    }
  }

  /**
   * As written, a numeric date with a three-digit year, such as "termine le 15/03/202", is
   * returned as "202-03-15", which is not a YYYY-MM-DD date.
   */
  lemma ThreeDigitYearAsWritten(kind: DateKind)
    ensures PatternYear("15", "03", "202")
    ensures FromGroupsAsWritten("15", "03", "202", kind, 2026) == Some("202-03-15")
    ensures !IsDateShape("202-03-15")
  {
    assert PadStart2("03") == "03" && PadStart2("15") == "15";
    assert "202" + "-" + "03" + "-" + "15" == "202-03-15";
  }

  /** The correction: such a year makes the numeric form yield nothing; everything else is unchanged. */
  lemma CorrectionOnlyDropsOddYears(day: string, month: string, year: string, kind: DateKind, nextYear: int)
    ensures IsNumericForm(day, month, year) && !HasNumericYearLength(year) ==>
      FromGroups(day, month, year, kind, nextYear).None?
    ensures !(IsNumericForm(day, month, year) && !HasNumericYearLength(year)) ==>
      FromGroups(day, month, year, kind, nextYear) == FromGroupsAsWritten(day, month, year, kind, nextYear)
  {
    if IsNumericForm(day, month, year) {
      assert !IsDateShape(day);
      if NamesMonth(month) {
        MonthNameIsNotNumber(month);
      }
    }
  }

  lemma SummerDateShape(nextYear: int)
    requires 1000 <= nextYear <= 9999
    ensures IsDateShape(IntToString(nextYear) + "-06-30")
  {
    var y := IntToString(nextYear);
    FourDigitYearText(nextYear);
    var d := y + "-06-30";
    assert d[..4] == y;
    assert d[5..7] == "06";
    assert d[8..] == "30";
  }

  /** The same for a whole pattern: the summer date has the shape too. */
  lemma DateCandidateShape(p: DatePattern, m: Option<Match>, kind: DateKind, currentYear: int)
    requires 999 <= currentYear <= 9998
    requires m.Some? ==> PatternYear(Capture(m.value, 1), Capture(m.value, 2), Capture(m.value, 3))
    ensures DateCandidate(p, m, kind, currentYear).Some? ==> IsDateShape(DateCandidate(p, m, kind, currentYear).value)
  {
    if m.Some? {
      if p.summerIdiom {
        SummerDateShape(currentYear + 1);
      } else {
        FromGroupsShape(Capture(m.value, 1), Capture(m.value, 2), Capture(m.value, 3), kind, currentYear + 1);
      }
    }
  }

  /** "avant l'été" always means the 30th of June of next year, whatever was captured. */
  lemma BeforeSummer(p: DatePattern, m: Match, kind: DateKind, currentYear: int)
    requires p.summerIdiom
    ensures DateCandidate(p, Some(m), kind, currentYear) == Some(IntToString(currentYear + 1) + "-06-30")
  {
  }

  /** An ISO date in the first group is returned verbatim. */
  lemma IsoDateVerbatim(p: DatePattern, m: Match, kind: DateKind, currentYear: int)
    requires !p.summerIdiom && IsDateShape(Capture(m, 1))
    ensures DateCandidate(p, Some(m), kind, currentYear) == Some(Capture(m, 1))
  {
  }

  /** Day, month and year in digits: a two-digit year is in the 2000s, day and month are zero-padded. */
  lemma NumericDate(p: DatePattern, m: Match, kind: DateKind, currentYear: int)
    requires !p.summerIdiom && IsNumericForm(Capture(m, 1), Capture(m, 2), Capture(m, 3))
    requires HasNumericYearLength(Capture(m, 3))
    ensures var year := Capture(m, 3);
      DateCandidate(p, Some(m), kind, currentYear)
        == Some((if |year| == 2 then "20" + year else year) + "-" + PadStart2(Capture(m, 2)) + "-" + PadStart2(Capture(m, 1)))
  {
  }

  /** A day number and a month name: that day of that month, in the captured year or else next year. */
  lemma DayOfNamedMonth(p: DatePattern, m: Match, kind: DateKind, currentYear: int)
    requires !p.summerIdiom && IsOneOrTwoDigits(Capture(m, 1)) && NamesMonth(Capture(m, 2))
    ensures DateCandidate(p, Some(m), kind, currentYear)
         == Some(YearOr(Capture(m, 3), currentYear + 1) + "-" + MonthOf(Lower(Capture(m, 2))) + "-" + PadStart2(Capture(m, 1)))
  {
    MonthNameIsNotNumber(Capture(m, 2));
  }

  /** A word that does not start with a digit is neither a number nor an ISO date. */
  lemma WordIsNotNumber(word: string, lower: string)
    requires Lower(word) == lower && |lower| >= 2 && !IsDigit(lower[0])
    ensures !IsOneOrTwoDigits(word) && !IsDateShape(word)
  {
    assert Lower(word)[0] == LowerChar(word[0]);
    assert !IsDigit(word[0]);
  }

  /**
   * A position and a month name: "mi" or "milieu" (any case) is the 15th, "fin" the last
   * day of the month, "début" the 1st; with no position, an end date is the last day and
   * a start date the 1st. The year is the captured one or else next year.
   */
  lemma PositionInNamedMonth(p: DatePattern, m: Match, kind: DateKind, currentYear: int)
    requires !p.summerIdiom && NamesMonth(Capture(m, 2))
    requires var position := Lower(Capture(m, 1));
      position == "" || position == "mi" || position == "milieu" || position == "fin" || position == "début"
    ensures var position := Lower(Capture(m, 1));
      var year := YearOr(Capture(m, 3), currentYear + 1);
      var month := MonthOf(Lower(Capture(m, 2)));
      DateCandidate(p, Some(m), kind, currentYear)
        == Some(year + "-" + month + "-"
                + if position == "mi" || position == "milieu" then "15"
                  else if position == "fin" || (position == "" && kind == End) then LastDayText(year, DigitsValue(month))
                  else "01")
  {
    var day, month := Capture(m, 1), Capture(m, 2);
    var position := Lower(day);
    MonthNameIsNotNumber(month);
    if position != "" {
      WordIsNotNumber(day, position);
      if day == "mi" {
        var prefix := YearOr(Capture(m, 3), currentYear + 1) + "-" + MonthOf(Lower(month));
        assert prefix + "-15" == prefix + "-" + "15";
      }
    } else {
      assert day == "";
    }
  }
}
