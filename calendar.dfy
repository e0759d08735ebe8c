/** Months and the "first of the month" date-time strings that the
    time-windowed collections put into their meta queries. */
module Calendar {
  import opened PhpValues

  type Month = m: int | 1 <= m <= 12 witness 1

  /** The year and month that date('Y') and date('m') read off a timestamp. */
  datatype YearMonth = YearMonth(year: int, month: Month)

  /** Months counted from January of year 0: consecutive months differ by one. */
  function MonthIndex(ym: YearMonth): int {
    ym.year * 12 + ym.month - 1
  }

  /** Distinct months have distinct indices. */
  lemma MonthIndexInjective(a: YearMonth, b: YearMonth)
    requires MonthIndex(a) == MonthIndex(b)
    ensures a == b
  {
  }

  /** The month after ym, by the upcoming window's own test: month + 1 while
      the month is below 12, January of the next year otherwise. */
  function NextMonth(ym: YearMonth): (n: YearMonth)
    ensures MonthIndex(n) == MonthIndex(ym) + 1
  {
    if ym.month < 12 then YearMonth(ym.year, ym.month + 1) else YearMonth(ym.year + 1, 1)
  }

  /** sprintf("%02d", m): the month as exactly two digits. */
  function Pad2(m: Month): (s: string)
    ensures |s| == 2 && AllDigits(s) && DigitsValue(s) == m
  {
    var d := NatToString(m);
    DigitsValueOfNatToString(m);
    if m < 10 then
      assert DigitsValue(['0'] + d) == m by {
        assert (['0'] + d)[..1] == ['0'];
      }
      "0" + d
    else
      d
  }

  /** "{year}-{MM}-01 00:00": midnight at the start of the month. */
  function FirstOfMonth(ym: YearMonth): (r: string)
    ensures |r| == |IntToString(ym.year)| + 12
    ensures r[..|IntToString(ym.year)|] == IntToString(ym.year)
    ensures r[|IntToString(ym.year)|] == '-'
    ensures r[|IntToString(ym.year)| + 1..|IntToString(ym.year)| + 3] == Pad2(ym.month)
    ensures r[|IntToString(ym.year)| + 3..] == "-01 00:00"
  {
    IntToString(ym.year) + "-" + Pad2(ym.month) + "-01 00:00"
  }

  /** The year written at the head of FirstOfMonth(ym) reads back as ym.year. */
  lemma YearOfFirstOfMonth(ym: YearMonth)
    ensures LeadingInteger(FirstOfMonth(ym)) == ym.year
    ensures FirstOfMonth(ym)[|IntToString(ym.year)| + 1..|IntToString(ym.year)| + 3] == Pad2(ym.month)
  {
    var y := IntToString(ym.year);
    var rest := "-" + Pad2(ym.month) + "-01 00:00";
    assert FirstOfMonth(ym) == y + rest;
    LeadingIntegerOfDecimal(ym.year, rest);
  }

  /** Two months get the same date-time string only when they are the same
      month, so a month's window bounds never coincide with another's. */
  lemma FirstOfMonthInjective(a: YearMonth, b: YearMonth)
    requires FirstOfMonth(a) == FirstOfMonth(b)
    ensures a == b
  {
    YearOfFirstOfMonth(a);
    YearOfFirstOfMonth(b);
    assert a.year == b.year;
    assert Pad2(a.month) == Pad2(b.month);
  }

  /** January 1st of a year is written "{year}-01-01 00:00". */
  lemma JanuaryFirst(year: int)
    ensures FirstOfMonth(YearMonth(year, 1)) == IntToString(year) + "-01-01 00:00"
  {
    assert Pad2(1) == "01" by {
      assert NatToString(1) == "1";
    }
  }

  /** "2023" is how year 2023 is written. */
  lemma Year2023Digits()
    ensures IntToString(2023) == "2023" && IntToString(2024) == "2024"
  {
    assert NatToString(2) == "2";
    assert NatToString(20) == "20";
    assert NatToString(202) == "202";
  }

  /** Worked example: December 2023 starts at "2023-12-01 00:00" and the
      month after it at "2024-01-01 00:00". */
  lemma DecemberExample()
    ensures FirstOfMonth(YearMonth(2023, 12)) == "2023-12-01 00:00"
    ensures FirstOfMonth(NextMonth(YearMonth(2023, 12))) == "2024-01-01 00:00"
  {
    Year2023Digits();
    assert Pad2(12) == "12" by {
      assert NatToString(1) == "1";
    }
    assert Pad2(1) == "01";
  }
}
