/**
 * The date handling of main.py: `datetime.strptime(s, "%d/%m/%Y")` and the renderings
 * `strftime("%Y-%m-%d")` and `strftime("%Y-%m")`.
 */
module Calendar {
  import opened Wrappers
  import opened Strings

  datatype Date = Date(year: int, month: int, day: int)

  predicate IsLeapYear(y: int) {
    y % 4 == 0 && (y % 100 != 0 || y % 400 == 0)
  }

  function DaysInMonth(y: int, m: int): (n: int)
    requires 1 <= m <= 12
    ensures 28 <= n <= 31
    ensures n == 31 <==> m in {1, 3, 5, 7, 8, 10, 12}
    ensures n == 30 <==> m in {4, 6, 9, 11}
    ensures m == 2 ==> (n == 29 <==> IsLeapYear(y))
  {
    if m == 2 then (if IsLeapYear(y) then 29 else 28)
    else if m == 4 || m == 6 || m == 9 || m == 11 then 30
    else 31
  }

  /** A date `datetime` accepts: years 1 to 9999, a real day of a real month. */
  predicate ValidDate(d: Date) {
    1 <= d.year <= 9999 && 1 <= d.month <= 12 && 1 <= d.day <= DaysInMonth(d.year, d.month)
  }

  /** A number read by a `strptime` directive and the count of characters it consumed. */
  datatype Token = Token(value: int, width: nat)

  /** `x` is one digit, two digits, or a space and a digit, and reads as the number `v`. */
  predicate Numeral(x: string, v: int) {
    (|x| == 1 && IsDigit(x[0]) && v == DigitValue(x[0]))
    || (|x| == 2 && x[0] == ' ' && IsDigit(x[1]) && v == DigitValue(x[1]))
    || (|x| == 2 && IsDigit(x[0]) && IsDigit(x[1]) && v == 10 * DigitValue(x[0]) + DigitValue(x[1]))
  }

  /**
   * `%d` is the regex `3[01]|[12]\d|0[1-9]|[1-9]| [1-9]`. Whenever a two-character alternative
   * matches, a shorter one would leave a digit where the `/` must follow, so trying the
   * alternatives in order and requiring the `/` afterwards is the same as this choice.
   */
  function DayField(s: string): (t: Option<Token>)
    ensures t.Some? ==> 1 <= t.value.value <= 31 && 1 <= t.value.width <= 2 <= |s| + 1
    ensures t.Some? ==> t.value.width <= |s| && Numeral(s[..t.value.width], t.value.value)
    ensures t.Some? <==> (|s| >= 1 && '1' <= s[0] <= '9') || (|s| >= 2 && (s[0] == '0' || s[0] == ' ') && '1' <= s[1] <= '9')
    ensures t.Some? ==>
              (t.value.width == 2 <==>
                 (|s| >= 2 && ((s[0] == ' ' && '1' <= s[1] <= '9')
                               || (IsDigit(s[0]) && IsDigit(s[1]) && 1 <= 10 * DigitValue(s[0]) + DigitValue(s[1]) <= 31))))
  {
    if |s| >= 2 && IsDigit(s[1])
       && ((s[0] == '3' && (s[1] == '0' || s[1] == '1'))
           || ((s[0] == '1' || s[0] == '2'))
           || (s[0] == '0' && s[1] != '0'))
    then Some(Token(10 * DigitValue(s[0]) + DigitValue(s[1]), 2))
    else if |s| >= 1 && IsDigit(s[0]) && s[0] != '0' then Some(Token(DigitValue(s[0]), 1))
    else if |s| >= 2 && s[0] == ' ' && IsDigit(s[1]) && s[1] != '0' then Some(Token(DigitValue(s[1]), 2))
    else None
  }

  /** `%m` is the regex `1[0-2]|0[1-9]|[1-9]`; the same remark as for `%d` applies. */
  function MonthField(s: string): (t: Option<Token>)
    ensures t.Some? ==> 1 <= t.value.value <= 12 && 1 <= t.value.width <= 2
    ensures t.Some? ==> t.value.width <= |s| && s[0] != ' ' && Numeral(s[..t.value.width], t.value.value)
    ensures t.Some? <==> (|s| >= 1 && '1' <= s[0] <= '9') || (|s| >= 2 && s[0] == '0' && '1' <= s[1] <= '9')
    ensures t.Some? ==>
              (t.value.width == 2 <==>
                 (|s| >= 2 && IsDigit(s[0]) && IsDigit(s[1]) && 1 <= 10 * DigitValue(s[0]) + DigitValue(s[1]) <= 12))
  {
    if |s| >= 2 && ((s[0] == '1' && '0' <= s[1] <= '2') || (s[0] == '0' && IsDigit(s[1]) && s[1] != '0'))
    then Some(Token(10 * DigitValue(s[0]) + DigitValue(s[1]), 2))
    else if |s| >= 1 && IsDigit(s[0]) && s[0] != '0' then Some(Token(DigitValue(s[0]), 1))
    else None
  }

  predicate AllDigits(s: string) {
    forall i :: 0 <= i < |s| ==> IsDigit(s[i])
  }

  /**
   * `datetime.strptime(s, "%d/%m/%Y")`: the whole string must be day, `/`, month, `/` and
   * exactly four digits of year, and the result must be a real date (`None` is the `ValueError`).
   */
  function ParseDayMonthYear(s: string): (r: Option<Date>)
    ensures r.Some? ==> ValidDate(r.value)
  {
    match DayField(s)
    case None => None
    case Some(d) =>
      if d.width >= |s| || s[d.width] != '/' then None
      else
        var rest := s[d.width + 1..];
        match MonthField(rest)
        case None => None
        case Some(m) =>
          if m.width >= |rest| || rest[m.width] != '/' then None
          else
            var y := rest[m.width + 1..];
            if |y| != 4 || !AllDigits(y) then None
            else
              var date := Date(DecimalValue(y), m.value, d.value);
              if ValidDate(date) then Some(date) else None
  }

  /** `strftime("%Y-%m-%d")`. */
  function IsoDate(d: Date): (r: string)
    requires ValidDate(d)
    ensures |r| == 10 && r[4] == '-' && r[7] == '-'
  {
    Pad(d.year, 4) + "-" + Pad(d.month, 2) + "-" + Pad(d.day, 2)
  }

  /** `strftime("%Y-%m")`. */
  function YearMonth(d: Date): (r: string)
    requires ValidDate(d)
    ensures |r| == 7 && r[4] == '-'
  {
    Pad(d.year, 4) + "-" + Pad(d.month, 2)
  }

  /** The `DD/MM/YYYY` form the messages carry. */
  function DayMonthYear(d: Date): (r: string)
    requires ValidDate(d)
    ensures |r| == 10 && r[2] == '/' && r[5] == '/'
  {
    Pad(d.day, 2) + "/" + Pad(d.month, 2) + "/" + Pad(d.year, 4)
  }

  /** A `YYYY-MM` folder name: four digits, a dash, and a month from `01` to `12`. */
  predicate IsYearMonthName(s: string) {
    |s| == 7 && AllDigits(s[..4]) && s[4] == '-' && AllDigits(s[5..])
    && 1 <= DecimalValue(s[5..]) <= 12 && DecimalValue(s[..4]) >= 1
  }

  /** A single digit pads to itself. */
  lemma Pad1Char(q: nat)
    requires q < 10
    ensures Pad(q, 1) == [DigitChar(q)]
  {
    assert q / 10 == 0 && q % 10 == q;
  }

  /** The two characters of `%02d`. */
  lemma Pad2Chars(n: nat)
    requires n < 100
    ensures Pad(n, 2) == [DigitChar(n / 10), DigitChar(n % 10)]
  {
    Pad1Char(n / 10);
  }

  /** Four zero-padded digits read back as the year they render. */
  lemma Pad4Value(n: nat)
    requires n < 10000
    ensures DecimalValue(Pad(n, 4)) == n
  {
    assert Power10(4) == 10000 by {
      assert Power10(1) == 10;
      assert Power10(2) == 100;
      assert Power10(3) == 1000;
    }
    PadValue(n, 4, 10000);
  }

  /** The parser reads back every date written as zero-padded `DD/MM/YYYY`. */
  lemma {:induction false} ParseDayMonthYearRoundTrip(d: Date)
    requires ValidDate(d)
    ensures ParseDayMonthYear(DayMonthYear(d)) == Some(d)
  {
    var s := DayMonthYear(d);
    Pad2Chars(d.day);
    Pad2Chars(d.month);
    Pad4Value(d.year);
    var y := Pad(d.year, 4);
    assert s == [DigitChar(d.day / 10), DigitChar(d.day % 10), '/', DigitChar(d.month / 10),
                 DigitChar(d.month % 10), '/'] + y;
    assert DayField(s) == Some(Token(d.day, 2));
    var rest := s[3..];
    assert rest == [DigitChar(d.month / 10), DigitChar(d.month % 10), '/'] + y;
    assert MonthField(rest) == Some(Token(d.month, 2));
    assert rest[3..] == y;
  }

  /**
   * Whatever the parser accepts is a day of one or two characters, `/`, a month of one or two
   * characters, `/` and four digits, and the date holds exactly the numbers those characters spell.
   */
  lemma ParseDayMonthYearSound(s: string, d: Date)
    requires ParseDayMonthYear(s) == Some(d)
    ensures exists i, j :: 1 <= i <= 2 && i + 2 <= j <= i + 3 && j + 5 == |s| && s[i] == '/' && s[j] == '/'
              && Numeral(s[..i], d.day) && Numeral(s[i + 1..j], d.month)
              && AllDigits(s[j + 1..]) && DecimalValue(s[j + 1..]) == d.year
  {
    var dt := DayField(s).value;
    var i := dt.width;
    var rest := s[i + 1..];
    var mt := MonthField(rest).value;
    var j := i + 1 + mt.width;
    assert s[i + 1..j] == rest[..mt.width];
    assert s[j + 1..] == rest[mt.width + 1..];
    assert s[j] == rest[mt.width];
  }

  /** The ISO name reads back as the year, month and day it renders. */
  lemma IsoDateReadsBack(d: Date)
    requires ValidDate(d)
    ensures AllDigits(IsoDate(d)[..4]) && DecimalValue(IsoDate(d)[..4]) == d.year
    ensures AllDigits(IsoDate(d)[5..7]) && DecimalValue(IsoDate(d)[5..7]) == d.month
    ensures AllDigits(IsoDate(d)[8..]) && DecimalValue(IsoDate(d)[8..]) == d.day
  {
    var r := IsoDate(d);
    assert r[..4] == Pad(d.year, 4);
    assert r[5..7] == Pad(d.month, 2);
    assert r[8..] == Pad(d.day, 2);
    Pad4Value(d.year);
    assert Power10(2) == 100 by { assert Power10(1) == 10; }
    PadValue(d.month, 2, 100);
    PadValue(d.day, 2, 100);
  }

  /** The ISO name of a date starts with its month folder name and a dash. */
  lemma IsoDateExtendsYearMonth(d: Date)
    requires ValidDate(d)
    ensures IsoDate(d) == YearMonth(d) + "-" + Pad(d.day, 2)
    ensures |IsoDate(d)| == 10 && IsoDate(d)[..8] == YearMonth(d) + "-"
    ensures IsYearMonthName(YearMonth(d))
  {
    var ym := YearMonth(d);
    Pad4Value(d.year);
    assert ym[..4] == Pad(d.year, 4);
    assert ym[5..] == Pad(d.month, 2);
    PadValue(d.month, 2, 100) by {
      assert Power10(2) == 100 by { assert Power10(1) == 10; }
    }
  }

  /** Distinct dates have distinct ISO names, so entry folders of different days never collide. */
  lemma {:induction false} IsoDateInjective(d1: Date, d2: Date)
    requires ValidDate(d1) && ValidDate(d2)
    requires IsoDate(d1) == IsoDate(d2)
    ensures d1 == d2
  {
    IsoDateReadsBack(d1);
    IsoDateReadsBack(d2);
  }

  /** The value of a four-digit year. */
  lemma FourDigits(s: string)
    requires |s| == 4 && AllDigits(s)
    ensures DecimalValue(s) == 1000 * DigitValue(s[0]) + 100 * DigitValue(s[1])
                               + 10 * DigitValue(s[2]) + DigitValue(s[3])
  {
    assert DecimalValue(s[..1]) == DigitValue(s[0]) by {
      assert s[..1][..0] == [];
    }
    assert DecimalValue(s[..2]) == 10 * DigitValue(s[0]) + DigitValue(s[1]) by {
      assert s[..2][..1] == s[..1];
    }
    assert DecimalValue(s[..3]) == 100 * DigitValue(s[0]) + 10 * DigitValue(s[1]) + DigitValue(s[2]) by {
      assert s[..3][..2] == s[..2];
    }
    assert s[..4] == s;
  }

  /** `str(n)` of a day or a month: one digit below 10, two digits from 10 on. */
  lemma SmallDecimal(n: nat)
    requires 1 <= n < 100
    ensures n < 10 ==> NatToDecimal(n) == [DigitChar(n)]
    ensures n >= 10 ==> NatToDecimal(n) == [DigitChar(n / 10), DigitChar(n % 10)]
  {
    if n >= 10 {
      assert NatToDecimal(n / 10) == [DigitChar(n / 10)];
    }
  }

  /** `%d` reads an unpadded day with exactly its own digits. */
  lemma DayFieldUnpadded(day: nat, rest: string)
    requires 1 <= day <= 31 && rest != [] && rest[0] == '/'
    ensures DayField(NatToDecimal(day) + rest) == Some(Token(day, |NatToDecimal(day)|))
  {
    SmallDecimal(day);
  }

  /** `%m` reads an unpadded month with exactly its own digits. */
  lemma MonthFieldUnpadded(month: nat, rest: string)
    requires 1 <= month <= 12 && rest != [] && rest[0] == '/'
    ensures MonthField(NatToDecimal(month) + rest) == Some(Token(month, |NatToDecimal(month)|))
  {
    SmallDecimal(month);
  }

  /** The parser reads back every date whose day and month are written without padding, as `str` gives them. */
  lemma {:induction false} ParseUnpaddedAll(d: Date)
    requires ValidDate(d)
    ensures ParseDayMonthYear(NatToDecimal(d.day) + "/" + NatToDecimal(d.month) + "/" + Pad(d.year, 4)) == Some(d)
  {
    var dd, mm, y := NatToDecimal(d.day), NatToDecimal(d.month), Pad(d.year, 4);
    var rest := mm + ("/" + y);
    Regroup(dd, "/", mm, y);
    DayFieldUnpadded(d.day, "/" + rest);
    MonthFieldUnpadded(d.month, "/" + y);
    Pad4Value(d.year);
    ParseOfParts(dd + "/" + mm + "/" + y, rest, dd, mm, y, d.day, d.month);
  }

  lemma Regroup(a: string, sep: string, b: string, c: string)
    ensures a + sep + b + sep + c == a + (sep + (b + (sep + c)))
  {
  }

  /** What follows a field and its `/` separator. */
  lemma AfterSlash(a: string, b: string)
    ensures (a + ("/" + b))[|a|] == '/' && (a + ("/" + b))[|a| + 1..] == b
  {
  }

  /** A day, `/`, a month, `/` and a year, each read whole by its directive. */
  lemma ParseOfParts(s: string, rest: string, dd: string, mm: string, y: string, day: int, month: int)
    requires s == dd + ("/" + rest) && rest == mm + ("/" + y)
    requires DayField(s) == Some(Token(day, |dd|)) && MonthField(rest) == Some(Token(month, |mm|))
    requires |y| == 4 && AllDigits(y) && ValidDate(Date(DecimalValue(y), month, day))
    ensures ParseDayMonthYear(s) == Some(Date(DecimalValue(y), month, day))
  {
    AfterSlash(dd, rest);
    AfterSlash(mm, y);
    ParseOfFields(s, day, |dd|, month, |mm|, y);
  }

  /** The parser's steps, once each field is known. */
  lemma ParseOfFields(s: string, day: int, i: nat, month: int, j: nat, y: string)
    requires DayField(s) == Some(Token(day, i)) && i < |s| && s[i] == '/'
    requires MonthField(s[i + 1..]) == Some(Token(month, j)) && j < |s[i + 1..]| && s[i + 1..][j] == '/'
    requires y == s[i + 1..][j + 1..] && |y| == 4 && AllDigits(y) && ValidDate(Date(DecimalValue(y), month, day))
    ensures ParseDayMonthYear(s) == Some(Date(DecimalValue(y), month, day))
  {
  }

  /** `strptime` accepts the zero-padded date of the message format. */
  lemma ParsePadded()
    ensures ParseDayMonthYear("04/02/2025") == Some(Date(2025, 2, 4))
  {
    var s := "04/02/2025";
    assert DayField(s) == Some(Token(4, 2));
    var rest := s[3..];
    assert rest == "02/2025";
    assert MonthField(rest) == Some(Token(2, 2));
    var y := rest[3..];
    assert y == "2025";
    FourDigits(y);
  }

  /** Padding is optional for day and month. */
  lemma ParseUnpadded()
    ensures ParseDayMonthYear("4/2/2025") == Some(Date(2025, 2, 4))
  {
    var s := "4/2/2025";
    assert DayField(s) == Some(Token(4, 1));
    var rest := s[2..];
    assert rest == "2/2025";
    assert MonthField(rest) == Some(Token(2, 1));
    var y := rest[2..];
    assert y == "2025";
    FourDigits(y);
  }

  /** The calendar is checked: 29 February exists only in leap years. */
  lemma ParseLeapDay()
    ensures ParseDayMonthYear("29/02/2024") == Some(Date(2024, 2, 29))
  {
    var s := "29/02/2024";
    assert DayField(s) == Some(Token(29, 2));
    var rest := s[3..];
    assert rest == "02/2024";
    assert MonthField(rest) == Some(Token(2, 2));
    var y := rest[3..];
    assert y == "2024";
    FourDigits(y);
    assert IsLeapYear(2024);
  }

  /** ... and 2023 is not a leap year. */
  lemma ParseNoLeapDay()
    ensures ParseDayMonthYear("29/02/2023") == None
  {
    var s := "29/02/2023";
    assert DayField(s) == Some(Token(29, 2));
    var rest := s[3..];
    assert rest == "02/2023";
    assert MonthField(rest) == Some(Token(2, 2));
    var y := rest[3..];
    assert y == "2023";
    FourDigits(y);
    assert !IsLeapYear(2023);
  }

  /** Day zero, year zero and two-digit years are refused. */
  lemma ParseRejects()
    ensures ParseDayMonthYear("00/01/2025") == None
    ensures ParseDayMonthYear("01/01/25") == None
  {
    assert DayField("00/01/2025") == None;
    var rest := "01/01/25"[3..];
    assert rest == "01/25";
    assert MonthField(rest) == Some(Token(1, 2));
    assert rest[3..] == "25";
  }

  /** Year zero does not exist in `datetime`. */
  lemma ParseRejectsYearZero()
    ensures ParseDayMonthYear("01/01/0000") == None
  {
    var s := "01/01/0000";
    assert DayField(s) == Some(Token(1, 2));
    var rest := s[3..];
    assert rest == "01/0000";
    assert MonthField(rest) == Some(Token(1, 2));
    var y := rest[3..];
    assert y == "0000";
    FourDigits(y);
  }
}
