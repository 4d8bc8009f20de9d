/** The canonical wire form of an instant: RFC 3339, section 5.6, in UTC with milliseconds. */
module WireInstant {
  import opened Common

  /** Text as the bytes it is made of. */
  type Byte = c: char | c as int < 256 witness ' '
  type Text = seq<Byte>

  // ---------------------------------------------------------------- fixed-width numbers

  function Pow10(width: nat): (p: nat)
    ensures p >= 1
  {
    if width == 0 then 1 else 10 * Pow10(width - 1)
  }

  predicate IsDigit(c: char) {
    '0' <= c <= '9'
  }

  function Digit(n: nat): Byte
    requires n < 10
  {
    '0' + n as char
  }

  /** The last `width` decimal digits of n. */
  function Pad(n: nat, width: nat): (text: Text)
    ensures |text| == width
  {
    if width == 0 then [] else Pad(n / 10, width - 1) + [Digit(n % 10)]
  }

  function Number(text: Text): Option<nat> {
    if text == [] then Some(0)
    else
      var last := text[|text| - 1];
      var rest := Number(text[..|text| - 1]);
      if rest.Some? && IsDigit(last) then Some(10 * rest.value + (last as int - '0' as int)) else None
  }

  lemma {:induction false} NumberOfPad(n: nat, width: nat)
    requires n < Pow10(width)
    ensures Number(Pad(n, width)) == Some(n)
  {
    if width > 0 {
      NumberOfPad(n / 10, width - 1);
      assert Pad(n, width)[..width - 1] == Pad(n / 10, width - 1);
    }
  }

  lemma {:induction false} PadOfNumber(text: Text)
    requires Number(text).Some?
    ensures Number(text).value < Pow10(|text|)
    ensures Pad(Number(text).value, |text|) == text
  {
    if text != [] {
      var last := |text| - 1;
      PadOfNumber(text[..last]);
      var rest := Number(text[..last]).value;
      assert Number(text).value / 10 == rest;
      assert text == text[..last] + [text[last]];
    }
  }

  // ---------------------------------------------------------------- fields in a row

  /** A number of fixed width and the character after it. */
  datatype Field = Field(width: nat, after: Byte)

  function Print(numbers: seq<nat>, layout: seq<Field>): Text
    requires |numbers| == |layout|
  {
    if layout == [] then []
    else Pad(numbers[0], layout[0].width) + [layout[0].after] + Print(numbers[1..], layout[1..])
  }

  function Scan(text: Text, layout: seq<Field>): Option<seq<nat>> {
    if layout == [] then (if text == [] then Some([]) else None)
    else
      var width := layout[0].width;
      if |text| <= width || text[width] != layout[0].after then None
      else
        var number, rest := Number(text[..width]), Scan(text[width + 1..], layout[1..]);
        if number.Some? && rest.Some? then Some([number.value] + rest.value) else None
  }

  ghost predicate Fit(numbers: seq<nat>, layout: seq<Field>) {
    |numbers| == |layout| && forall i :: 0 <= i < |layout| ==> numbers[i] < Pow10(layout[i].width)
  }

  lemma {:induction false} ScanOfPrint(numbers: seq<nat>, layout: seq<Field>)
    requires Fit(numbers, layout)
    ensures Scan(Print(numbers, layout), layout) == Some(numbers)
  {
    if layout != [] {
      var text, width, rest := Print(numbers, layout), layout[0].width, Print(numbers[1..], layout[1..]);
      assert text == Pad(numbers[0], width) + [layout[0].after] + rest;
      assert text[..width] == Pad(numbers[0], width) && text[width + 1..] == rest;
      NumberOfPad(numbers[0], width);
      FitRest(numbers, layout);
      ScanOfPrint(numbers[1..], layout[1..]);
      assert numbers == [numbers[0]] + numbers[1..];
    }
  }

  lemma FitRest(numbers: seq<nat>, layout: seq<Field>)
    requires |numbers| == |layout| > 0
    ensures Fit(numbers, layout) <==> numbers[0] < Pow10(layout[0].width) && Fit(numbers[1..], layout[1..])
  {
    if numbers[0] < Pow10(layout[0].width) && Fit(numbers[1..], layout[1..]) {
      forall i | 0 <= i < |layout| ensures numbers[i] < Pow10(layout[i].width) {
        assert i > 0 ==> numbers[1..][i - 1] < Pow10(layout[1..][i - 1].width);
      }
    }
  }

  lemma SplitAt(text: Text, width: nat)
    requires width < |text|
    ensures text == text[..width] + [text[width]] + text[width + 1..]
  {
  }

  lemma {:induction false} PrintOfScan(text: Text, layout: seq<Field>)
    requires Scan(text, layout).Some?
    ensures Fit(Scan(text, layout).value, layout)
    ensures Print(Scan(text, layout).value, layout) == text
    decreases |layout|
  {
    if layout != [] {
      var width := layout[0].width;
      var rest := Scan(text[width + 1..], layout[1..]).value;
      var numbers := Scan(text, layout).value;
      PadOfNumber(text[..width]);
      PrintOfScan(text[width + 1..], layout[1..]);
      assert numbers[1..] == rest;
      FitRest(numbers, layout);
      SplitAt(text, width);
    }
  }

  // ---------------------------------------------------------------- the Gregorian calendar

  predicate Leap(year: nat) {
    year % 4 == 0 && (year % 100 != 0 || year % 400 == 0)
  }

  function YearLength(year: nat): nat {
    if Leap(year) then 366 else 365
  }

  /** Days from the first of January of year 0 to that of this year. */
  function DaysBeforeYear(year: nat): nat {
    if year == 0 then 0 else DaysBeforeYear(year - 1) + YearLength(year - 1)
  }

  /** How many of the years before this one are multiples of k. */
  function Multiples(year: nat, k: nat): nat
    requires k > 0
  {
    (year + k - 1) / k
  }

  lemma OneMoreIn4(year: nat)
    ensures Multiples(year + 1, 4) == Multiples(year, 4) + (if year % 4 == 0 then 1 else 0)
  {
    var q, r := year / 4, year % 4;
    assert year == 4 * q + r;
  }

  lemma OneMoreIn100(year: nat)
    ensures Multiples(year + 1, 100) == Multiples(year, 100) + (if year % 100 == 0 then 1 else 0)
  {
    var q, r := year / 100, year % 100;
    assert year == 100 * q + r;
  }

  lemma OneMoreIn400(year: nat)
    ensures Multiples(year + 1, 400) == Multiples(year, 400) + (if year % 400 == 0 then 1 else 0)
  {
    var q, r := year / 400, year % 400;
    assert year == 400 * q + r;
  }

  lemma MultiplesOf(k: nat)
    ensures 4 * k % 4 == 0 && 100 * k % 100 == 0
  {
  }

  lemma Divides(year: nat)
    ensures year % 400 == 0 ==> year % 100 == 0
    ensures year % 100 == 0 ==> year % 4 == 0
  {
    if year % 400 == 0 {
      MultiplesOf(4 * (year / 400));
      assert year == 100 * (4 * (year / 400));
    }
    if year % 100 == 0 {
      MultiplesOf(25 * (year / 100));
      assert year == 4 * (25 * (year / 100));
    }
  }

  lemma {:induction false} DaysInClosedForm(year: nat)
    ensures DaysBeforeYear(year) == 365 * year + Multiples(year, 4) - Multiples(year, 100) + Multiples(year, 400)
  {
    if year > 0 {
      DaysInClosedForm(year - 1);
      OneMoreIn4(year - 1);
      OneMoreIn100(year - 1);
      OneMoreIn400(year - 1);
      Divides(year - 1);
    }
  }

  lemma {:induction false} YearsAscend(a: nat, b: nat)
    requires a <= b
    ensures DaysBeforeYear(a) + (b - a) <= DaysBeforeYear(b)
    decreases b - a
  {
    if a < b {
      YearsAscend(a + 1, b);
    }
  }

  function MonthLength(year: nat, month: nat): nat {
    if month == 2 then (if Leap(year) then 29 else 28)
    else if month == 4 || month == 6 || month == 9 || month == 11 then 30
    else 31
  }

  /** Days of the year before this month's first. */
  function DaysBeforeMonth(year: nat, month: nat): nat {
    if month <= 1 then 0 else DaysBeforeMonth(year, month - 1) + MonthLength(year, month - 1)
  }

  lemma MonthsFillTheYear(year: nat)
    ensures DaysBeforeMonth(year, 13) == YearLength(year)
  {
    var february := MonthLength(year, 2);
    assert DaysBeforeMonth(year, 2) == 31;
    assert DaysBeforeMonth(year, 3) == 31 + february;
    assert DaysBeforeMonth(year, 5) == 92 + february;
    assert DaysBeforeMonth(year, 7) == 153 + february;
    assert DaysBeforeMonth(year, 9) == 215 + february;
    assert DaysBeforeMonth(year, 11) == 276 + february;
  }

  lemma {:induction false} MonthsAscend(year: nat, a: nat, b: nat)
    requires 1 <= a <= b
    ensures DaysBeforeMonth(year, a) + 28 * (b - a) <= DaysBeforeMonth(year, b)
    decreases b
  {
    if a < b {
      MonthsAscend(year, a, b - 1);
    }
  }

  /** The year of a day, counted from year 0; the search starts at `year`. */
  function YearOf(day: nat, year: nat): (y: nat)
    requires DaysBeforeYear(year) <= day
    ensures DaysBeforeYear(y) <= day < DaysBeforeYear(y + 1)
    decreases day - DaysBeforeYear(year)
  {
    if day < DaysBeforeYear(year + 1) then year else YearOf(day, year + 1)
  }

  /** The month of a day within its year; the search starts at `month`. */
  function MonthOf(year: nat, day: nat, month: nat): (m: nat)
    requires 1 <= month <= 12 && DaysBeforeMonth(year, month) <= day < YearLength(year)
    ensures 1 <= m <= 12 && DaysBeforeMonth(year, m) <= day < DaysBeforeMonth(year, m + 1)
    decreases 12 - month
  {
    MonthsFillTheYear(year);
    if day < DaysBeforeMonth(year, month + 1) then month else MonthOf(year, day, month + 1)
  }

  datatype Date = Date(year: nat, month: nat, day: nat)

  predicate ValidDate(date: Date) {
    1 <= date.month <= 12 && 1 <= date.day <= MonthLength(date.year, date.month)
  }

  function DayNumber(date: Date): nat
    requires ValidDate(date)
  {
    DaysBeforeYear(date.year) + DaysBeforeMonth(date.year, date.month) + date.day - 1
  }

  function DateOf(day: nat): (date: Date)
    ensures ValidDate(date) && DayNumber(date) == day
  {
    var year := YearOf(day, 0);
    var inYear := day - DaysBeforeYear(year);
    var month := MonthOf(year, inYear, 1);
    Date(year, month, inYear - DaysBeforeMonth(year, month) + 1)
  }

  lemma InTheYear(date: Date)
    requires ValidDate(date)
    ensures DaysBeforeYear(date.year) <= DayNumber(date) < DaysBeforeYear(date.year + 1)
  {
    MonthsAscend(date.year, date.month + 1, 13);
    MonthsFillTheYear(date.year);
  }

  lemma YearsAreUnique(a: Date, b: Date)
    requires ValidDate(a) && ValidDate(b) && DayNumber(a) == DayNumber(b)
    ensures a.year == b.year
  {
    InTheYear(a);
    InTheYear(b);
    if a.year < b.year { YearsAscend(a.year + 1, b.year); }
    if b.year < a.year { YearsAscend(b.year + 1, a.year); }
  }

  lemma MonthsAreUnique(year: nat, m: nat, i: nat, n: nat, j: nat)
    requires 1 <= m && 1 <= n && 1 <= i <= MonthLength(year, m) && 1 <= j <= MonthLength(year, n)
    requires DaysBeforeMonth(year, m) + i == DaysBeforeMonth(year, n) + j
    ensures m == n
  {
    if m < n { MonthsAscend(year, m + 1, n); }
    if n < m { MonthsAscend(year, n + 1, m); }
  }

  /** Two dates with one day number are one date. */
  lemma DatesAreUnique(a: Date, b: Date)
    requires ValidDate(a) && ValidDate(b) && DayNumber(a) == DayNumber(b)
    ensures a == b
  {
    YearsAreUnique(a, b);
    MonthsAreUnique(a.year, a.month, a.day, b.month, b.day);
  }

  // ---------------------------------------------------------------- instants

  // Days from the first of January of year 0 to the Unix epoch, and to year 10000.
  const EPOCH_DAY: nat := 719_528
  const LAST_DAY: nat := 3_652_425

  lemma YearStarts(year: nat)
    ensures year == 1970 ==> DaysBeforeYear(year) == EPOCH_DAY
    ensures year == 10_000 ==> DaysBeforeYear(year) == LAST_DAY
  {
    DaysInClosedForm(year);
  }

  /** The instants with a four-digit year, in milliseconds since the Unix epoch. */
  predicate Representable(at: Instant) {
    0 <= at / 86_400_000 + EPOCH_DAY < LAST_DAY
  }

  const LAYOUT: seq<Field> :=
    [Field(4, '-'), Field(2, '-'), Field(2, 'T'), Field(2, ':'), Field(2, ':'), Field(2, '.'), Field(3, 'Z')]

  function Numbers(at: Instant): (numbers: seq<nat>)
    requires Representable(at)
    ensures |numbers| == 7
  {
    var date, ms := DateOf(at / 86_400_000 + EPOCH_DAY), at % 86_400_000;
    [date.year, date.month, date.day, ms / 3_600_000, ms / 60_000 % 60, ms / 1_000 % 60, ms % 1_000]
  }

  /** The numbers name a day of the calendar and a time of that day. */
  predicate Meaningful(numbers: seq<nat>) {
    && |numbers| == 7 && numbers[0] < 10_000
    && ValidDate(Date(numbers[0], numbers[1], numbers[2]))
    && numbers[3] < 24 && numbers[4] < 60 && numbers[5] < 60 && numbers[6] < 1_000
  }

  /** The milliseconds since the day began. */
  function TimePart(numbers: seq<nat>): (ms: nat)
    requires Meaningful(numbers)
    ensures ms < 86_400_000
  {
    3_600_000 * numbers[3] + 60_000 * numbers[4] + 1_000 * numbers[5] + numbers[6]
  }

  function InstantOf(numbers: seq<nat>): Instant
    requires Meaningful(numbers)
  {
    (DayNumber(Date(numbers[0], numbers[1], numbers[2])) - EPOCH_DAY) * 86_400_000 + TimePart(numbers)
  }

  /** The wire form, for the instants that have one. */
  function FormatInstant(at: Instant): Option<Text> {
    if Representable(at) then Some(Print(Numbers(at), LAYOUT)) else None
  }

  /** Reads the wire form and nothing else. */
  function ParseInstant(text: Text): Option<Instant> {
    var numbers := Scan(text, LAYOUT);
    if numbers.Some? && Meaningful(numbers.value) then Some(InstantOf(numbers.value)) else None
  }

  /** Only the days before year 10000 have a four-digit year. */
  lemma FourDigits(date: Date, limit: nat)
    requires ValidDate(date) && limit == 10_000
    ensures date.year < limit <==> DayNumber(date) < LAST_DAY
  {
    InTheYear(date);
    YearStarts(limit);
    if date.year < limit {
      YearsAscend(date.year + 1, limit);
    } else {
      YearsAscend(limit, date.year);
    }
  }

  lemma TimeOfDay(h: nat, m: nat, s: nat, ms: nat)
    requires h < 24 && m < 60 && s < 60 && ms < 1_000
    ensures var t := 3_600_000 * h + 60_000 * m + 1_000 * s + ms;
      t < 86_400_000 && t / 3_600_000 == h && t / 60_000 % 60 == m && t / 1_000 % 60 == s && t % 1_000 == ms
  {
    var t := 3_600_000 * h + 60_000 * m + 1_000 * s + ms;
    assert t / 60_000 == 60 * h + m;
    assert t / 1_000 == 3_600 * h + 60 * m + s;
  }

  lemma PartsOfDay(t: nat)
    requires t < 86_400_000
    ensures t / 3_600_000 < 24
    ensures t == 3_600_000 * (t / 3_600_000) + 60_000 * (t / 60_000 % 60) + 1_000 * (t / 1_000 % 60) + t % 1_000
  {
    assert t / 60_000 == 60 * (t / 3_600_000) + t / 60_000 % 60;
    assert t / 1_000 == 60 * (t / 60_000) + t / 1_000 % 60;
  }

  lemma NumbersAreMeaningful(at: Instant)
    requires Representable(at)
    ensures Meaningful(Numbers(at)) && InstantOf(Numbers(at)) == at
  {
    var date := DateOf(at / 86_400_000 + EPOCH_DAY);
    FourDigits(date, 10_000);
    PartsOfDay(at % 86_400_000);
    var numbers := Numbers(at);
    assert Date(numbers[0], numbers[1], numbers[2]) == date;
  }

  lemma DayAndTime(day: int, ms: nat)
    requires ms < 86_400_000
    ensures (day * 86_400_000 + ms) / 86_400_000 == day && (day * 86_400_000 + ms) % 86_400_000 == ms
  {
  }

  lemma PartsOfInstant(numbers: seq<nat>)
    requires Meaningful(numbers)
    ensures var at := InstantOf(numbers);
      && at / 86_400_000 == DayNumber(Date(numbers[0], numbers[1], numbers[2])) - EPOCH_DAY
      && at % 86_400_000 == TimePart(numbers)
  {
    DayAndTime(DayNumber(Date(numbers[0], numbers[1], numbers[2])) - EPOCH_DAY, TimePart(numbers));
  }

  lemma InstantsAreRepresentable(numbers: seq<nat>)
    requires Meaningful(numbers)
    ensures Representable(InstantOf(numbers)) && Numbers(InstantOf(numbers)) == numbers
  {
    var date := Date(numbers[0], numbers[1], numbers[2]);
    PartsOfInstant(numbers);
    TimeOfDay(numbers[3], numbers[4], numbers[5], numbers[6]);
    FourDigits(date, 10_000);
    DatesAreUnique(DateOf(DayNumber(date)), date);
  }

  lemma NumbersFit(numbers: seq<nat>)
    requires Meaningful(numbers)
    ensures Fit(numbers, LAYOUT)
  {
    assert Pow10(2) == 100 && Pow10(3) == 1_000 && Pow10(4) == 10_000;
  }

  /** Printing and parsing are inverse: a text is read as an instant exactly when it is that
      instant's wire form. */
  lemma WireFormRoundTrips(at: Instant, text: Text)
    ensures ParseInstant(text) == Some(at) <==> FormatInstant(at) == Some(text)
  {
    if FormatInstant(at) == Some(text) {
      NumbersAreMeaningful(at);
      NumbersFit(Numbers(at));
      ScanOfPrint(Numbers(at), LAYOUT);
    }
    if ParseInstant(text) == Some(at) {
      InstantsAreRepresentable(Scan(text, LAYOUT).value);
      PrintOfScan(text, LAYOUT);
    }
  }

  // ---------------------------------------------------------------- what the wire form looks like

  /** Which years are leap years. */
  lemma LeapYears(year: nat)
    ensures year % 400 == 0 ==> Leap(year)
    ensures year % 100 == 0 && year % 400 != 0 ==> !Leap(year)
    ensures year % 4 == 0 && year % 100 != 0 ==> Leap(year)
    ensures year % 4 != 0 ==> !Leap(year)
  {
    Divides(year);
  }

  lemma MonthLengths(year: nat)
    ensures MonthLength(year, 1) == 31 && MonthLength(year, 2) == (if Leap(year) then 29 else 28)
    ensures MonthLength(year, 3) == 31 && MonthLength(year, 4) == 30 && MonthLength(year, 5) == 31
    ensures MonthLength(year, 6) == 30 && MonthLength(year, 7) == 31 && MonthLength(year, 8) == 31
    ensures MonthLength(year, 9) == 30 && MonthLength(year, 10) == 31 && MonthLength(year, 11) == 30
    ensures MonthLength(year, 12) == 31
  {
  }

  /** The day after a date is the next of its month, or the first of the next month or year; and the
      count of days from the epoch begins on the first of January 1970. */
  lemma DaysFollow(date: Date)
    requires ValidDate(date)
    ensures var Date(y, m, d) := date;
      && (d < MonthLength(y, m) ==> DayNumber(Date(y, m, d + 1)) == DayNumber(date) + 1)
      && (d == MonthLength(y, m) && m < 12 ==> DayNumber(Date(y, m + 1, 1)) == DayNumber(date) + 1)
      && (d == MonthLength(y, m) && m == 12 ==> DayNumber(Date(y + 1, 1, 1)) == DayNumber(date) + 1)
      && (date == Date(1970, 1, 1) ==> DayNumber(date) == EPOCH_DAY)
  {
    MonthLengths(date.year);
    MonthLengths(date.year + 1);
    MonthsFillTheYear(date.year);
    YearStarts(date.year);
  }

  /** A number in its field: decimal digits, the highest first, zeroes in front. */
  lemma PadSpelling(n: nat)
    ensures var digits := "0123456789";
      && Pad(n, 2) == [digits[n / 10 % 10], digits[n % 10]]
      && Pad(n, 3) == [digits[n / 100 % 10], digits[n / 10 % 10], digits[n % 10]]
      && Pad(n, 4) == [digits[n / 1_000 % 10], digits[n / 100 % 10], digits[n / 10 % 10], digits[n % 10]]
  {
    Tenths(n);
    PadTwo(n);
    PadOneMore(n, 2);
    PadTwo(n / 10);
    PadOneMore(n, 3);
    PadOneMore(n / 10, 2);
    PadTwo(n / 100);
  }

  lemma Tenths(n: nat)
    ensures n / 10 / 10 == n / 100 && n / 100 / 10 == n / 1_000
  {
  }

  lemma PadOneMore(n: nat, width: nat)
    ensures Pad(n, width + 1) == Pad(n / 10, width) + ["0123456789"[n % 10]]
  {
    DigitSpelling(n % 10);
  }

  lemma PadTwo(n: nat)
    ensures Pad(n, 2) == ["0123456789"[n / 10 % 10], "0123456789"[n % 10]]
  {
    PadOneMore(n, 1);
    PadOneMore(n / 10, 0);
    assert Pad(n / 10 / 10, 0) == [];
  }

  lemma DigitSpelling(n: nat)
    requires n < 10
    ensures Digit(n) == "0123456789"[n]
  {
  }

  /** At this place of the text stand the number in its field and the character after it. */
  predicate Stands(text: Text, at: nat, number: nat, width: nat, after: char) {
    at + width < |text| && text[at..at + width] == Pad(number, width) && text[at + width] == after
  }

  /** Where the i-th field begins. */
  function Offset(layout: seq<Field>, i: nat): nat
    requires i <= |layout|
  {
    if i == 0 then 0 else layout[0].width + 1 + Offset(layout[1..], i - 1)
  }

  lemma {:induction false} PrintStands(numbers: seq<nat>, layout: seq<Field>, i: nat)
    requires |numbers| == |layout| && i < |layout|
    ensures Stands(Print(numbers, layout), Offset(layout, i), numbers[i], layout[i].width, layout[i].after)
  {
    var text, width, rest := Print(numbers, layout), layout[0].width, Print(numbers[1..], layout[1..]);
    assert text == Pad(numbers[0], width) + [layout[0].after] + rest;
    if i == 0 {
      assert text[..width] == Pad(numbers[0], width);
    } else {
      PrintStands(numbers[1..], layout[1..], i - 1);
      StandsLater(text, width + 1, rest, Offset(layout[1..], i - 1), numbers[i], layout[i].width, layout[i].after);
    }
  }

  lemma StandsLater(text: Text, skip: nat, rest: Text, at: nat, number: nat, width: nat, after: char)
    requires skip <= |text| && text[skip..] == rest && Stands(rest, at, number, width, after)
    ensures Stands(text, skip + at, number, width, after)
  {
    assert text[skip..][at..at + width] == text[skip + at..skip + at + width];
    assert text[skip..][at + width] == text[skip + at + width];
  }

  lemma {:induction false} PrintLength(numbers: seq<nat>, layout: seq<Field>)
    requires |numbers| == |layout|
    ensures |Print(numbers, layout)| == Offset(layout, |layout|)
  {
    if layout != [] {
      PrintLength(numbers[1..], layout[1..]);
    }
  }

  lemma {:induction false} OffsetMore(layout: seq<Field>, i: nat)
    requires i < |layout|
    ensures Offset(layout, i + 1) == Offset(layout, i) + layout[i].width + 1
  {
    if i > 0 {
      OffsetMore(layout[1..], i - 1);
    }
  }

  lemma LayoutOffsets()
    ensures Offset(LAYOUT, 1) == 5 && Offset(LAYOUT, 2) == 8 && Offset(LAYOUT, 3) == 11 && Offset(LAYOUT, 4) == 14
    ensures Offset(LAYOUT, 5) == 17 && Offset(LAYOUT, 6) == 20 && Offset(LAYOUT, 7) == 24
  {
    var layout := LAYOUT;
    OffsetMore(layout, 0);
    OffsetMore(layout, 1);
    OffsetMore(layout, 2);
    OffsetMore(layout, 3);
    OffsetMore(layout, 4);
    OffsetMore(layout, 5);
    OffsetMore(layout, 6);
  }

  /** Twenty-four characters: year, month and day with dashes between, a T, the time with colons
      between and a point before the milliseconds, and a Z. */
  predicate Spells(text: Text, numbers: seq<nat>)
    requires |numbers| == 7
  {
    && |text| == 24
    && Stands(text, 0, numbers[0], 4, '-') && Stands(text, 5, numbers[1], 2, '-') && Stands(text, 8, numbers[2], 2, 'T')
    && Stands(text, 11, numbers[3], 2, ':') && Stands(text, 14, numbers[4], 2, ':') && Stands(text, 17, numbers[5], 2, '.')
    && Stands(text, 20, numbers[6], 3, 'Z')
  }

  lemma LayoutPrints(numbers: seq<nat>)
    requires |numbers| == 7
    ensures Spells(Print(numbers, LAYOUT), numbers)
  {
    LayoutOffsets();
    PrintLength(numbers, LAYOUT);
    PrintStands(numbers, LAYOUT, 0);
    PrintStands(numbers, LAYOUT, 1);
    PrintStands(numbers, LAYOUT, 2);
    PrintStands(numbers, LAYOUT, 3);
    PrintStands(numbers, LAYOUT, 4);
    PrintStands(numbers, LAYOUT, 5);
    PrintStands(numbers, LAYOUT, 6);
  }

  lemma MomentNumbers(date: Date, h: nat, m: nat, s: nat, ms: nat)
    requires ValidDate(date) && date.year < 10_000 && h < 24 && m < 60 && s < 60 && ms < 1_000
    ensures var numbers := [date.year, date.month, date.day, h, m, s, ms];
      && Meaningful(numbers)
      && InstantOf(numbers)
           == (DayNumber(date) - EPOCH_DAY) * 86_400_000 + 3_600_000 * h + 60_000 * m + 1_000 * s + ms
  {
    var numbers := [date.year, date.month, date.day, h, m, s, ms];
    assert Date(numbers[0], numbers[1], numbers[2]) == date;
  }

  /** The wire form of a moment of a day spells its date and its time. */
  lemma WireText(date: Date, h: nat, m: nat, s: nat, ms: nat)
    requires ValidDate(date) && date.year < 10_000 && h < 24 && m < 60 && s < 60 && ms < 1_000
    ensures var wire :=
        FormatInstant((DayNumber(date) - EPOCH_DAY) * 86_400_000 + 3_600_000 * h + 60_000 * m + 1_000 * s + ms);
      wire.Some? && Spells(wire.value, [date.year, date.month, date.day, h, m, s, ms])
  {
    var numbers := [date.year, date.month, date.day, h, m, s, ms];
    MomentNumbers(date, h, m, s, ms);
    InstantsAreRepresentable(numbers);
    LayoutPrints(numbers);
  }
}
