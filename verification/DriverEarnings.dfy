/** A driver's earnings by day, week and month in a zone of fixed offset. Days are counted
    from 1 January of year 1, a Monday in the Gregorian calendar. */
module DriverEarnings {

  import opened Fares

  const DAY_SECONDS: nat := 86_400

  predicate IsLeap(year: nat) {
    year % 4 == 0 && (year % 100 != 0 || year % 400 == 0)
  }

  function MonthLength(year: nat, month: nat): (days: nat)
    ensures 28 <= days <= 31
  {
    if month == 2 then (if IsLeap(year) then 29 else 28)
    else if month in {4, 6, 9, 11} then 30
    else 31
  }

  datatype CivilDate = CivilDate(year: nat, month: nat, day: nat)

  type Date = date: CivilDate |
    1 <= date.year && 1 <= date.month <= 12 && 1 <= date.day <= MonthLength(date.year, date.month)
    witness CivilDate(1, 1, 1)

  /** The day number of the first day of a month, months being counted from 1 January of year 1. */
  function MonthStart(index: nat): int {
    if index == 0 then 0 else MonthStart(index - 1) + MonthLength((index - 1) / 12 + 1, (index - 1) % 12 + 1)
  }

  function MonthIndex(date: Date): nat {
    12 * (date.year - 1) + date.month - 1
  }

  function DayNumber(date: Date): int {
    MonthStart(MonthIndex(date)) + date.day - 1
  }

  lemma NextMonth(index: nat)
    ensures MonthStart(index + 1) == MonthStart(index) + MonthLength(index / 12 + 1, index % 12 + 1)
  {
  }

  lemma {:induction false} MonthsAdvance(first: nat, second: nat)
    requires first < second
    ensures MonthStart(first + 1) <= MonthStart(second)
  {
    if first + 1 < second {
      MonthsAdvance(first, second - 1);
    }
  }

  lemma DateInItsMonth(date: Date)
    ensures MonthStart(MonthIndex(date)) <= DayNumber(date) < MonthStart(MonthIndex(date) + 1)
  {
    var index := MonthIndex(date);
    assert index / 12 + 1 == date.year && index % 12 + 1 == date.month;
    NextMonth(index);
  }

  /** A day that lies in a month has a date in that month. */
  lemma MonthOfDay(date: Date, index: nat)
    requires MonthStart(index) <= DayNumber(date) < MonthStart(index + 1)
    ensures MonthIndex(date) == index && DayNumber(date) == MonthStart(index) + date.day - 1
  {
    DateInItsMonth(date);
    OneMonth(DayNumber(date), MonthIndex(date), index);
  }

  lemma OneMonth(day: int, first: nat, second: nat)
    requires MonthStart(first) <= day < MonthStart(first + 1) && MonthStart(second) <= day < MonthStart(second + 1)
    ensures first == second
  {
    if first < second {
      MonthsAdvance(first, second);
    } else if second < first {
      MonthsAdvance(second, first);
    }
  }

  lemma DayNumbersAreUnique(left: Date, right: Date)
    requires DayNumber(left) == DayNumber(right)
    ensures left == right
  {
    DateInItsMonth(right);
    MonthOfDay(left, MonthIndex(right));
  }

  /** The days before a month within its year. */
  function DaysBefore(year: nat, month: nat): nat
    requires 1 <= month <= 12
  {
    [0, 31, 59, 90, 120, 151, 181, 212, 243, 273, 304, 334][month - 1]
    + (if 2 < month && year % 4 == 0 && (year % 100 != 0 || year % 400 == 0) then 1 else 0)
  }

  lemma {:induction false} MonthsOfYear(years: nat, month: nat)
    requires 1 <= month <= 12
    ensures MonthStart(12 * years + month - 1) == MonthStart(12 * years) + DaysBefore(years + 1, month)
  {
    if month > 1 {
      var index := 12 * years + month - 2;
      MonthsOfYear(years, month - 1);
      assert index / 12 == years && index % 12 == month - 2;
      NextMonth(index);
    }
  }

  lemma NextYear(years: nat)
    ensures MonthStart(12 * (years + 1)) == MonthStart(12 * years) + DaysBefore(years + 1, 12) + 31
  {
    var index := 12 * years + 11;
    MonthsOfYear(years, 12);
    assert index / 12 == years && index % 12 == 11;
    NextMonth(index);
  }

  /** The leap days up to and including a year. */
  function LeapDays(years: nat): int {
    years / 4 - years / 100 + years / 400
  }

  lemma NextFourth(value: nat)
    ensures (value + 1) / 4 == value / 4 + if (value + 1) % 4 == 0 then 1 else 0
  {
  }

  lemma NextHundredth(value: nat)
    ensures (value + 1) / 100 == value / 100 + if (value + 1) % 100 == 0 then 1 else 0
    ensures (value + 1) / 400 == value / 400 + if (value + 1) % 400 == 0 then 1 else 0
  {
  }

  lemma Multiples(value: nat)
    ensures value % 400 == 0 ==> value % 100 == 0
    ensures value % 100 == 0 ==> value % 4 == 0
  {
    if value % 400 == 0 {
      assert value == 100 * (4 * (value / 400));
    }
    if value % 100 == 0 {
      assert value == 4 * (25 * (value / 100));
    }
  }

  lemma NextLeapDay(years: nat)
    ensures LeapDays(years + 1) == LeapDays(years) + if IsLeap(years + 1) then 1 else 0
  {
    NextFourth(years);
    NextHundredth(years);
    Multiples(years + 1);
  }

  /** The closed form of the Gregorian calendar. */
  lemma {:induction false} YearStart(years: nat)
    ensures MonthStart(12 * years) == 365 * years + LeapDays(years)
  {
    if years > 0 {
      YearStart(years - 1);
      NextYear(years - 1);
      NextLeapDay(years - 1);
    }
  }

  /** A date's day number: the days of the years before it, with their leap days, those of the
      months before it in its year, and its own. */
  function GregorianDay(year: nat, month: nat, day: nat): int
    requires 1 <= year && 1 <= month <= 12
  {
    365 * (year - 1) + LeapDays(year - 1) + DaysBefore(year, month) + day - 1
  }

  lemma DayNumberIsGregorian(date: Date)
    ensures DayNumber(date) == GregorianDay(date.year, date.month, date.day)
  {
    YearStart(date.year - 1);
    MonthsOfYear(date.year - 1, date.month);
    assert MonthIndex(date) == 12 * (date.year - 1) + date.month - 1;
  }

  datatype DateAndSecond = DateAndSecond(date: Date, second: nat)

  type LocalTime = time: DateAndSecond | time.second < DAY_SECONDS witness DateAndSecond(CivilDate(1, 1, 1), 0)

  function Seconds(day: int, second: nat): int {
    day * DAY_SECONDS + second
  }

  /** Go's numbering: Sunday is zero. */
  function Weekday(day: int): nat {
    (day + 1) % 7
  }

  /** The numbering is anchored at 1 January 1970, a Thursday. */
  lemma EpochIsThursday()
    ensures GregorianDay(1970, 1, 1) == 719162 && Weekday(719162) == 4
  {
  }

  lemma WeekdaysGoRound(day: int)
    ensures Weekday(day + 1) == if Weekday(day) == 6 then 0 else Weekday(day) + 1
  {
  }

  /** Go's remainder truncates towards zero. */
  function Remainder(left: int, right: int): int
    requires 0 < right
  {
    if left < 0 then -((-left) % right) else left % right
  }

  function WeekStart(today: int): int {
    today + Remainder(-(Weekday(today) + 6), 7)
  }

  /** The week starts on the last Monday that is not after today. */
  lemma WeekStartIsMonday(today: int)
    ensures Weekday(WeekStart(today)) == 1
    ensures WeekStart(today) <= today < WeekStart(today) + 7
    ensures (Weekday(today) + 6) % 7 == today - WeekStart(today)
  {
  }

  /** With a Euclidean remainder the week would begin after today, except on Mondays. */
  lemma TruncationMatters(today: int)
    ensures today + (-(Weekday(today) + 6)) % 7 <= today <==> Weekday(today) == 1
  {
  }

  datatype Entry = Entry(completedAt: LocalTime, payout: Int64)

  datatype Period = Period(amount: Int64, trips: nat)

  datatype Bucket = Bucket(start: int, amount: Int64, trips: nat)

  datatype Summary = Summary(today: Period, thisWeek: Period, thisMonth: Period, weekdays: seq<Bucket>, monthWeeks: seq<Bucket>)

  /** An entry by the day on which it was completed. */
  datatype Earning = Earning(day: int, amount: Int64)

  function EarningOf(entry: Entry): Earning {
    Earning(DayNumber(entry.completedAt.date), entry.payout)
  }

  function Earnings(entries: seq<Entry>): (earnings: seq<Earning>)
    ensures |earnings| == |entries| && forall i :: 0 <= i < |entries| ==> earnings[i] == EarningOf(entries[i])
  {
    if entries == [] then [] else Earnings(entries[..|entries| - 1]) + [EarningOf(entries[|entries| - 1])]
  }

  predicate Within(earning: Earning, from: int, until: int) {
    from <= earning.day < until
  }

  /** What was earned, without wrap-around, on the days from `from` until before `until`. */
  function TotalIn(earnings: seq<Earning>, from: int, until: int): int {
    if earnings == [] then 0
    else
      var last := earnings[|earnings| - 1];
      TotalIn(earnings[..|earnings| - 1], from, until) + if Within(last, from, until) then last.amount else 0
  }

  function TripsIn(earnings: seq<Earning>, from: int, until: int): nat {
    if earnings == [] then 0
    else TripsIn(earnings[..|earnings| - 1], from, until) + if Within(earnings[|earnings| - 1], from, until) then 1 else 0
  }

  function PeriodOf(earnings: seq<Earning>, from: int, until: int): Period {
    Period(Wrap64(TotalIn(earnings, from, until)), TripsIn(earnings, from, until))
  }

  /** The totals over one entry, and over the entries of two lists. */
  lemma {:induction false} TotalsAdd(left: seq<Entry>, right: seq<Entry>, entry: Entry, from: int, until: int)
    ensures var day := DayNumber(entry.completedAt.date);
      TotalIn(Earnings([entry]), from, until) == if from <= day < until then entry.payout else 0
    ensures var day := DayNumber(entry.completedAt.date);
      TripsIn(Earnings([entry]), from, until) == if from <= day < until then 1 else 0
    ensures TotalIn(Earnings(left + right), from, until) == TotalIn(Earnings(left), from, until) + TotalIn(Earnings(right), from, until)
    ensures TripsIn(Earnings(left + right), from, until) == TripsIn(Earnings(left), from, until) + TripsIn(Earnings(right), from, until)
    decreases |right|
  {
    assert Earnings([entry]) == [EarningOf(entry)];
    if right == [] {
      assert left + right == left;
    } else {
      var rest := right[..|right| - 1];
      assert (left + right)[..|left + right| - 1] == left + rest;
      TotalsAdd(left, rest, entry, from, until);
    }
  }

  predicate IsBucket(bucket: Bucket, earnings: seq<Earning>, start: int, until: int) {
    bucket.start == start && Period(bucket.amount, bucket.trips) == PeriodOf(earnings, start, until)
  }

  /** Today, the Monday of its week, and the first days of its month and of the next. */
  datatype Spans = Spans(day: int, week: int, month: int, nextMonth: int)

  function SpansOf(today: Date): Spans {
    Spans(DayNumber(today), WeekStart(DayNumber(today)), MonthStart(MonthIndex(today)), MonthStart(MonthIndex(today) + 1))
  }

  predicate AreWeekdays(buckets: seq<Bucket>, earnings: seq<Earning>, week: int) {
    |buckets| == 7 && forall i :: 0 <= i < 7 ==> IsBucket(buckets[i], earnings, week + i, week + i + 1)
  }

  /** The last bucket of a month ends with the month. */
  predicate AreMonthWeeks(buckets: seq<Bucket>, earnings: seq<Earning>, month: int, nextMonth: int) {
    |buckets| == 5 && forall i :: 0 <= i < 5 ==> IsBucket(buckets[i], earnings, month + 7 * i, Min(month + 7 * i + 7, nextMonth))
  }

  predicate ArePeriods(summary: Summary, earnings: seq<Earning>, spans: Spans) {
    && summary.today == PeriodOf(earnings, spans.day, spans.day + 1)
    && summary.thisWeek == PeriodOf(earnings, spans.week, spans.week + 7)
    && summary.thisMonth == PeriodOf(earnings, spans.month, spans.nextMonth)
  }

  /** Every figure of the summary is the total over its own span of days. */
  predicate IsSummaryOf(summary: Summary, earnings: seq<Earning>, spans: Spans) {
    && ArePeriods(summary, earnings, spans)
    && AreWeekdays(summary.weekdays, earnings, spans.week)
    && AreMonthWeeks(summary.monthWeeks, earnings, spans.month, spans.nextMonth)
  }

  lemma WrapAdds(left: int, right: int)
    ensures Wrap64(Wrap64(left) + right) == Wrap64(left + right)
  {
  }

  function AddToPeriod(period: Period, amount: Int64): Period {
    Period(Wrap64(period.amount + amount), period.trips + 1)
  }

  function AddToBucket(bucket: Bucket, amount: Int64): Bucket {
    Bucket(bucket.start, Wrap64(bucket.amount + amount), bucket.trips + 1)
  }

  lemma OneMoreEarning(earnings: seq<Earning>, earning: Earning, from: int, until: int)
    ensures PeriodOf(earnings + [earning], from, until)
            == if Within(earning, from, until) then AddToPeriod(PeriodOf(earnings, from, until), earning.amount)
               else PeriodOf(earnings, from, until)
  {
    assert (earnings + [earning])[..|earnings|] == earnings;
    WrapAdds(TotalIn(earnings, from, until), earning.amount);
  }

  function BucketAdded(buckets: seq<Bucket>, index: int, amount: Int64): seq<Bucket> {
    if 0 <= index < |buckets| then buckets[index := AddToBucket(buckets[index], amount)] else buckets
  }

  /** The summary with one more entry, by the day of its completion. */
  function WithEarning(summary: Summary, earning: Earning, spans: Spans): Summary {
    var inMonth := Within(earning, spans.month, spans.nextMonth);
    var inWeek := Within(earning, spans.week, spans.week + 7);
    Summary(
      if earning.day == spans.day then AddToPeriod(summary.today, earning.amount) else summary.today,
      if inWeek then AddToPeriod(summary.thisWeek, earning.amount) else summary.thisWeek,
      if inMonth then AddToPeriod(summary.thisMonth, earning.amount) else summary.thisMonth,
      if inWeek then BucketAdded(summary.weekdays, earning.day - spans.week, earning.amount) else summary.weekdays,
      if inMonth then BucketAdded(summary.monthWeeks, (earning.day - spans.month) / 7, earning.amount) else summary.monthWeeks)
  }

  lemma BucketKeeps(bucket: Bucket, earnings: seq<Earning>, earning: Earning, start: int, until: int)
    requires IsBucket(bucket, earnings, start, until)
    ensures IsBucket(if Within(earning, start, until) then AddToBucket(bucket, earning.amount) else bucket,
                     earnings + [earning], start, until)
  {
    OneMoreEarning(earnings, earning, start, until);
  }

  lemma WeekdaysKeep(buckets: seq<Bucket>, earnings: seq<Earning>, earning: Earning, week: int)
    requires AreWeekdays(buckets, earnings, week)
    ensures AreWeekdays(if Within(earning, week, week + 7) then BucketAdded(buckets, earning.day - week, earning.amount) else buckets,
                        earnings + [earning], week)
  {
    var after := if Within(earning, week, week + 7) then BucketAdded(buckets, earning.day - week, earning.amount) else buckets;
    forall i | 0 <= i < 7
      ensures IsBucket(after[i], earnings + [earning], week + i, week + i + 1)
    {
      BucketKeeps(buckets[i], earnings, earning, week + i, week + i + 1);
    }
  }

  lemma MonthWeeksKeep(buckets: seq<Bucket>, earnings: seq<Earning>, earning: Earning, month: int, nextMonth: int)
    requires AreMonthWeeks(buckets, earnings, month, nextMonth)
    ensures AreMonthWeeks(
              if Within(earning, month, nextMonth) then BucketAdded(buckets, (earning.day - month) / 7, earning.amount) else buckets,
              earnings + [earning], month, nextMonth)
  {
    var after :=
      if Within(earning, month, nextMonth) then BucketAdded(buckets, (earning.day - month) / 7, earning.amount) else buckets;
    forall i | 0 <= i < 5
      ensures IsBucket(after[i], earnings + [earning], month + 7 * i, Min(month + 7 * i + 7, nextMonth))
    {
      BucketKeeps(buckets[i], earnings, earning, month + 7 * i, Min(month + 7 * i + 7, nextMonth));
    }
  }

  lemma PeriodsKeep(summary: Summary, earnings: seq<Earning>, earning: Earning, spans: Spans)
    requires ArePeriods(summary, earnings, spans)
    ensures ArePeriods(WithEarning(summary, earning, spans), earnings + [earning], spans)
  {
    OneMoreEarning(earnings, earning, spans.day, spans.day + 1);
    OneMoreEarning(earnings, earning, spans.week, spans.week + 7);
    OneMoreEarning(earnings, earning, spans.month, spans.nextMonth);
  }

  lemma SummaryWeekdaysKeep(summary: Summary, earnings: seq<Earning>, earning: Earning, spans: Spans)
    requires AreWeekdays(summary.weekdays, earnings, spans.week)
    ensures AreWeekdays(WithEarning(summary, earning, spans).weekdays, earnings + [earning], spans.week)
  {
    WeekdaysKeep(summary.weekdays, earnings, earning, spans.week);
  }

  lemma SummaryMonthWeeksKeep(summary: Summary, earnings: seq<Earning>, earning: Earning, spans: Spans)
    requires AreMonthWeeks(summary.monthWeeks, earnings, spans.month, spans.nextMonth)
    ensures AreMonthWeeks(WithEarning(summary, earning, spans).monthWeeks, earnings + [earning], spans.month, spans.nextMonth)
  {
    MonthWeeksKeep(summary.monthWeeks, earnings, earning, spans.month, spans.nextMonth);
  }

  lemma WithEarningSummarizes(summary: Summary, earnings: seq<Earning>, earning: Earning, spans: Spans)
    requires IsSummaryOf(summary, earnings, spans)
    ensures IsSummaryOf(WithEarning(summary, earning, spans), earnings + [earning], spans)
  {
    PeriodsKeep(summary, earnings, earning, spans);
    SummaryWeekdaysKeep(summary, earnings, earning, spans);
    SummaryMonthWeeksKeep(summary, earnings, earning, spans);
  }

  /** Go's bucket index for a day of the week is its distance from Monday. */
  lemma WeekdayIndex(day: int, today: int)
    requires WeekStart(today) <= day < WeekStart(today) + 7
    ensures (Weekday(day) + 6) % 7 == day - WeekStart(today)
  {
  }

  /** Where an entry counts; `monthDay` is its day of the month, counted from zero. */
  datatype Place = Place(isToday: bool, inWeek: bool, weekday: int, inMonth: bool, monthDay: int)

  predicate IsPlaceOf(place: Place, day: int, spans: Spans) {
    && (place.isToday <==> day == spans.day)
    && (place.inWeek <==> spans.week <= day < spans.week + 7)
    && (place.inMonth <==> spans.month <= day < spans.nextMonth)
    && (place.inWeek ==> place.weekday == day - spans.week)
    && (place.inMonth ==> place.monthDay == day - spans.month)
  }

  /** The conditions and indices of the loop. */
  method Locate(time: LocalTime, today: Date, spans: Spans) returns (place: Place)
    requires spans == SpansOf(today)
    ensures IsPlaceOf(place, DayNumber(time.date), spans)
  {
    var inWeek, weekday := LocateInWeek(DayNumber(time.date), time.second, spans.day);
    var inMonth := IsBetween(DayNumber(time.date), time.second, spans.month, spans.nextMonth);
    if inMonth {
      MonthOfDay(time.date, MonthIndex(today));
    }
    SameDay(time.date, today);
    place := Place(time.date == today, inWeek, weekday, inMonth, time.date.day - 1);
  }

  /** Comparing instants with midnights compares days. */
  method IsBetween(day: int, second: nat, from: int, until: int) returns (between: bool)
    requires second < DAY_SECONDS
    ensures between <==> from <= day < until
  {
    between := !(Seconds(day, second) < Seconds(from, 0)) && Seconds(day, second) < Seconds(until, 0);
  }

  method LocateInWeek(day: int, second: nat, today: int) returns (inWeek: bool, weekday: int)
    requires second < DAY_SECONDS
    ensures inWeek <==> WeekStart(today) <= day < WeekStart(today) + 7
    ensures inWeek ==> weekday == day - WeekStart(today)
  {
    inWeek := IsBetween(day, second, WeekStart(today), WeekStart(today) + 7);
    weekday := (Weekday(day) + 6) % 7;
    if inWeek {
      WeekdayIndex(day, today);
    }
  }

  method Add(summary: Summary, place: Place, amount: Int64) returns (after: Summary)
    ensures forall day, spans :: IsPlaceOf(place, day, spans) ==> after == WithEarning(summary, Earning(day, amount), spans)
  {
    after := summary;
    if place.inMonth {
      after := after.(thisMonth := AddToPeriod(after.thisMonth, amount),
                      monthWeeks := BucketAdded(after.monthWeeks, place.monthDay / 7, amount));
    }
    if place.inWeek {
      after := after.(thisWeek := AddToPeriod(after.thisWeek, amount),
                      weekdays := BucketAdded(after.weekdays, place.weekday, amount));
    }
    if place.isToday {
      after := after.(today := AddToPeriod(after.today, amount));
    }
  }

  lemma SameDay(left: Date, right: Date)
    ensures left == right <==> DayNumber(left) == DayNumber(right)
  {
    if DayNumber(left) == DayNumber(right) {
      DayNumbersAreUnique(left, right);
    }
  }

  /** One round of the loop. */
  method AddEntry(summary: Summary, entry: Entry, today: Date, spans: Spans, ghost before: seq<Entry>) returns (after: Summary)
    requires spans == SpansOf(today) && IsSummaryOf(summary, Earnings(before), spans)
    ensures IsSummaryOf(after, Earnings(before + [entry]), spans)
  {
    var place := Locate(entry.completedAt, today, spans);
    after := Add(summary, place, entry.payout);
    WithEarningSummarizes(summary, Earnings(before), EarningOf(entry), spans);
    OneMoreEntry(before, entry);
  }

  lemma OneMoreEntry(entries: seq<Entry>, entry: Entry)
    ensures Earnings(entries + [entry]) == Earnings(entries) + [EarningOf(entry)]
  {
    assert (entries + [entry])[..|entries|] == entries;
  }

  method SummarizeDriverEarnings(entries: seq<Entry>, now: LocalTime) returns (report: Summary)
    ensures IsSummaryOf(report, Earnings(entries), SpansOf(now.date))
  {
    var spans := SpansOf(now.date);
    report := Blank(spans);
    for i := 0 to |entries|
      invariant IsSummaryOf(report, Earnings(entries[..i]), spans)
    {
      report := AddEntry(report, entries[i], now.date, spans, entries[..i]);
      assert entries[..i + 1] == entries[..i] + [entries[i]];
    }
    assert entries[..|entries|] == entries;
  }

  /** Empty buckets with their start dates. */
  method Blank(spans: Spans) returns (summary: Summary)
    ensures IsSummaryOf(summary, [], spans)
  {
    var weekdays: seq<Bucket> := [];
    for i := 0 to 7
      invariant |weekdays| == i && forall j :: 0 <= j < i ==> weekdays[j] == Bucket(spans.week + j, 0, 0)
    {
      weekdays := weekdays + [Bucket(spans.week + i, 0, 0)];
    }
    var monthWeeks: seq<Bucket> := [];
    for i := 0 to 5
      invariant |monthWeeks| == i && forall j :: 0 <= j < i ==> monthWeeks[j] == Bucket(spans.month + 7 * j, 0, 0)
    {
      monthWeeks := monthWeeks + [Bucket(spans.month + 7 * i, 0, 0)];
    }
    summary := Summary(Period(0, 0), Period(0, 0), Period(0, 0), weekdays, monthWeeks);
  }

  function Amounts(buckets: seq<Bucket>): int {
    if buckets == [] then 0 else Amounts(buckets[..|buckets| - 1]) + buckets[|buckets| - 1].amount
  }

  function Trips(buckets: seq<Bucket>): nat {
    if buckets == [] then 0 else Trips(buckets[..|buckets| - 1]) + buckets[|buckets| - 1].trips
  }

  lemma {:induction false} SpansAdd(earnings: seq<Earning>, from: int, middle: int, until: int)
    requires from <= middle <= until
    ensures TotalIn(earnings, from, until) == TotalIn(earnings, from, middle) + TotalIn(earnings, middle, until)
    ensures TripsIn(earnings, from, until) == TripsIn(earnings, from, middle) + TripsIn(earnings, middle, until)
  {
    if earnings != [] {
      SpansAdd(earnings[..|earnings| - 1], from, middle, until);
    }
  }

  lemma {:induction false} EmptySpan(earnings: seq<Earning>, day: int)
    ensures TotalIn(earnings, day, day) == 0 && TripsIn(earnings, day, day) == 0
  {
    if earnings != [] {
      EmptySpan(earnings[..|earnings| - 1], day);
    }
  }

  lemma WrapSums(left: int, same: int, right: int)
    requires Wrap64(left) == Wrap64(same)
    ensures Wrap64(left + Wrap64(right)) == Wrap64(same + right)
  {
    WrapAdds(right, left);
    WrapAdds(left, right);
    WrapAdds(same, right);
  }

  /** Buckets over consecutive spans. */
  predicate Tiles(buckets: seq<Bucket>, bounds: seq<int>, earnings: seq<Earning>) {
    && |bounds| == |buckets| + 1
    && (forall i :: 0 <= i < |buckets| ==> bounds[0] <= bounds[i] <= bounds[i + 1])
    && (forall i :: 0 <= i < |buckets| ==> Period(buckets[i].amount, buckets[i].trips) == PeriodOf(earnings, bounds[i], bounds[i + 1]))
  }

  lemma {:induction false} TilesAdd(buckets: seq<Bucket>, bounds: seq<int>, earnings: seq<Earning>)
    requires Tiles(buckets, bounds, earnings)
    ensures Period(Wrap64(Amounts(buckets)), Trips(buckets)) == PeriodOf(earnings, bounds[0], bounds[|buckets|])
    decreases |buckets|
  {
    if buckets == [] {
      EmptySpan(earnings, bounds[0]);
    } else {
      var last := |buckets| - 1;
      TilesAdd(buckets[..last], bounds[..last + 1], earnings);
      SpansAdd(earnings, bounds[0], bounds[last], bounds[last + 1]);
      WrapSums(Amounts(buckets[..last]), TotalIn(earnings, bounds[0], bounds[last]), TotalIn(earnings, bounds[last], bounds[last + 1]));
    }
  }

  /** The week's buckets add up to the week and the month's to the month, amounts in int64
      and trips, and the bucket of today's weekday is today's. */
  lemma EarningsAreConserved(summary: Summary, earnings: seq<Earning>, today: Date)
    requires IsSummaryOf(summary, earnings, SpansOf(today))
    ensures summary.thisWeek == Period(Wrap64(Amounts(summary.weekdays)), Trips(summary.weekdays))
    ensures summary.thisMonth == Period(Wrap64(Amounts(summary.monthWeeks)), Trips(summary.monthWeeks))
    ensures var bucket := summary.weekdays[(Weekday(DayNumber(today)) + 6) % 7];
      bucket.start == DayNumber(today) && summary.today == Period(bucket.amount, bucket.trips)
  {
    MonthLengthInDays(today);
    SpansAreConserved(summary, earnings, SpansOf(today));
  }

  lemma SpansAreConserved(summary: Summary, earnings: seq<Earning>, spans: Spans)
    requires IsSummaryOf(summary, earnings, spans)
    requires spans.week == WeekStart(spans.day) && 28 <= spans.nextMonth - spans.month <= 31
    ensures summary.thisWeek == Period(Wrap64(Amounts(summary.weekdays)), Trips(summary.weekdays))
    ensures summary.thisMonth == Period(Wrap64(Amounts(summary.monthWeeks)), Trips(summary.monthWeeks))
    ensures var bucket := summary.weekdays[(Weekday(spans.day) + 6) % 7];
      bucket.start == spans.day && summary.today == Period(bucket.amount, bucket.trips)
  {
    WeekStartIsMonday(spans.day);
    WeekAddsUp(summary.weekdays, earnings, spans.week);
    MonthAddsUp(summary.monthWeeks, earnings, spans.month, spans.nextMonth);
    assert IsBucket(summary.weekdays[spans.day - spans.week], earnings, spans.day, spans.day + 1);
  }

  lemma MonthLengthInDays(today: Date)
    ensures 28 <= SpansOf(today).nextMonth - SpansOf(today).month <= 31
  {
    NextMonth(MonthIndex(today));
  }

  lemma WeekAddsUp(buckets: seq<Bucket>, earnings: seq<Earning>, week: int)
    requires AreWeekdays(buckets, earnings, week)
    ensures PeriodOf(earnings, week, week + 7) == Period(Wrap64(Amounts(buckets)), Trips(buckets))
  {
    TilesAdd(buckets, [week, week + 1, week + 2, week + 3, week + 4, week + 5, week + 6, week + 7], earnings);
  }

  lemma MonthAddsUp(buckets: seq<Bucket>, earnings: seq<Earning>, month: int, nextMonth: int)
    requires AreMonthWeeks(buckets, earnings, month, nextMonth) && 28 <= nextMonth - month <= 31
    ensures PeriodOf(earnings, month, nextMonth) == Period(Wrap64(Amounts(buckets)), Trips(buckets))
  {
    TilesAdd(buckets, [month, month + 7, month + 14, month + 21, month + 28, nextMonth], earnings);
  }
}
