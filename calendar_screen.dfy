/** The calendar tab: bookings grouped by date, the day's route list filtered and sorted by time,
    the month grid, month navigation, and the distance shown before each route stop. */
module CalendarScreen {
  import opened Wrappers
  import opened SeqUtil
  import opened StableSort
  import opened CivilTime
  import opened AppContext
  import opened Text

  // ---------------------------------------------------------------- grouping by date

  /** `groups` holds, for every present or future date that has a booking, the bookings of that
      date in store order, and nothing else. */
  ghost predicate IsDateGrouping(groups: map<CivilDate, seq<Booking>>, bookings: seq<Booking>, today: CivilDate) {
    && (forall d :: d in groups <==> DateLe(today, d) && OnDate(bookings, d) != [])
    && (forall d :: d in groups ==> groups[d] == OnDate(bookings, d))
  }

  /** `bookingsByDate`: the `forEach` that pushes each present or future booking onto the list of
      its date. */
  method BookingsByDate(bookings: seq<Booking>, today: CivilDate) returns (groups: map<CivilDate, seq<Booking>>)
    ensures IsDateGrouping(groups, bookings, today)
  {
    groups := map[];
    var i := 0;
    while i < |bookings|
      invariant 0 <= i <= |bookings|
      invariant IsDateGrouping(groups, bookings[..i], today)
    {
      GroupingStep(groups, bookings[..i], bookings[i], today);
      groups := Push(groups, bookings[i], today);
      assert bookings[..i + 1] == bookings[..i] + [bookings[i]];
      i := i + 1;
    }
    assert bookings[..|bookings|] == bookings;
  }

  /** The body of the `forEach`: a present or future booking goes to the end of its date's list,
      which is created when missing. */
  function Push(groups: map<CivilDate, seq<Booking>>, b: Booking, today: CivilDate): map<CivilDate, seq<Booking>> {
    if DateLe(today, b.scheduledDate)
    then groups[b.scheduledDate := (if b.scheduledDate in groups then groups[b.scheduledDate] else []) + [b]]
    else groups
  }

  /** One step of the `forEach` keeps the grouping exact. */
  lemma GroupingStep(groups: map<CivilDate, seq<Booking>>, prefix: seq<Booking>, b: Booking, today: CivilDate)
    requires IsDateGrouping(groups, prefix, today)
    ensures IsDateGrouping(Push(groups, b, today), prefix + [b], today)
  {
    var g := Push(groups, b, today);
    forall d ensures OnDate(prefix + [b], d) == OnDate(prefix, d) + (if b.scheduledDate == d then [b] else []) {
      FilterSnoc(prefix, b, IsScheduledOn(d));
    }
    forall d ensures d in g <==> DateLe(today, d) && OnDate(prefix + [b], d) != [] {
      if d == b.scheduledDate {
        assert OnDate(prefix + [b], d) != [];
      }
    }
    forall d | d in g ensures g[d] == OnDate(prefix + [b], d) {
      if d == b.scheduledDate && d !in groups {
        assert OnDate(prefix, d) == [];
      }
    }
  }

  /** Each present or future booking sits in the group of its own date and in no other; past
      bookings sit in none. */
  lemma GroupOfEachBooking(groups: map<CivilDate, seq<Booking>>, bookings: seq<Booking>, today: CivilDate,
                           b: Booking, d: CivilDate)
    requires IsDateGrouping(groups, bookings, today)
    requires b in bookings
    ensures (d in groups && b in groups[d]) <==> (d == b.scheduledDate && DateLe(today, d))
  {
    var k :| 0 <= k < |bookings| && bookings[k] == b;
    if d == b.scheduledDate && DateLe(today, d) {
      assert b in OnDate(bookings, d);
    }
  }

  // ---------------------------------------------------------------- the route filter

  datatype RouteFilter = AcceptedOnly | AllPending

  /** 'accepted' keeps `active`/`in_progress`; 'all' keeps everything not completed or
      cancelled. */
  function KeepsForRoute(f: RouteFilter): Booking -> bool {
    match f
    case AcceptedOnly => (b: Booking) => b.status == Active || b.status == InProgress
    case AllPending => (b: Booking) => b.status != Completed && b.status != Cancelled
  }

  /** `selectedDateBookings`: the selected date's group (or none), filtered. */
  function SelectedDateBookings(groups: map<CivilDate, seq<Booking>>, selected: CivilDate, f: RouteFilter): seq<Booking> {
    Filter(if selected in groups then groups[selected] else [], KeepsForRoute(f))
  }

  /** Read through the grouping, the route list is the store's bookings of the selected date that
      pass the filter, and empty for a past date. */
  lemma SelectedFromStore(groups: map<CivilDate, seq<Booking>>, bookings: seq<Booking>, today: CivilDate,
                          selected: CivilDate, f: RouteFilter)
    requires IsDateGrouping(groups, bookings, today)
    ensures SelectedDateBookings(groups, selected, f)
         == if DateLe(today, selected) then Filter(OnDate(bookings, selected), KeepsForRoute(f)) else []
  {
    if selected !in groups && DateLe(today, selected) {
      assert OnDate(bookings, selected) == [];
    }
  }

  /** The 'accepted' list keeps exactly `active`/`in_progress`, the 'all' list exactly `pending`,
      `active`, `in_progress`; and the first is a subsequence of the second. */
  lemma AcceptedWithinAll(groups: map<CivilDate, seq<Booking>>, selected: CivilDate)
    ensures var acc := SelectedDateBookings(groups, selected, AcceptedOnly);
      forall i :: 0 <= i < |acc| ==> acc[i].status in {Active, InProgress}
    ensures var all := SelectedDateBookings(groups, selected, AllPending);
      forall i :: 0 <= i < |all| ==> all[i].status in {Pending, Active, InProgress}
    ensures IsSubseq(SelectedDateBookings(groups, selected, AcceptedOnly),
                     SelectedDateBookings(groups, selected, AllPending))
  {
    var group := if selected in groups then groups[selected] else [];
    FilterMonotone(group, KeepsForRoute(AllPending), KeepsForRoute(AcceptedOnly));
  }

  // ---------------------------------------------------------------- time parse and sort

  /** A label of the form `HH:MM AM` or `HH:MM PM`, the form every `scheduledTime` has. */
  predicate IsTimeLabel(s: string) {
    && |s| == 8
    && IsDigit(s[0]) && IsDigit(s[1]) && s[2] == ':' && IsDigit(s[3]) && IsDigit(s[4])
    && s[5] == ' ' && (s[6] == 'A' || s[6] == 'P') && s[7] == 'M'
  }

  /** The comparator's rule: PM adds twelve hours unless the hour is 12; AM never changes the
      hour, so 12 AM counts as noon. */
  function MinutesOfDay(hours: int, minutes: int, isPM: bool): (r: int)
    ensures 1 <= hours <= 12 && 0 <= minutes < 60 ==> 60 <= r < 24 * 60
  {
    (if isPM && hours != 12 then hours + 12 else hours) * 60 + minutes
  }

  /** Strips the meridiem, splits at `:` and reads both halves as numbers. */
  function ParseTime(s: string): (r: Option<int>)
    ensures r.Some? <==> IsTimeLabel(s)
  {
    if IsTimeLabel(s) then
      Some(MinutesOfDay(10 * DigitValue(s[0]) + DigitValue(s[1]),
                        10 * DigitValue(s[3]) + DigitValue(s[4]),
                        s[6] == 'P'))
    else None
  }

  /** The label of hour `h` and minute `m`, zero-padded, with its meridiem. */
  function TimeLabel(h: int, m: int, pm: bool): (s: string)
    requires 0 <= h < 100 && 0 <= m < 100
    ensures IsTimeLabel(s)
  {
    [DigitChar(h / 10), DigitChar(h % 10), ':', DigitChar(m / 10), DigitChar(m % 10), ' ',
     if pm then 'P' else 'A', 'M']
  }

  /** A label reads as the minutes of its own hour and minute under the comparator's rule. */
  lemma ParseTimeLabel(h: int, m: int, pm: bool)
    requires 0 <= h < 100 && 0 <= m < 100
    ensures ParseTime(TimeLabel(h, m, pm)) == Some(MinutesOfDay(h, m, pm))
  {
    var s := TimeLabel(h, m, pm);
    assert 10 * DigitValue(s[0]) + DigitValue(s[1]) == h;
    assert 10 * DigitValue(s[3]) + DigitValue(s[4]) == m;
  }

  /** Every label that parses is the label of the hour and minute it is read as. */
  lemma LabelOfParse(s: string)
    requires IsTimeLabel(s)
    ensures var h, m := 10 * DigitValue(s[0]) + DigitValue(s[1]), 10 * DigitValue(s[3]) + DigitValue(s[4]);
      s == TimeLabel(h, m, s[6] == 'P') && ParseTime(s) == Some(MinutesOfDay(h, m, s[6] == 'P'))
  {
    var h, m := 10 * DigitValue(s[0]) + DigitValue(s[1]), 10 * DigitValue(s[3]) + DigitValue(s[4]);
    assert h / 10 == DigitValue(s[0]) && h % 10 == DigitValue(s[1]);
    assert m / 10 == DigitValue(s[3]) && m % 10 == DigitValue(s[4]);
    assert DigitChar(DigitValue(s[0])) == s[0] && DigitChar(DigitValue(s[1])) == s[1];
    assert DigitChar(DigitValue(s[3])) == s[3] && DigitChar(DigitValue(s[4])) == s[4];
  }

  /** `12:00 AM` and `12:00 PM` both read as 720 minutes; `01:30 PM` reads as 810. */
  lemma TwelveAmIsNoon()
    ensures ParseTime("12:00 AM") == Some(720)
    ensures ParseTime("12:00 PM") == Some(720)
    ensures ParseTime("01:30 PM") == Some(810)
  {
  }

  /** Within one half of the day (hours 1..11), later labels read as later times, and every PM
      label with hour 1..11 reads later than every AM label. */
  lemma MinutesOrder(h1: int, m1: int, h2: int, m2: int, pm: bool)
    requires 1 <= h1 <= 11 && 1 <= h2 <= 11 && 0 <= m1 < 60 && 0 <= m2 < 60
    ensures (h1, m1) != (h2, m2) && (h1 < h2 || (h1 == h2 && m1 < m2)) ==>
              MinutesOfDay(h1, m1, pm) < MinutesOfDay(h2, m2, pm)
    ensures MinutesOfDay(h1, m1, false) < MinutesOfDay(h2, m2, true)
  {
  }

  /** The sort key of a booking. */
  function TimeKey(b: Booking): int {
    ParseTime(b.scheduledTime).GetOr(0)
  }

  /** `[...selectedDateBookings].sort(byTime)`: a stably sorted permutation of the day's list
      (the list itself is a value and is left as it was). */
  function SortedBookings(selected: seq<Booking>): (r: seq<Booking>)
    requires forall i :: 0 <= i < |selected| ==> IsTimeLabel(selected[i].scheduledTime)
    ensures multiset(r) == multiset(selected)
    ensures forall i, j :: 0 <= i < j < |r| ==> TimeKey(r[i]) <= TimeKey(r[j])
    ensures forall k :: Filter(r, KeyIs(TimeKey, k)) == Filter(selected, KeyIs(TimeKey, k))
  {
    var r := SortBy(selected, TimeKey);
    assert forall k :: Filter(r, KeyIs(TimeKey, k)) == Filter(selected, KeyIs(TimeKey, k)) by {
      forall k ensures Filter(r, KeyIs(TimeKey, k)) == Filter(selected, KeyIs(TimeKey, k)) {
        SortStable(selected, TimeKey, k);
      }
    }
    r
  }

  /** A booking that differs from `b` only in its time label. */
  function At(b: Booking, time: string): Booking {
    b.(scheduledTime := time)
  }

  /** The sort keys of the three example stops. */
  lemma ExampleKeys(b: Booking)
    ensures TimeKey(At(b, "09:00 AM")) == 540
    ensures TimeKey(At(b, "02:00 PM")) == 840
    ensures TimeKey(At(b, "11:30 AM")) == 690
  {
  }

  /** Stops at 09:00 AM, 02:00 PM and 11:30 AM run in the order 09:00, 11:30, 14:00. */
  lemma RouteOrderExample(b: Booking)
    ensures var first, second, third := At(b, "09:00 AM"), At(b, "02:00 PM"), At(b, "11:30 AM");
      SortedBookings([first, second, third]) == [first, third, second]
  {
    var first, second, third := At(b, "09:00 AM"), At(b, "02:00 PM"), At(b, "11:30 AM");
    ExampleKeys(b);
    var one := SortBy([first], TimeKey);
    assert [first][..0] == [];
    assert one == [first];
    var two := SortBy([first, second], TimeKey);
    assert [first, second][..1] == [first];
    assert two == Insert([first], second, TimeKey);
    assert two == [first, second];
    assert [first, second, third][..2] == [first, second];
    assert [first, second][..1] == [first];
    assert Insert([first], third, TimeKey) == [first, third];
    assert Insert([first, second], third, TimeKey) == [first, third, second];
  }

  // ---------------------------------------------------------------- the month grid

  /** `getDaysInMonth`: the weekday of the 1st and the number of days. */
  datatype MonthShape = MonthShape(firstDay: int, daysInMonth: int)

  function GetDaysInMonth(month: CivilDate): (r: MonthShape)
    requires 1 <= month.month <= 12
    ensures r.firstDay == Weekday(FirstOfMonth(month))
    ensures 0 <= r.firstDay < 7
    ensures 28 <= r.daysInMonth <= 31
    ensures month.month == 2 ==> (r.daysInMonth == 29 <==> IsLeapYear(month.year))
    ensures r.daysInMonth == DayNumber(ShiftMonth(month, 1)) - DayNumber(FirstOfMonth(month))
  {
    MonthLength(month);
    MonthShape(Weekday(FirstOfMonth(month)), DaysInMonth(month.year, month.month))
  }

  /** October 2026 opens on a Thursday and has 31 days. */
  lemma MonthShapeExample()
    ensures GetDaysInMonth(CivilDate(2026, 10, 14)) == MonthShape(4, 31)
  {
    assert DaysBeforeYear(2026) == 739616;
    assert DaysBeforeMonth(2026, 2) == 31;
    assert DaysBeforeMonth(2026, 4) == 90;
    assert DaysBeforeMonth(2026, 6) == 151;
    assert DaysBeforeMonth(2026, 8) == 212;
    assert DaysBeforeMonth(2026, 10) == 273;
    assert Weekday(CivilDate(2026, 10, 1)) == 4;
  }

  /** February 2024, in a leap year, opens on a Thursday and has 29 days. */
  lemma LeapMonthShapeExample()
    ensures GetDaysInMonth(CivilDate(2024, 2, 1)) == MonthShape(4, 29)
  {
    assert DaysBeforeYear(2024) == 738885;
    assert Weekday(CivilDate(2024, 2, 1)) == 4;
  }

  datatype DayCell =
    | Blank
    | Day(day: int, date: CivilDate, dots: seq<BookingStatus>, isSelected: bool, isToday: bool)

  function StatusesOf(bookings: seq<Booking>): (r: seq<BookingStatus>)
    ensures |r| == |bookings|
    ensures forall i :: 0 <= i < |r| ==> r[i] == bookings[i].status
  {
    seq(|bookings|, i requires 0 <= i < |bookings| => bookings[i].status)
  }

  /** The status dots of a date: those of its first three bookings. */
  function Dots(groups: map<CivilDate, seq<Booking>>, date: CivilDate): (r: seq<BookingStatus>)
    ensures |r| <= 3
    ensures date in groups ==> |r| <= |groups[date]| && r == StatusesOf(groups[date])[..|r|]
    ensures date in groups && |groups[date]| >= 3 ==> |r| == 3
    ensures date in groups && |groups[date]| < 3 ==> r == StatusesOf(groups[date])
    ensures date !in groups ==> r == []
  {
    if date in groups && |groups[date]| > 0 then StatusesOf(Take(groups[date], 3)) else []
  }

  /** Over the screen's grouping, a date shows the statuses of its first three bookings in store
      order when it is today or later, and no dots before today. */
  lemma DotsFromStore(groups: map<CivilDate, seq<Booking>>, bookings: seq<Booking>, today: CivilDate, d: CivilDate)
    requires IsDateGrouping(groups, bookings, today)
    ensures Dots(groups, d) == if DateLe(today, d) then StatusesOf(Take(OnDate(bookings, d), 3)) else []
  {
    if d !in groups && DateLe(today, d) {
      assert OnDate(bookings, d) == [];
    }
  }

  /** The cell of day `day` of `month`. */
  function DayCellFor(month: CivilDate, day: int, groups: map<CivilDate, seq<Booking>>,
                      selected: CivilDate, today: CivilDate): DayCell
  {
    var date := CivilDate(month.year, month.month, day);
    Day(day, date, Dots(groups, date), date == selected, date == today)
  }

  /** `renderCalendarDays`: `firstDay` blank cells, then one cell per day of the month. */
  method RenderCalendarDays(month: CivilDate, groups: map<CivilDate, seq<Booking>>,
                            selected: CivilDate, today: CivilDate) returns (cells: seq<DayCell>)
    requires 1 <= month.month <= 12
    ensures var shape := GetDaysInMonth(month);
      && |cells| == shape.firstDay + shape.daysInMonth
      && (forall i :: 0 <= i < shape.firstDay ==> cells[i] == Blank)
      && (forall j :: shape.firstDay <= j < |cells| ==>
            cells[j] == DayCellFor(month, j - shape.firstDay + 1, groups, selected, today))
  {
    var shape := GetDaysInMonth(month);
    var firstDay, days := shape.firstDay, shape.daysInMonth;
    cells := [];
    var i := 0;
    while i < firstDay
      invariant 0 <= i <= firstDay
      invariant cells == seq(i, _ => Blank)
    {
      cells := cells + [Blank];
      i := i + 1;
    }
    var day := 1;
    while day <= days
      invariant 1 <= day <= days + 1
      invariant |cells| == firstDay + day - 1
      invariant forall j :: 0 <= j < firstDay ==> cells[j] == Blank
      invariant forall j :: firstDay <= j < |cells| ==>
                  cells[j] == DayCellFor(month, j - firstDay + 1, groups, selected, today)
    {
      var cell := DayCellFor(month, day, groups, selected, today);
      cells := cells + [cell];
      day := day + 1;
    }
  }

  /** Every day cell is a valid date of the month shown and carries at most three dots. */
  lemma DayCellsAreTheMonth(month: CivilDate, groups: map<CivilDate, seq<Booking>>,
                            selected: CivilDate, today: CivilDate, k: int)
    requires 1 <= month.month <= 12
    requires 0 <= k < GetDaysInMonth(month).daysInMonth
    ensures var c := DayCellFor(month, k + 1, groups, selected, today);
      ValidDate(c.date) && c.date.year == month.year && c.date.month == month.month && |c.dots| <= 3
  {
  }

  // ---------------------------------------------------------------- month navigation

  /** The calendar's own state. */
  class CalendarView {
    var currentMonth: CivilDate
    var selectedDate: CivilDate
    var routeFilter: RouteFilter

    /** The month shown is held as the 1st of that month. */
    ghost predicate Valid()
      reads this
    {
      currentMonth.day == 1 && 1 <= currentMonth.month <= 12
    }

    /** Opens on this month, with today selected and the 'accepted' filter. */
    constructor (c: Clock)
      requires ValidClock(c)
      ensures Valid()
      ensures currentMonth == FirstOfMonth(c.date) && selectedDate == c.date && routeFilter == AcceptedOnly
    {
      currentMonth := FirstOfMonth(c.date);
      selectedDate := c.date;
      routeFilter := AcceptedOnly;
    }

    method PreviousMonth()
      requires Valid()
      modifies this
      ensures Valid()
      ensures currentMonth == ShiftMonth(old(currentMonth), -1)
      ensures MonthIndex(currentMonth) == MonthIndex(old(currentMonth)) - 1
      ensures selectedDate == old(selectedDate) && routeFilter == old(routeFilter)
    {
      currentMonth := ShiftMonth(currentMonth, -1);
    }

    method NextMonth()
      requires Valid()
      modifies this
      ensures Valid()
      ensures currentMonth == ShiftMonth(old(currentMonth), 1)
      ensures MonthIndex(currentMonth) == MonthIndex(old(currentMonth)) + 1
      ensures selectedDate == old(selectedDate) && routeFilter == old(routeFilter)
    {
      currentMonth := ShiftMonth(currentMonth, 1);
    }

    /** Pressing a day cell selects its date. */
    method SelectDate(date: CivilDate)
      modifies this
      ensures selectedDate == date
      ensures currentMonth == old(currentMonth) && routeFilter == old(routeFilter)
    {
      selectedDate := date;
    }

    method SetRouteFilter(f: RouteFilter)
      modifies this
      ensures routeFilter == f
      ensures currentMonth == old(currentMonth) && selectedDate == old(selectedDate)
    {
      routeFilter := f;
    }
  }

  /** Next and then previous (or the reverse) shows the month it started on. */
  method NavigateAndBack(view: CalendarView)
    requires view.Valid()
    modifies view
    ensures view.Valid() && view.currentMonth == old(view.currentMonth)
  {
    ShiftMonthUndo(view.currentMonth);
    view.NextMonth();
    view.PreviousMonth();
  }

  // ---------------------------------------------------------------- route legs

  datatype Coord = Coord(latitude: real, longitude: real)

  function StopOf(b: Booking): Coord { Coord(b.latitude, b.longitude) }
  function HomeOf(op: Operator): Coord { Coord(op.homeLatitude, op.homeLongitude) }

  /** The distance and whether it is measured from home. */
  datatype Leg = Leg(distance: real, isFromHome: bool)

  /** `getDistanceToBooking(booking, index)` over `sortedBookings`, where `dist` stands for the
      haversine `calculateDistance`. */
  function DistanceToBooking(sorted: seq<Booking>, index: int, operator: Option<Operator>,
                             dist: (Coord, Coord) -> real): (leg: Leg)
    requires 0 <= index < |sorted|
    ensures leg.isFromHome <==> index == 0 && operator.Some?
    ensures index == 0 && operator.Some? ==> leg.distance == dist(HomeOf(operator.value), StopOf(sorted[0]))
    ensures index > 0 ==> leg.distance == dist(StopOf(sorted[index - 1]), StopOf(sorted[index]))
    ensures index == 0 && operator.None? ==> leg.distance == 0.0
  {
    if index == 0 && operator.Some? then
      Leg(dist(HomeOf(operator.value), StopOf(sorted[index])), true)
    else if index > 0 then
      Leg(dist(StopOf(sorted[index - 1]), StopOf(sorted[index])), false)
    else
      Leg(0.0, false)
  }

  /** An itinerary built by walking the stops in order, carrying the previous point (home, or
      nothing, before the first stop). */
  function Walk(stops: seq<Booking>, previous: Option<Coord>, first: bool, dist: (Coord, Coord) -> real): (legs: seq<Leg>)
    ensures |legs| == |stops|
    decreases |stops|
  {
    if stops == [] then []
    else
      var here := StopOf(stops[0]);
      [Leg(if previous.Some? then dist(previous.value, here) else 0.0, first && previous.Some?)]
        + Walk(stops[1..], Some(here), false, dist)
  }

  function StartPoint(operator: Option<Operator>): Option<Coord> {
    if operator.Some? then Some(HomeOf(operator.value)) else None
  }

  /** The point the walk carries when it reaches stop `j`. */
  function PreviousPoint(sorted: seq<Booking>, j: int, operator: Option<Operator>): Option<Coord>
    requires 0 <= j <= |sorted|
  {
    if j == 0 then StartPoint(operator) else Some(StopOf(sorted[j - 1]))
  }

  lemma {:induction false} WalkSuffix(sorted: seq<Booking>, operator: Option<Operator>,
                                      dist: (Coord, Coord) -> real, j: int, i: int)
    requires 0 <= j <= i < |sorted|
    ensures Walk(sorted[j..], PreviousPoint(sorted, j, operator), j == 0, dist)[i - j]
         == DistanceToBooking(sorted, i, operator, dist)
    decreases i - j
  {
    if j < i {
      assert sorted[j..][1..] == sorted[j + 1..];
      WalkSuffix(sorted, operator, dist, j + 1, i);
    }
  }

  /** The leg the screen computes for each stop by index is the leg of the walk from home
      through the stops in sorted order. */
  lemma LegsFollowTheWalk(sorted: seq<Booking>, operator: Option<Operator>, dist: (Coord, Coord) -> real, i: int)
    requires 0 <= i < |sorted|
    ensures Walk(sorted, StartPoint(operator), true, dist)[i] == DistanceToBooking(sorted, i, operator, dist)
  {
    assert sorted[0..] == sorted;
    WalkSuffix(sorted, operator, dist, 0, i);
  }
}
