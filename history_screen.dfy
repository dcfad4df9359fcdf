/** The history tab: completed bookings narrowed to a time window. */
module HistoryScreen {
  import opened SeqUtil
  import opened CivilTime
  import opened AppContext

  datatype HistoryFilter = All | SevenDays | ThisMonth | ThreeMonths

  /** The screen opens on 'all'. */
  const InitialFilter: HistoryFilter := All

  /** The window's start: seven or ninety days before now, or midnight of the 1st of this month. */
  function WindowStart(f: HistoryFilter, c: Clock): int
    requires ValidClock(c)
    requires f != All
  {
    match f
    case SevenDays => NowMs(c) - 7 * MS_PER_DAY
    case ThisMonth => MonthStart(c)
    case ThreeMonths => NowMs(c) - 90 * MS_PER_DAY
  }

  function PlacedSince(start: int): Booking -> bool {
    (b: Booking) => PlacedAtOrAfter(b, start)
  }

  /** `filterBookings`: 'all' returns the list itself; a window keeps, in order, exactly the
      bookings placed at or after its start. */
  function FilterBookings(bookings: seq<Booking>, f: HistoryFilter, c: Clock): (r: seq<Booking>)
    requires ValidClock(c)
    ensures f == All ==> r == bookings
    ensures IsSubseq(r, bookings)
    ensures f != All ==> forall i :: 0 <= i < |r| ==> r[i] in bookings && PlacedAtOrAfter(r[i], WindowStart(f, c))
    ensures f != All ==>
              forall i :: 0 <= i < |bookings| && PlacedAtOrAfter(bookings[i], WindowStart(f, c)) ==> bookings[i] in r
    ensures f != All ==>
              forall x {:trigger multiset(r)[x]} :: multiset(r)[x] == if PlacedAtOrAfter(x, WindowStart(f, c)) then multiset(bookings)[x] else 0
  {
    if f == All then
      SubseqRefl(bookings);
      bookings
    else
      FilterIsSubseq(bookings, PlacedSince(WindowStart(f, c)));
      forall x {
        FilterMultiplicity(bookings, PlacedSince(WindowStart(f, c)), x);
      }
      Filter(bookings, PlacedSince(WindowStart(f, c)))
  }

  /** What the screen lists: the store's completed bookings, filtered. */
  function History(bookings: seq<Booking>, f: HistoryFilter, c: Clock): (r: seq<Booking>)
    requires ValidClock(c)
    ensures r == FilterBookings(ByStatus(bookings, One(Completed)), f, c)
    ensures forall i :: 0 <= i < |r| ==> r[i].status == Completed && r[i] in bookings
    ensures forall i :: 0 <= i < |bookings| && bookings[i].status == Completed &&
                        (f == All || PlacedAtOrAfter(bookings[i], WindowStart(f, c)))
              ==> bookings[i] in r
    ensures |r| <= |ByStatus(bookings, One(Completed))|
  {
    var completed := ByStatus(bookings, One(Completed));
    var r := FilterBookings(completed, f, c);
    SubseqLength(r, completed);
    r
  }

  /** The last seven days are within the last three months: the 7-day list is a subsequence of
      the 3-month list. */
  lemma SevenDaysWithinThreeMonths(bookings: seq<Booking>, c: Clock)
    requires ValidClock(c)
    ensures IsSubseq(FilterBookings(bookings, SevenDays, c), FilterBookings(bookings, ThreeMonths, c))
    ensures |FilterBookings(bookings, SevenDays, c)| <= |FilterBookings(bookings, ThreeMonths, c)|
  {
    FilterMonotone(bookings, PlacedSince(WindowStart(ThreeMonths, c)), PlacedSince(WindowStart(SevenDays, c)));
    SubseqLength(FilterBookings(bookings, SevenDays, c), FilterBookings(bookings, ThreeMonths, c));
  }

  /** A booking completed today (or, without a timestamp, scheduled today) is listed under every
      filter. */
  lemma TodayIsInEveryWindow(bookings: seq<Booking>, f: HistoryFilter, c: Clock, i: int)
    requires ValidClock(c)
    requires 0 <= i < |bookings|
    requires PlacedAtOrAfter(bookings[i], TodayStart(c))
    ensures bookings[i] in FilterBookings(bookings, f, c)
  {
    PeriodStartsOrdered(c);
  }
}
