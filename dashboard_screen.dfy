/** The home dashboard: greeting, counters, today's earnings and the first active bookings. */
module DashboardScreen {
  import opened SeqUtil
  import opened CivilTime
  import opened AppContext

  const ActiveStatuses: seq<BookingStatus> := [Pending, Active, InProgress]

  /** `getBookingsByStatus(['pending', 'active', 'in_progress'])`: the bookings still open. */
  function ActiveBookings(bookings: seq<Booking>): (r: seq<Booking>)
    ensures forall i :: 0 <= i < |r| ==> r[i] in bookings && r[i].status != Completed && r[i].status != Cancelled
    ensures forall i :: 0 <= i < |bookings| && bookings[i].status != Completed && bookings[i].status != Cancelled
              ==> bookings[i] in r
    ensures forall x {:trigger multiset(r)[x]} :: multiset(r)[x] == if x.status != Completed && x.status != Cancelled then multiset(bookings)[x] else 0
    ensures IsSubseq(r, bookings)
  {
    assert forall s: BookingStatus :: s != Completed && s != Cancelled ==> s in ActiveStatuses;
    ByStatus(bookings, Many(ActiveStatuses))
  }

  function PendingCount(bookings: seq<Booking>): nat {
    |ByStatus(bookings, One(Pending))|
  }

  function ActiveCount(bookings: seq<Booking>): nat {
    |ByStatus(bookings, Many([Active, InProgress]))|
  }

  /** The card's counter `pendingCount + activeCount` is the number of open bookings. */
  lemma CountsAddUp(bookings: seq<Booking>)
    ensures PendingCount(bookings) + ActiveCount(bookings) == |ActiveBookings(bookings)|
  {
    FilterDisjointCount(bookings, HasStatusIn([Pending]), HasStatusIn([Active, InProgress]), HasStatusIn(ActiveStatuses));
  }

  datatype Greeting = Morning | Afternoon | Evening

  /** `getGreeting`. */
  function GreetingAt(hour: int): Greeting {
    if hour < 12 then Morning else if hour < 17 then Afternoon else Evening
  }

  function GreetingKey(g: Greeting): string {
    match g
    case Morning => "goodMorning"
    case Afternoon => "goodAfternoon"
    case Evening => "goodEvening"
  }

  /** The greeting splits the day at noon and at 17:00, and each hour of the clock gets one. */
  lemma GreetingThresholds(c: Clock)
    requires ValidClock(c)
    ensures GreetingAt(Hour(c)) == Morning <==> Hour(c) < 12
    ensures GreetingAt(Hour(c)) == Afternoon <==> 12 <= Hour(c) < 17
    ensures GreetingAt(Hour(c)) == Evening <==> 17 <= Hour(c) <= 23
  {
  }

  /** `activeBookings.slice(0, 3)`: the first three open bookings, in store order. */
  function ShownBookings(bookings: seq<Booking>): (r: seq<Booking>)
    ensures |r| <= 3 && r <= ActiveBookings(bookings)
    ensures |ActiveBookings(bookings)| >= 3 ==> |r| == 3
    ensures |ActiveBookings(bookings)| < 3 ==> r == ActiveBookings(bookings)
  {
    Take(ActiveBookings(bookings), 3)
  }
}
