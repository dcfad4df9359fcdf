/** The earnings tab: the period's totals, the average per booking and recent transactions. */
module EarningsScreen {
  import opened Wrappers
  import opened SeqUtil
  import opened CivilTime
  import opened AppContext

  /** `Math.round`: the nearest integer, halves rounded up. */
  function Round(x: real): (n: int)
    ensures n as real - 0.5 <= x < n as real + 0.5
  {
    (x + 0.5).Floor
  }

  /** The average card: 0 with no bookings, else the rounded mean amount. */
  function AveragePerBooking(e: EarningsSummary): int {
    if e.count > 0 then Round(e.total as real / e.count as real) else 0
  }

  /** The rounded mean is the integer quotient (2·total + count) div (2·count), and it is the
      integer nearest the mean: count times it misses the total by at most count/2. */
  lemma AverageIsIntegerQuotient(e: EarningsSummary)
    requires e.count > 0
    ensures AveragePerBooking(e) == (2 * e.total + e.count) / (2 * e.count)
    ensures -e.count < 2 * (AveragePerBooking(e) * e.count - e.total) <= e.count
  {
    var t, c := e.total, e.count;
    var q, r := (2 * t + c) / (2 * c), (2 * t + c) % (2 * c);
    assert 2 * t + c == 2 * c * q + r && 0 <= r < 2 * c;
    var cr := c as real;
    var z := t as real / cr + 0.5;
    assert (t as real / cr) * cr == t as real;
    assert z * (2.0 * cr) == (2 * t + c) as real;
    assert (2 * t + c) as real == (q as real) * (2.0 * cr) + r as real;
    if z < q as real {
      ScaleStrict(z, q as real, 2.0 * cr);
    }
    if z >= q as real + 1.0 {
      ScaleWeak(q as real + 1.0, z, 2.0 * cr);
    }
    var n := Round(t as real / cr);
    assert q as real <= z < q as real + 1.0;
    assert n as real <= z < n as real + 1.0;
    assert n == q;
  }

  lemma ScaleStrict(a: real, b: real, k: real)
    requires a < b && k > 0.0
    ensures a * k < b * k
  {
  }

  lemma ScaleWeak(a: real, b: real, k: real)
    requires a <= b && k > 0.0
    ensures a * k <= b * k
  {
  }

  /** `completedBookings.slice(0, 10)`: the first ten completed bookings, in store order. */
  function RecentTransactions(bookings: seq<Booking>): (r: seq<Booking>)
    ensures |r| <= 10 && r <= ByStatus(bookings, One(Completed))
    ensures forall i :: 0 <= i < |r| ==> r[i].status == Completed
    ensures |ByStatus(bookings, One(Completed))| >= 10 ==> |r| == 10
    ensures |ByStatus(bookings, One(Completed))| < 10 ==> r == ByStatus(bookings, One(Completed))
  {
    Take(ByStatus(bookings, One(Completed)), 10)
  }

  /** What the three cards and the average show for a period. */
  datatype EarningsCard = EarningsCard(total: int, count: int, acres: real, average: int)

  function Displayed(bookings: seq<Booking>, p: Period, c: Clock): (card: EarningsCard)
    requires ValidClock(c)
    ensures card.count == 0 ==> card.average == 0
    ensures card.count > 0 ==> card.average == (2 * card.total + card.count) / (2 * card.count)
    ensures card.count <= |bookings|
    ensures var e := Earnings(bookings, p, c); card.total == e.total && card.count == e.count && card.acres == e.acres
  {
    var e := Earnings(bookings, p, c);
    assert e.count > 0 ==> AveragePerBooking(e) == (2 * e.total + e.count) / (2 * e.count) by {
      if e.count > 0 { AverageIsIntegerQuotient(e); }
    }
    EarningsCard(e.total, e.count, e.acres, AveragePerBooking(e))
  }

  /** The period selector's state: it opens on 'week'. */
  class EarningsView {
    var period: Period

    constructor ()
      ensures period == Week
    {
      period := Week;
    }

    method SetPeriod(p: Period)
      modifies this
      ensures period == p
    {
      period := p;
    }
  }
}
