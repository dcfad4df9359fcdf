/** The in-memory booking store of the app context: the booking and operator records, the pure
    queries over the booking list, and the store object whose session and booking fields the
    context's operations replace. */
module AppContext {
  import opened Wrappers
  import opened SeqUtil
  import opened CivilTime

  datatype BookingStatus = Pending | Active | InProgress | Completed | Cancelled
  datatype SprayType = Pesticide | Fertilizer
  datatype PaymentStatus = Paid | Unpaid

  /** One spraying job. `scheduledDate` is the calendar date of its ISO date string,
      `completedAt` the instant (ms since the Unix epoch) of its ISO timestamp. */
  datatype Booking = Booking(
    id: string,
    farmerName: string,
    farmerPhone: string,
    village: string,
    district: string,
    acreage: real,
    cropType: string,
    sprayType: SprayType,
    scheduledDate: CivilDate,
    scheduledTime: string,
    specialInstructions: Option<string>,
    amount: int,
    paymentStatus: PaymentStatus,
    status: BookingStatus,
    completedAt: Option<int>,
    latitude: real,
    longitude: real)

  datatype Operator = Operator(
    id: string,
    name: string,
    phone: string,
    email: Option<string>,
    address: Option<string>,
    licenseNumber: string,
    droneModel: string,
    droneRegistration: string,
    insuranceExpiry: string,
    homeLatitude: real,
    homeLongitude: real)

  /** A `Partial<Operator>`: each present field overrides the operator's. */
  datatype OperatorUpdate = OperatorUpdate(
    id: Option<string>,
    name: Option<string>,
    phone: Option<string>,
    email: Option<string>,
    address: Option<string>,
    licenseNumber: Option<string>,
    droneModel: Option<string>,
    droneRegistration: Option<string>,
    insuranceExpiry: Option<string>,
    homeLatitude: Option<real>,
    homeLongitude: Option<real>)

  const NoUpdate: OperatorUpdate :=
    OperatorUpdate(None, None, None, None, None, None, None, None, None, None, None)

  /** A language code of the translation table. */
  type Language = string

  /** `{ ...op, ...u }`. */
  function ApplyUpdate(op: Operator, u: OperatorUpdate): Operator {
    Operator(
      u.id.GetOr(op.id),
      u.name.GetOr(op.name),
      u.phone.GetOr(op.phone),
      if u.email.Some? then u.email else op.email,
      if u.address.Some? then u.address else op.address,
      u.licenseNumber.GetOr(op.licenseNumber),
      u.droneModel.GetOr(op.droneModel),
      u.droneRegistration.GetOr(op.droneRegistration),
      u.insuranceExpiry.GetOr(op.insuranceExpiry),
      u.homeLatitude.GetOr(op.homeLatitude),
      u.homeLongitude.GetOr(op.homeLongitude))
  }

  function Later<T>(a: Option<T>, b: Option<T>): Option<T> {
    if b.Some? then b else a
  }

  /** The update that spreads `first` and then `second`. */
  function Combine(first: OperatorUpdate, second: OperatorUpdate): OperatorUpdate {
    OperatorUpdate(
      Later(first.id, second.id), Later(first.name, second.name), Later(first.phone, second.phone),
      Later(first.email, second.email), Later(first.address, second.address),
      Later(first.licenseNumber, second.licenseNumber), Later(first.droneModel, second.droneModel),
      Later(first.droneRegistration, second.droneRegistration),
      Later(first.insuranceExpiry, second.insuranceExpiry),
      Later(first.homeLatitude, second.homeLatitude), Later(first.homeLongitude, second.homeLongitude))
  }

  /** Two successive `updateOperator` calls act as one with the later fields winning, and an
      empty update changes nothing. */
  lemma UpdatesCompose(op: Operator, first: OperatorUpdate, second: OperatorUpdate)
    ensures ApplyUpdate(ApplyUpdate(op, first), second) == ApplyUpdate(op, Combine(first, second))
    ensures ApplyUpdate(op, NoUpdate) == op
  {
  }

  /** `translations[language][key] || key`: the table entry, or the key itself when the entry is
      missing or empty. */
  function Translate(entries: map<string, string>, key: string): (r: string)
    ensures r == key || (key in entries && r == entries[key])
    ensures key in entries && entries[key] != "" ==> r == entries[key]
    ensures key != "" ==> r != ""
  {
    if key in entries && entries[key] != "" then entries[key] else key
  }

  // ---------------------------------------------------------------- queries

  /** `getBookingsByStatus` takes one status or an array of them. */
  datatype StatusQuery = One(status: BookingStatus) | Many(statuses: seq<BookingStatus>)

  /** `Array.isArray(status) ? status : [status]`. */
  function Statuses(q: StatusQuery): seq<BookingStatus> {
    match q
    case One(s) => [s]
    case Many(ss) => ss
  }

  function HasStatusIn(ss: seq<BookingStatus>): Booking -> bool {
    (b: Booking) => b.status in ss
  }

  /** `getBookingsByStatus`: the bookings whose status is among the requested ones, in store
      order. */
  function ByStatus(bookings: seq<Booking>, q: StatusQuery): (r: seq<Booking>)
    ensures forall i :: 0 <= i < |r| ==> r[i] in bookings && r[i].status in Statuses(q)
    ensures forall i :: 0 <= i < |bookings| && bookings[i].status in Statuses(q) ==> bookings[i] in r
    ensures forall x {:trigger multiset(r)[x]} :: multiset(r)[x] == if x.status in Statuses(q) then multiset(bookings)[x] else 0
    ensures IsSubseq(r, bookings)
  {
    FilterIsSubseq(bookings, HasStatusIn(Statuses(q)));
    forall x {
      FilterMultiplicity(bookings, HasStatusIn(Statuses(q)), x);
    }
    Filter(bookings, HasStatusIn(Statuses(q)))
  }

  /** Asking for one status is asking for the one-element array of it; asking for no status
      gives nothing. */
  lemma ByStatusOneIsMany(bookings: seq<Booking>, s: BookingStatus)
    ensures ByStatus(bookings, One(s)) == ByStatus(bookings, Many([s]))
    ensures ByStatus(bookings, Many([])) == []
  {
  }

  function IsScheduledOn(date: CivilDate): Booking -> bool {
    (b: Booking) => b.scheduledDate == date
  }

  /** The bookings scheduled on `date`, in store order. */
  function OnDate(bookings: seq<Booking>, date: CivilDate): (r: seq<Booking>)
    ensures forall i :: 0 <= i < |r| ==> r[i] in bookings && r[i].scheduledDate == date
    ensures forall i :: 0 <= i < |bookings| && bookings[i].scheduledDate == date ==> bookings[i] in r
    ensures forall x {:trigger multiset(r)[x]} :: multiset(r)[x] == if x.scheduledDate == date then multiset(bookings)[x] else 0
    ensures IsSubseq(r, bookings)
  {
    FilterIsSubseq(bookings, IsScheduledOn(date));
    forall x {
      FilterMultiplicity(bookings, IsScheduledOn(date), x);
    }
    Filter(bookings, IsScheduledOn(date))
  }

  /** `getTodayBookings`: the bookings whose date string equals today's, in store order. */
  function TodayBookings(bookings: seq<Booking>, c: Clock): (r: seq<Booking>)
    ensures forall i :: 0 <= i < |r| ==> r[i] in bookings && r[i].scheduledDate == c.date
    ensures forall i :: 0 <= i < |bookings| && bookings[i].scheduledDate == c.date ==> bookings[i] in r
    ensures forall x {:trigger multiset(r)[x]} :: multiset(r)[x] == if x.scheduledDate == c.date then multiset(bookings)[x] else 0
    ensures IsSubseq(r, bookings)
  {
    OnDate(bookings, c.date)
  }

  datatype Period = Today | Week | Month

  /** The start of an earnings period. */
  function PeriodStart(p: Period, c: Clock): int
    requires ValidClock(c)
  {
    match p
    case Today => TodayStart(c)
    case Week => NowMs(c) - 7 * MS_PER_DAY
    case Month => MonthStart(c)
  }

  /** Completed, with a completion instant, and completed at or after `start`. */
  function CompletedSince(start: int): Booking -> bool {
    (b: Booking) => b.status == Completed && b.completedAt.Some? && b.completedAt.value >= start
  }

  function AmountOf(b: Booking): int { b.amount }
  function AcreageOf(b: Booking): real { b.acreage }

  datatype EarningsSummary = EarningsSummary(total: int, count: int, acres: real)

  /** The totals over the bookings completed since `start`: the sum of their amounts, their
      number and the sum of their acreages. */
  function EarningsSince(bookings: seq<Booking>, start: int): (r: EarningsSummary)
    ensures var q := Filter(bookings, CompletedSince(start));
      r.count == |q| && r.total == SumInt(q, AmountOf) && r.acres == SumReal(q, AcreageOf)
    ensures 0 <= r.count <= |bookings|
    ensures (forall i :: 0 <= i < |bookings| ==> !CompletedSince(start)(bookings[i]))
            ==> r == EarningsSummary(0, 0, 0.0)
  {
    var counted := Filter(bookings, CompletedSince(start));
    assert (forall i :: 0 <= i < |bookings| ==> !CompletedSince(start)(bookings[i])) ==> counted == [] by {
      if counted != [] {
        assert counted[0] in bookings;
      }
    }
    EarningsSummary(SumInt(counted, AmountOf), |counted|, SumReal(counted, AcreageOf))
  }

  /** `getEarnings(period)`. */
  function Earnings(bookings: seq<Booking>, p: Period, c: Clock): (r: EarningsSummary)
    requires ValidClock(c)
    ensures r == EarningsSince(bookings, PeriodStart(p, c))
    ensures 0 <= r.count <= |bookings|
    ensures (forall i :: 0 <= i < |bookings| ==> !CompletedSince(PeriodStart(p, c))(bookings[i]))
            ==> r == EarningsSummary(0, 0, 0.0)
  {
    EarningsSince(bookings, PeriodStart(p, c))
  }

  /** One booking more adds its amount, its acreage and one to the count exactly when it was
      completed since `start`, and changes nothing otherwise. */
  lemma EarningsSnoc(bookings: seq<Booking>, b: Booking, start: int)
    ensures var before, after := EarningsSince(bookings, start), EarningsSince(bookings + [b], start);
      after == if CompletedSince(start)(b)
               then EarningsSummary(before.total + b.amount, before.count + 1, before.acres + b.acreage)
               else before
  {
    FilterSumSnoc(bookings, b, CompletedSince(start), AmountOf, AcreageOf);
  }

  /** Three bookings completed since the start, of 100, 250 and 50, total 400 over a count of 3. */
  lemma EarningsExample(b1: Booking, b2: Booking, b3: Booking, start: int)
    requires CompletedSince(start)(b1) && CompletedSince(start)(b2) && CompletedSince(start)(b3)
    requires b1.amount == 100 && b2.amount == 250 && b3.amount == 50
    ensures EarningsSince([b1, b2, b3], start).total == 400
    ensures EarningsSince([b1, b2, b3], start).count == 3
  {
    var s1, s2 := [b1], [b1, b2];
    assert EarningsSince([], start) == EarningsSummary(0, 0, 0.0);
    EarningsSnoc([], b1, start);
    assert [] + [b1] == s1;
    assert EarningsSince(s1, start).total == 100 && EarningsSince(s1, start).count == 1;
    EarningsSnoc(s1, b2, start);
    assert s1 + [b2] == s2;
    assert EarningsSince(s2, start).total == 350 && EarningsSince(s2, start).count == 2;
    EarningsSnoc(s2, b3, start);
    assert s2 + [b3] == [b1, b2, b3];
  }

  /** A later start never counts more bookings, nor (for non-negative amounts and acreages)
      larger sums. */
  lemma EarningsSinceMonotone(bookings: seq<Booking>, early: int, late: int)
    requires early <= late
    ensures EarningsSince(bookings, late).count <= EarningsSince(bookings, early).count
    ensures (forall i :: 0 <= i < |bookings| ==> bookings[i].amount >= 0)
            ==> EarningsSince(bookings, late).total <= EarningsSince(bookings, early).total
    ensures (forall i :: 0 <= i < |bookings| ==> bookings[i].acreage >= 0.0)
            ==> EarningsSince(bookings, late).acres <= EarningsSince(bookings, early).acres
  {
    var e, l := Filter(bookings, CompletedSince(early)), Filter(bookings, CompletedSince(late));
    FilterMonotone(bookings, CompletedSince(early), CompletedSince(late));
    SubseqLength(l, e);
    if forall i :: 0 <= i < |bookings| ==> bookings[i].amount >= 0 {
      assert forall i :: 0 <= i < |e| ==> AmountOf(e[i]) >= 0 by {
        forall i | 0 <= i < |e| ensures AmountOf(e[i]) >= 0 {
          assert e[i] in bookings;
        }
      }
      SubseqSumInt(l, e, AmountOf);
    }
    if forall i :: 0 <= i < |bookings| ==> bookings[i].acreage >= 0.0 {
      assert forall i :: 0 <= i < |e| ==> AcreageOf(e[i]) >= 0.0 by {
        forall i | 0 <= i < |e| ensures AcreageOf(e[i]) >= 0.0 {
          assert e[i] in bookings;
        }
      }
      SubseqSumReal(l, e, AcreageOf);
    }
  }

  /** The bookings counted for today are among those counted for this week and this month, so
      today's figures never exceed either. */
  lemma TodayWithinWeekAndMonth(bookings: seq<Booking>, c: Clock)
    requires ValidClock(c)
    ensures IsSubseq(Filter(bookings, CompletedSince(PeriodStart(Today, c))),
                     Filter(bookings, CompletedSince(PeriodStart(Month, c))))
    ensures IsSubseq(Filter(bookings, CompletedSince(PeriodStart(Today, c))),
                     Filter(bookings, CompletedSince(PeriodStart(Week, c))))
    ensures Earnings(bookings, Today, c).count <= Earnings(bookings, Month, c).count
    ensures Earnings(bookings, Today, c).count <= Earnings(bookings, Week, c).count
  {
    PeriodStartsOrdered(c);
    FilterMonotone(bookings, CompletedSince(PeriodStart(Month, c)), CompletedSince(PeriodStart(Today, c)));
    FilterMonotone(bookings, CompletedSince(PeriodStart(Week, c)), CompletedSince(PeriodStart(Today, c)));
    EarningsSinceMonotone(bookings, PeriodStart(Month, c), PeriodStart(Today, c));
    EarningsSinceMonotone(bookings, PeriodStart(Week, c), PeriodStart(Today, c));
  }

  /** The instant the history and earnings lists date a booking by (`completedAt ||
      scheduledDate`): `completedAt` when set, else midnight of its scheduled date; none for a
      date that does not parse (an invalid `Date`, which compares false with everything). */
  function CompletionInstant(b: Booking): (r: Option<int>)
    ensures r.Some? <==> b.completedAt.Some? || ValidDate(b.scheduledDate)
    ensures b.completedAt.Some? ==> r == b.completedAt
    ensures b.completedAt.None? && r.Some? ==>
              DayStart(b.scheduledDate) == r.value && r.value % MS_PER_DAY == 0
  {
    if b.completedAt.Some? then b.completedAt
    else if ValidDate(b.scheduledDate) then Some(DayStart(b.scheduledDate))
    else None
  }

  /** Placed at or after `start`. */
  predicate PlacedAtOrAfter(b: Booking, start: int) {
    CompletionInstant(b).Some? && CompletionInstant(b).value >= start
  }

  // ---------------------------------------------------------------- status update

  /** The booking after `updateBookingStatus`: the new status, and `completedAt` replaced by now
      only when the new status is `completed` (otherwise the spread keeps the old one). */
  function Retagged(b: Booking, status: BookingStatus, now: int): Booking {
    b.(status := status, completedAt := if status == Completed then Some(now) else b.completedAt)
  }

  /** `bookings.map(b => b.id === id ? {...b, status, ...} : b)`. */
  function WithStatus(bookings: seq<Booking>, id: string, status: BookingStatus, now: int): (r: seq<Booking>)
    ensures |r| == |bookings|
    ensures forall i :: 0 <= i < |bookings| ==>
              r[i] == if bookings[i].id == id then Retagged(bookings[i], status, now) else bookings[i]
    decreases |bookings|
  {
    if bookings == [] then []
    else
      var last := bookings[|bookings| - 1];
      WithStatus(bookings[..|bookings| - 1], id, status, now)
        + [if last.id == id then Retagged(last, status, now) else last]
  }

  /** An id that names no booking leaves the list as it was. */
  lemma WithStatusUnknownId(bookings: seq<Booking>, id: string, status: BookingStatus, now: int)
    requires forall i :: 0 <= i < |bookings| ==> bookings[i].id != id
    ensures WithStatus(bookings, id, status, now) == bookings
  {
  }

  /** The update keeps every booking's position and every field but `status` and `completedAt`;
      a matching booking gets the new status, and a new `completedAt` only on completion. */
  lemma WithStatusChangesOnlyStatus(bookings: seq<Booking>, id: string, status: BookingStatus, now: int, i: int)
    requires 0 <= i < |bookings|
    ensures var r := WithStatus(bookings, id, status, now);
      && r[i] == bookings[i].(status := r[i].status, completedAt := r[i].completedAt)
      && r[i].status == (if bookings[i].id == id then status else bookings[i].status)
      && r[i].completedAt == (if bookings[i].id == id && status == Completed then Some(now)
                              else bookings[i].completedAt)
  {
  }

  /** Completing twice leaves the second call's timestamp, not an accumulation. */
  lemma CompleteTwice(bookings: seq<Booking>, id: string, t1: int, t2: int)
    ensures WithStatus(WithStatus(bookings, id, Completed, t1), id, Completed, t2)
         == WithStatus(bookings, id, Completed, t2)
  {
    var once := WithStatus(bookings, id, Completed, t1);
    var twice := WithStatus(once, id, Completed, t2);
    var direct := WithStatus(bookings, id, Completed, t2);
    assert forall i :: 0 <= i < |bookings| ==> twice[i] == direct[i] by {
      forall i | 0 <= i < |bookings| ensures twice[i] == direct[i] {
        assert once[i].id == bookings[i].id;
      }
    }
  }

  /** A booking completed through the store at `now` is dated `now`, in the history and the
      earnings lists alike. */
  lemma CompletedIsDatedNow(bookings: seq<Booking>, id: string, now: int, i: int)
    requires 0 <= i < |bookings| && bookings[i].id == id
    ensures CompletionInstant(WithStatus(bookings, id, Completed, now)[i]) == Some(now)
    ensures PlacedAtOrAfter(WithStatus(bookings, id, Completed, now)[i], now)
  {
  }

  /** Every completed booking has a completion instant. */
  ghost predicate CompletedHaveTimestamps(bookings: seq<Booking>) {
    forall i :: 0 <= i < |bookings| && bookings[i].status == Completed ==> bookings[i].completedAt.Some?
  }

  /** The status update keeps "completed ==> completedAt present", whatever status it sets. */
  lemma WithStatusKeepsTimestamps(bookings: seq<Booking>, id: string, status: BookingStatus, now: int)
    requires CompletedHaveTimestamps(bookings)
    ensures CompletedHaveTimestamps(WithStatus(bookings, id, status, now))
  {
  }

  /** A booking carries a completion instant exactly when it is completed. */
  ghost predicate TimestampsMatchStatus(bookings: seq<Booking>) {
    forall i :: 0 <= i < |bookings| ==> (bookings[i].completedAt.Some? <==> bookings[i].status == Completed)
  }

  /** No two bookings share an id. */
  ghost predicate UniqueIds(bookings: seq<Booking>) {
    forall i, j :: 0 <= i < |bookings| && 0 <= j < |bookings| && bookings[i].id == bookings[j].id ==> i == j
  }

  /** The status update keeps "completedAt exactly when completed" as long as it does not move a
      completed booking to another status. */
  lemma WithStatusKeepsMatch(bookings: seq<Booking>, id: string, status: BookingStatus, now: int)
    requires TimestampsMatchStatus(bookings)
    requires forall i :: 0 <= i < |bookings| && bookings[i].id == id && bookings[i].status == Completed ==>
               status == Completed
    ensures TimestampsMatchStatus(WithStatus(bookings, id, status, now))
  {
  }

  /** The store itself checks no transition: moving a completed booking back to `pending` keeps its
      old `completedAt`, so the match breaks. */
  lemma ReopeningKeepsTimestamp()
    ensures var b := Booking("b1", "", "", "", "", 1.0, "", Pesticide, CivilDate(2024, 1, 15), "09:00 AM",
                             None, 1500, Paid, Completed, Some(5), 0.0, 0.0);
      && TimestampsMatchStatus([b])
      && !TimestampsMatchStatus(WithStatus([b], "b1", Pending, 9))
  {
    var b := Booking("b1", "", "", "", "", 1.0, "", Pesticide, CivilDate(2024, 1, 15), "09:00 AM",
                     None, 1500, Paid, Completed, Some(5), 0.0, 0.0);
    assert WithStatus([b], "b1", Pending, 9)[0] == b.(status := Pending);
  }

  // ---------------------------------------------------------------- the store

  /** The provider's state. `template` is the operator record that `login` copies. */
  class AppStore {
    const template: Operator
    var language: Language
    var isAuthenticated: bool
    var operator: Option<Operator>
    var bookings: seq<Booking>

    /** An operator is present exactly in an authenticated session. */
    ghost predicate Valid()
      reads this
    {
      isAuthenticated <==> operator.Some?
    }

    constructor (seed: seq<Booking>, template: Operator)
      ensures Valid()
      ensures this.template == template && language == "en" && !isAuthenticated
      ensures operator == None && bookings == seed
    {
      this.template := template;
      language := "en";
      isAuthenticated := false;
      operator := None;
      bookings := seed;
    }

    /** `t(key)` for the current language; `table` stands for the translation file. */
    function T(table: Language -> map<string, string>, key: string): (r: string)
      reads this
      ensures r == Translate(table(language), key)
      ensures key != "" ==> r != ""
    {
      Translate(table(language), key)
    }

    method SetLanguage(lang: Language)
      modifies this
      ensures language == lang
      ensures isAuthenticated == old(isAuthenticated) && operator == old(operator)
      ensures bookings == old(bookings)
      ensures Valid() == old(Valid())
    {
      language := lang;
    }

    /** Authenticates with the template operator carrying the supplied phone. */
    method Login(phone: string)
      modifies this
      ensures Valid()
      ensures isAuthenticated && operator == Some(template.(phone := phone))
      ensures language == old(language) && bookings == old(bookings)
    {
      isAuthenticated := true;
      operator := Some(template.(phone := phone));
    }

    /** Ends the session; bookings and language stay. */
    method Logout()
      modifies this
      ensures Valid()
      ensures !isAuthenticated && operator == None
      ensures language == old(language) && bookings == old(bookings)
    {
      isAuthenticated := false;
      operator := None;
    }

    /** Replaces the booking list by its copy with `id`'s status set; `now` is the clock
        reading `new Date()` would give. */
    method UpdateBookingStatus(id: string, status: BookingStatus, now: int)
      modifies this
      ensures bookings == WithStatus(old(bookings), id, status, now)
      ensures language == old(language) && isAuthenticated == old(isAuthenticated)
      ensures operator == old(operator)
      ensures Valid() == old(Valid())
    {
      bookings := WithStatus(bookings, id, status, now);
    }

    /** Merges `updates` into the operator; without an operator there is still none. */
    method UpdateOperator(updates: OperatorUpdate)
      modifies this
      ensures operator == if old(operator).Some? then Some(ApplyUpdate(old(operator).value, updates)) else None
      ensures language == old(language) && isAuthenticated == old(isAuthenticated)
      ensures bookings == old(bookings)
      ensures Valid() == old(Valid())
    {
      operator := if operator.Some? then Some(ApplyUpdate(operator.value, updates)) else None;
    }
  }
}
