/** The booking detail screen: lookup by id, the footer's actions per status, and the handlers
    that move a booking through its lifecycle. */
module BookingDetailScreen {
  import opened Wrappers
  import opened AppContext

  // ---------------------------------------------------------------- lookup

  /** The index of the first booking with the id (what `Array.prototype.find` stops at). */
  function FindIndex(bookings: seq<Booking>, id: string): (r: Option<int>)
    ensures r.None? <==> forall i :: 0 <= i < |bookings| ==> bookings[i].id != id
    ensures r.Some? ==> 0 <= r.value < |bookings| && bookings[r.value].id == id
    ensures r.Some? ==> forall j :: 0 <= j < r.value ==> bookings[j].id != id
    decreases |bookings|
  {
    if bookings == [] then None
    else if bookings[0].id == id then Some(0)
    else
      var rest := FindIndex(bookings[1..], id);
      if rest.Some? then Some(rest.value + 1) else None
  }

  /** `bookings.find(b => b.id === bookingId)`. */
  function FindBooking(bookings: seq<Booking>, id: string): (r: Option<Booking>)
    ensures r.None? <==> forall i :: 0 <= i < |bookings| ==> bookings[i].id != id
    ensures r.Some? ==> r.value in bookings && r.value.id == id
    ensures r.Some? ==> r.value == bookings[FindIndex(bookings, id).value]
  {
    var k := FindIndex(bookings, id);
    if k.Some? then Some(bookings[k.value]) else None
  }

  // ---------------------------------------------------------------- offered actions

  datatype DetailAction = Accept | Decline | StartSpray | Complete | CancelBooking

  /** The footer's buttons: decline/accept while pending, cancel/start while active, complete
      while in progress, and no footer at all once completed or cancelled. */
  function OfferedActions(status: BookingStatus): (r: set<DetailAction>)
    ensures r == {} <==> status == Completed || status == Cancelled
  {
    match status
    case Pending => {Decline, Accept}
    case Active => {CancelBooking, StartSpray}
    case InProgress => {Complete}
    case Completed => {}
    case Cancelled => {}
  }

  /** The status each handler passes to `updateBookingStatus`. */
  function ActionTarget(a: DetailAction): BookingStatus {
    match a
    case Accept => Active
    case Decline => Cancelled
    case StartSpray => InProgress
    case Complete => Completed
    case CancelBooking => Cancelled
  }

  /** Decline and cancel ask for confirmation first. */
  predicate NeedsConfirmation(a: DetailAction) {
    a == Decline || a == CancelBooking
  }

  /** Some offered action moves a booking from `from` to `to`. */
  predicate DetailAllows(from: BookingStatus, to: BookingStatus) {
    exists a :: a in OfferedActions(from) && ActionTarget(a) == to
  }

  /** The lifecycle this screen enforces, as a table of edges. */
  const DetailEdges: set<(BookingStatus, BookingStatus)> :=
    {(Pending, Active), (Pending, Cancelled), (Active, Cancelled), (Active, InProgress), (InProgress, Completed)}

  /** The screen's transitions are exactly the five edges of the table. */
  lemma DetailTransitions(from: BookingStatus, to: BookingStatus)
    ensures DetailAllows(from, to) <==> (from, to) in DetailEdges
  {
    if (from, to) in DetailEdges {
      var a := if from == Pending && to == Active then Accept
               else if from == Pending then Decline
               else if from == Active && to == Cancelled then CancelBooking
               else if from == Active then StartSpray
               else Complete;
      assert a in OfferedActions(from) && ActionTarget(a) == to;
    }
  }

  /** From this screen, `completed` is reached only from `in_progress`, and nothing leaves
      `completed` or `cancelled`. */
  lemma CompletedOnlyFromInProgress(from: BookingStatus, to: BookingStatus)
    ensures DetailAllows(from, Completed) <==> from == InProgress
    ensures from == Completed || from == Cancelled ==> !DetailAllows(from, to)
  {
    DetailTransitions(from, Completed);
    DetailTransitions(from, to);
  }

  // ---------------------------------------------------------------- handlers

  /** With unique ids, an action the footer offers for the booking it finds never moves a
      completed booking elsewhere, so "completedAt exactly when completed" is kept. */
  lemma OfferedKeepsMatch(bookings: seq<Booking>, id: string, action: DetailAction, now: int)
    requires UniqueIds(bookings) && TimestampsMatchStatus(bookings)
    requires FindBooking(bookings, id).Some? && action in OfferedActions(FindBooking(bookings, id).value.status)
    ensures TimestampsMatchStatus(WithStatus(bookings, id, ActionTarget(action), now))
  {
    var found := FindBooking(bookings, id).value;
    var k :| 0 <= k < |bookings| && bookings[k] == found;
    forall i | 0 <= i < |bookings| && bookings[i].id == id
      ensures bookings[i].status != Completed
    {
      assert bookings[i].id == bookings[k].id;
    }
    WithStatusKeepsMatch(bookings, id, ActionTarget(action), now);
  }

  datatype Reply = Yes | No

  /** What the user sees besides the store change. */
  datatype Event = Alert(title: string, message: string) | ConfirmDialog(titleKey: string, messageKey: string) | GoBack

  /** `handleAccept`. */
  method HandleAccept(store: AppStore, booking: Booking, now: int) returns (events: seq<Event>)
    modifies store
    ensures store.bookings == WithStatus(old(store.bookings), booking.id, Active, now)
    ensures store.language == old(store.language) && store.isAuthenticated == old(store.isAuthenticated)
    ensures store.operator == old(store.operator)
    ensures events == [Alert("Booking Accepted", "You have accepted this booking")]
  {
    store.UpdateBookingStatus(booking.id, Active, now);
    events := [Alert("Booking Accepted", "You have accepted this booking")];
  }

  /** `handleDecline`: after 'yes', cancels and goes back; after 'no', nothing changes. */
  method HandleDecline(store: AppStore, booking: Booking, reply: Reply, now: int) returns (events: seq<Event>)
    modifies store
    ensures store.bookings == if reply == Yes then WithStatus(old(store.bookings), booking.id, Cancelled, now)
                              else old(store.bookings)
    ensures store.language == old(store.language) && store.isAuthenticated == old(store.isAuthenticated)
    ensures store.operator == old(store.operator)
    ensures events == [ConfirmDialog("confirmDecline", "declineReason")] + (if reply == Yes then [GoBack] else [])
  {
    events := [ConfirmDialog("confirmDecline", "declineReason")];
    if reply == Yes {
      store.UpdateBookingStatus(booking.id, Cancelled, now);
      events := events + [GoBack];
    }
  }

  /** `handleStartSpray`. */
  method HandleStartSpray(store: AppStore, booking: Booking, now: int) returns (events: seq<Event>)
    modifies store
    ensures store.bookings == WithStatus(old(store.bookings), booking.id, InProgress, now)
    ensures store.language == old(store.language) && store.isAuthenticated == old(store.isAuthenticated)
    ensures store.operator == old(store.operator)
    ensures events == [Alert("Spray Started", "You have started the spray operation")]
  {
    store.UpdateBookingStatus(booking.id, InProgress, now);
    events := [Alert("Spray Started", "You have started the spray operation")];
  }

  /** `handleComplete`: completes (stamping `now`) and goes back. */
  method HandleComplete(store: AppStore, booking: Booking, now: int) returns (events: seq<Event>)
    modifies store
    ensures store.bookings == WithStatus(old(store.bookings), booking.id, Completed, now)
    ensures store.language == old(store.language) && store.isAuthenticated == old(store.isAuthenticated)
    ensures store.operator == old(store.operator)
    ensures events == [Alert("Spray Completed", "Booking has been marked as completed"), GoBack]
  {
    store.UpdateBookingStatus(booking.id, Completed, now);
    events := [Alert("Spray Completed", "Booking has been marked as completed"), GoBack];
  }

  /** `handleCancel`: after 'yes', cancels and goes back; after 'no', nothing changes. */
  method HandleCancel(store: AppStore, booking: Booking, reply: Reply, now: int) returns (events: seq<Event>)
    modifies store
    ensures store.bookings == if reply == Yes then WithStatus(old(store.bookings), booking.id, Cancelled, now)
                              else old(store.bookings)
    ensures store.language == old(store.language) && store.isAuthenticated == old(store.isAuthenticated)
    ensures store.operator == old(store.operator)
    ensures events == [ConfirmDialog("confirmCancel", "cancelReason")] + (if reply == Yes then [GoBack] else [])
  {
    events := [ConfirmDialog("confirmCancel", "cancelReason")];
    if reply == Yes {
      store.UpdateBookingStatus(booking.id, Cancelled, now);
      events := events + [GoBack];
    }
  }

  /** Runs the handler of `action` for `booking`: the booking moves to the action's target
      unless a confirmation was answered 'no'. */
  method Perform(store: AppStore, booking: Booking, action: DetailAction, reply: Reply, now: int)
    returns (events: seq<Event>)
    modifies store
    ensures store.bookings ==
      if NeedsConfirmation(action) ==> reply == Yes
      then WithStatus(old(store.bookings), booking.id, ActionTarget(action), now)
      else old(store.bookings)
    ensures store.language == old(store.language) && store.isAuthenticated == old(store.isAuthenticated)
    ensures store.operator == old(store.operator)
  {
    match action {
      case Accept => events := HandleAccept(store, booking, now);
      case Decline => events := HandleDecline(store, booking, reply, now);
      case StartSpray => events := HandleStartSpray(store, booking, now);
      case Complete => events := HandleComplete(store, booking, now);
      case CancelBooking => events := HandleCancel(store, booking, reply, now);
    }
  }

  /** The user presses `action` on the screen opened for `bookingId`, answering `reply` to any
      confirmation. An unknown id shows the not-found view, and a button the footer does not
      show cannot be pressed: both leave the store alone. Otherwise the booking moves to the
      action's target. With unique ids the screen keeps "completedAt exactly when completed". */
  method Press(store: AppStore, bookingId: string, action: DetailAction, reply: Reply, now: int)
    returns (events: seq<Event>)
    requires store.Valid()
    modifies store
    ensures store.Valid()
    ensures var found := FindBooking(old(store.bookings), bookingId);
      store.bookings ==
        if found.Some? && action in OfferedActions(found.value.status) && (NeedsConfirmation(action) ==> reply == Yes)
        then WithStatus(old(store.bookings), bookingId, ActionTarget(action), now)
        else old(store.bookings)
    ensures FindBooking(old(store.bookings), bookingId).None? ==> events == []
    ensures UniqueIds(old(store.bookings)) && TimestampsMatchStatus(old(store.bookings))
            ==> TimestampsMatchStatus(store.bookings)
  {
    var found := FindBooking(store.bookings, bookingId);
    ghost var before := store.bookings;
    if found.None? || action !in OfferedActions(found.value.status) {
      return [];
    }
    if UniqueIds(before) && TimestampsMatchStatus(before) {
      OfferedKeepsMatch(before, bookingId, action, now);
    }
    events := Perform(store, found.value, action, reply, now);
  }
}
