/** The booking card shown in lists: its quick actions and their gating. */
module BookingCard {
  import opened AppContext
  import BookingDetailScreen

  datatype CardAction = CardAccept | CardDecline | CardComplete

  /** The buttons a card shows. Compact cards and cards without `showActions` (the default)
      show none; otherwise decline/accept while pending, mark-complete while active or in
      progress, nothing once completed or cancelled. */
  function CardActions(status: BookingStatus, showActions: bool, compact: bool): (r: set<CardAction>)
    ensures compact || !showActions ==> r == {}
    ensures status == Completed || status == Cancelled ==> r == {}
  {
    if compact || !showActions then {}
    else
      match status
      case Pending => {CardDecline, CardAccept}
      case Active => {CardComplete}
      case InProgress => {CardComplete}
      case Completed => {}
      case Cancelled => {}
  }

  function CardTarget(a: CardAction): BookingStatus {
    match a
    case CardAccept => Active
    case CardDecline => Cancelled
    case CardComplete => Completed
  }

  /** Some button on a full card with actions moves `from` to `to`. */
  predicate CardAllows(from: BookingStatus, to: BookingStatus) {
    exists a :: a in CardActions(from, true, false) && CardTarget(a) == to
  }

  const CardEdges: set<(BookingStatus, BookingStatus)> :=
    {(Pending, Active), (Pending, Cancelled), (Active, Completed), (InProgress, Completed)}

  /** The card's transitions are exactly its four edges. */
  lemma CardTransitions(from: BookingStatus, to: BookingStatus)
    ensures CardAllows(from, to) <==> (from, to) in CardEdges
  {
    if (from, to) in CardEdges {
      var a := if from == Pending && to == Active then CardAccept
               else if from == Pending then CardDecline
               else CardComplete;
      assert a in CardActions(from, true, false) && CardTarget(a) == to;
    }
  }

  /** The one place the card and the detail screen disagree: the card alone completes an
      `active` booking directly. */
  lemma CardBeyondDetail(from: BookingStatus, to: BookingStatus)
    ensures CardAllows(from, to) && !BookingDetailScreen.DetailAllows(from, to) <==> (from, to) == (Active, Completed)
    ensures BookingDetailScreen.DetailAllows(from, to) && !CardAllows(from, to) <==>
              (from, to) in {(Active, Cancelled), (Active, InProgress)}
  {
    CardTransitions(from, to);
    BookingDetailScreen.DetailTransitions(from, to);
  }

  /** `handleAccept`, `handleDecline` and `handleComplete`: each updates the card's own booking
      id to the button's status and touches nothing else. */
  method Handle(store: AppStore, booking: Booking, action: CardAction, now: int)
    modifies store
    ensures store.bookings == WithStatus(old(store.bookings), booking.id, CardTarget(action), now)
    ensures store.language == old(store.language) && store.isAuthenticated == old(store.isAuthenticated)
    ensures store.operator == old(store.operator)
  {
    match action {
      case CardAccept => store.UpdateBookingStatus(booking.id, Active, now);
      case CardDecline => store.UpdateBookingStatus(booking.id, Cancelled, now);
      case CardComplete => store.UpdateBookingStatus(booking.id, Completed, now);
    }
  }

  /** Pressing a button of the card for `booking` (as rendered from the store, so with its
      current status): a button the card does not show cannot be pressed. Bookings with other
      ids are never touched, and with unique ids the card keeps "completedAt exactly when
      completed". */
  method Press(store: AppStore, booking: Booking, showActions: bool, compact: bool, action: CardAction, now: int)
    requires store.Valid()
    requires booking in store.bookings
    modifies store
    ensures store.Valid()
    ensures store.bookings ==
      if action in CardActions(booking.status, showActions, compact)
      then WithStatus(old(store.bookings), booking.id, CardTarget(action), now)
      else old(store.bookings)
    ensures |store.bookings| == |old(store.bookings)|
    ensures forall i :: 0 <= i < |store.bookings| && old(store.bookings)[i].id != booking.id ==>
              store.bookings[i] == old(store.bookings)[i]
    ensures UniqueIds(old(store.bookings)) && TimestampsMatchStatus(old(store.bookings))
            ==> TimestampsMatchStatus(store.bookings)
  {
    ghost var before := store.bookings;
    if action in CardActions(booking.status, showActions, compact) {
      Handle(store, booking, action, now);
      if UniqueIds(before) && TimestampsMatchStatus(before) {
        WithStatusKeepsMatch(before, booking.id, CardTarget(action), now);
      }
    }
  }
}
