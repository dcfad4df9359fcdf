/** The bookings tab: three status tabs over the store's bookings. */
module BookingsListScreen {
  import opened Wrappers
  import opened SeqUtil
  import opened AppContext
  import BookingCard

  datatype Tab = PendingTab | ActiveTab | CompletedTab

  /** One entry of the `tabs` table: its key, the translation key of its label, its statuses. */
  datatype TabEntry = TabEntry(key: Tab, labelKey: string, statuses: seq<BookingStatus>)

  const Tabs: seq<TabEntry> := [
    TabEntry(PendingTab, "pending", [Pending]),
    TabEntry(ActiveTab, "active", [Active, InProgress]),
    TabEntry(CompletedTab, "completed", [Completed])
  ]

  /** The list opens on the pending tab. */
  const InitialTab: Tab := PendingTab

  /** `tabs.find(tab => tab.key === activeTab)`. */
  function FindTab(tabs: seq<TabEntry>, key: Tab): (r: Option<TabEntry>)
    ensures r.None? <==> forall i :: 0 <= i < |tabs| ==> tabs[i].key != key
    ensures r.Some? ==> r.value in tabs && r.value.key == key
    ensures r.Some? ==> exists k :: 0 <= k < |tabs| && tabs[k] == r.value && forall j :: 0 <= j < k ==> tabs[j].key != key
  {
    if tabs == [] then None
    else if tabs[0].key == key then Some(tabs[0])
    else
      var r := FindTab(tabs[1..], key);
      if r.Some? then
        var k :| 0 <= k < |tabs[1..]| && tabs[1..][k] == r.value && forall j :: 0 <= j < k ==> tabs[1..][j].key != key;
        assert tabs[k + 1] == r.value && forall j :: 0 <= j < k + 1 ==> tabs[j].key != key;
        r
      else r
  }

  /** `?.statuses || []`. */
  function TabStatuses(tabs: seq<TabEntry>, key: Tab): seq<BookingStatus> {
    var entry := FindTab(tabs, key);
    if entry.Some? then entry.value.statuses else []
  }

  /** The list shown for the active tab: the bookings whose status is among the tab's, in store
      order; a tab missing from the table lists nothing. */
  function ListedBookings(tabs: seq<TabEntry>, key: Tab, bookings: seq<Booking>): (r: seq<Booking>)
    ensures forall i :: 0 <= i < |r| ==> r[i] in bookings && r[i].status in TabStatuses(tabs, key)
    ensures forall i :: 0 <= i < |bookings| && bookings[i].status in TabStatuses(tabs, key) ==> bookings[i] in r
    ensures forall x {:trigger multiset(r)[x]} :: multiset(r)[x] == if x.status in TabStatuses(tabs, key) then multiset(bookings)[x] else 0
    ensures IsSubseq(r, bookings)
    ensures (forall i :: 0 <= i < |tabs| ==> tabs[i].key != key) ==> r == []
  {
    ByStatus(bookings, Many(TabStatuses(tabs, key)))
  }

  /** The statuses of each tab of the table. */
  lemma TabSets()
    ensures TabStatuses(Tabs, PendingTab) == [Pending]
    ensures TabStatuses(Tabs, ActiveTab) == [Active, InProgress]
    ensures TabStatuses(Tabs, CompletedTab) == [Completed]
  {
    assert Tabs[1..][1..] == [Tabs[2]];
  }

  /** The tab a status is listed under, if any. */
  function TabOf(s: BookingStatus): Option<Tab> {
    match s
    case Pending => Some(PendingTab)
    case Active => Some(ActiveTab)
    case InProgress => Some(ActiveTab)
    case Completed => Some(CompletedTab)
    case Cancelled => None
  }

  /** A status is among a tab's statuses exactly when that tab is the status's. */
  lemma TabMembership(key: Tab, s: BookingStatus)
    ensures s in TabStatuses(Tabs, key) <==> TabOf(s) == Some(key)
  {
    TabSets();
  }

  /** The tabs partition the non-cancelled bookings: a booking is listed under a tab exactly
      when that tab is its status's, so under at most one, and a cancelled one under none. */
  lemma TabsPartition(bookings: seq<Booking>, i: int, key: Tab)
    requires 0 <= i < |bookings|
    ensures bookings[i] in ListedBookings(Tabs, key, bookings) <==> TabOf(bookings[i].status) == Some(key)
    ensures bookings[i].status == Cancelled ==> bookings[i] !in ListedBookings(Tabs, key, bookings)
  {
    var b, r := bookings[i], ListedBookings(Tabs, key, bookings);
    TabMembership(key, b.status);
    if b in r {
      var m :| 0 <= m < |r| && r[m] == b;
      assert r[m].status in TabStatuses(Tabs, key);
    }
  }

  /** The tab sets are pairwise disjoint. */
  lemma TabsDisjoint(k1: Tab, k2: Tab, s: BookingStatus)
    requires k1 != k2
    ensures !(s in TabStatuses(Tabs, k1) && s in TabStatuses(Tabs, k2))
  {
    TabMembership(k1, s);
    TabMembership(k2, s);
  }

  /** `showActions={activeTab !== 'completed'}`. */
  predicate ShowActions(key: Tab) {
    key != CompletedTab
  }

  /** Every card listed under the pending or active tab shows buttons; no card under the
      completed tab does. */
  lemma ListedCardsHaveActions(bookings: seq<Booking>, key: Tab, i: int)
    requires 0 <= i < |ListedBookings(Tabs, key, bookings)|
    ensures var b := ListedBookings(Tabs, key, bookings)[i];
      BookingCard.CardActions(b.status, ShowActions(key), false) != {} <==> key != CompletedTab
  {
    TabSets();
  }
}
