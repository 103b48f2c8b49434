/** The "My Bookings" page of the React app: the upcoming and past tabs over the
    loaded bookings, and cancellation through the confirmation modal. Dates are
    integer time stamps: `date` is the booking's day as a `Date`, `today` is the
    local midnight the page compares against. */
module MyBookings {
  import opened Text

  datatype Status = Confirmed | Cancelled | Completed

  datatype Booking = Booking(
    id: string, courtName: string, courtType: string, location: string,
    date: int, timeSlots: seq<string>, totalAmount: int, status: Status, bookedAt: string)

  predicate IsUpcoming(b: Booking, today: int) {
    b.date >= today && b.status == Confirmed
  }

  predicate IsPast(b: Booking, today: int) {
    b.date < today || b.status != Confirmed
  }

  /** `upcomingBookings`. */
  function Upcoming(bs: seq<Booking>, today: int): (r: seq<Booking>)
    ensures forall b :: b in r <==> b in bs && IsUpcoming(b, today)
    ensures |r| <= |bs|
  {
    if bs == [] then []
    else if IsUpcoming(bs[0], today) then [bs[0]] + Upcoming(bs[1..], today)
    else Upcoming(bs[1..], today)
  }

  /** `pastBookings`. */
  function Past(bs: seq<Booking>, today: int): (r: seq<Booking>)
    ensures forall b :: b in r <==> b in bs && IsPast(b, today)
    ensures |r| <= |bs|
  {
    if bs == [] then []
    else if IsPast(bs[0], today) then [bs[0]] + Past(bs[1..], today)
    else Past(bs[1..], today)
  }

  /** The two tabs split the bookings: each booking is in exactly one of them,
      and together they hold every booking as often as the list does. */
  lemma {:induction false} TabsPartition(bs: seq<Booking>, today: int)
    ensures multiset(Upcoming(bs, today)) + multiset(Past(bs, today)) == multiset(bs)
    ensures |Upcoming(bs, today)| + |Past(bs, today)| == |bs|
    ensures forall b :: b in bs ==> (b in Upcoming(bs, today) <==> b !in Past(bs, today))
  {
    if bs != [] {
      TabsPartition(bs[1..], today);
      assert bs == [bs[0]] + bs[1..];
    }
  }

  /** `handleCancelBooking`'s map: the bookings with that id become cancelled. */
  function Cancel(bs: seq<Booking>, id: string): (r: seq<Booking>)
    ensures |r| == |bs|
    ensures forall i :: 0 <= i < |bs| && bs[i].id == id ==> r[i] == bs[i].(status := Cancelled)
    ensures forall i :: 0 <= i < |bs| && bs[i].id != id ==> r[i] == bs[i]
  {
    if bs == [] then []
    else [if bs[0].id == id then bs[0].(status := Cancelled) else bs[0]] + Cancel(bs[1..], id)
  }

  /** After cancelling, no booking with that id is upcoming. */
  lemma CancelledNotUpcoming(bs: seq<Booking>, id: string, today: int)
    ensures forall b :: b in Upcoming(Cancel(bs, id), today) ==> b.id != id
  {
    var r := Cancel(bs, id);
    forall b | b in Upcoming(r, today) ensures b.id != id {
      var i :| 0 <= i < |r| && r[i] == b;
    }
  }

  /** Cancelling twice is cancelling once. */
  lemma CancelIdempotent(bs: seq<Booking>, id: string)
    ensures Cancel(Cancel(bs, id), id) == Cancel(bs, id)
  {
  }

  /** Cancelling an unknown id, or one whose bookings are all cancelled already,
      changes nothing. */
  lemma CancelNoOp(bs: seq<Booking>, id: string)
    requires forall i :: 0 <= i < |bs| && bs[i].id == id ==> bs[i].status == Cancelled
    ensures Cancel(bs, id) == bs
  {
  }

  datatype Tab = UpcomingTab | PastTab

  /** `currentBookings`. */
  function Current(tab: Tab, bs: seq<Booking>, today: int): (r: seq<Booking>)
    ensures forall b :: b in r <==> b in bs && (IsUpcoming(b, today) <==> tab == UpcomingTab)
    ensures |r| <= |bs|
  {
    if tab == UpcomingTab then Upcoming(bs, today) else Past(bs, today)
  }

  /** The guard of the Cancel button under a listed booking. */
  predicate ShowCancel(tab: Tab, b: Booking): (r: bool)
    ensures r ==> tab == UpcomingTab && b.status != Cancelled && b.status != Completed
    ensures tab == UpcomingTab && b.status == Confirmed ==> r
  {
    tab == UpcomingTab && b.status == Confirmed
  }

  /** The Cancel button appears under every booking of the upcoming tab and under
      none of the past tab. */
  lemma CancelOfferedOnUpcoming(tab: Tab, bs: seq<Booking>, today: int)
    ensures forall b :: b in Current(tab, bs, today) ==> (ShowCancel(tab, b) <==> tab == UpcomingTab)
  {
  }

  class MyBookingsPage {
    var bookings: seq<Booking>
    var selectedTab: Tab
    /** The id of the booking the modal asks about; `None` when it is closed. */
    var showCancelModal: Option<string>

    /** The modal renders when `showCancelModal` is a non-empty id. */
    predicate ModalOpen()
      reads this
    {
      showCancelModal.Some? && showCancelModal.value != ""
    }

    /** The page once its mount effect loaded `loaded`. */
    constructor (loaded: seq<Booking>)
      ensures bookings == loaded && selectedTab == UpcomingTab && showCancelModal == None
    {
      bookings := loaded;
      selectedTab := UpcomingTab;
      showCancelModal := None;
    }

    method SelectTab(t: Tab)
      modifies this
      ensures selectedTab == t && bookings == old(bookings) && showCancelModal == old(showCancelModal)
    {
      selectedTab := t;
    }

    /** A click on the i-th listed booking's Cancel button, which exists only when
        `ShowCancel` holds. */
    method ClickCancel(i: nat, today: int)
      requires i < |Current(selectedTab, bookings, today)|
      modifies this
      ensures var b := Current(old(selectedTab), old(bookings), today)[i];
              showCancelModal == if ShowCancel(old(selectedTab), b) then Some(b.id) else old(showCancelModal)
      ensures bookings == old(bookings) && selectedTab == old(selectedTab)
    {
      var b := Current(selectedTab, bookings, today)[i];
      if ShowCancel(selectedTab, b) {
        showCancelModal := Some(b.id);
      }
    }

    /** "Keep Booking" or the close button of the modal. */
    method CloseModal()
      modifies this
      ensures showCancelModal == None && bookings == old(bookings) && selectedTab == old(selectedTab)
    {
      showCancelModal := None;
    }

    /** `handleCancelBooking`. */
    method HandleCancelBooking(id: string)
      modifies this
      ensures bookings == Cancel(old(bookings), id)
      ensures showCancelModal == None && selectedTab == old(selectedTab)
    {
      bookings := Cancel(bookings, id);
      showCancelModal := None;
    }

    /** "Cancel Booking" in the open modal. */
    method ConfirmCancel()
      requires ModalOpen()
      modifies this
      ensures bookings == Cancel(old(bookings), old(showCancelModal).value)
      ensures showCancelModal == None && selectedTab == old(selectedTab)
    {
      HandleCancelBooking(showCancelModal.value);
    }
  }

  /** Cancelling the i-th upcoming booking through the modal keeps every booking
      on the page, takes that booking's id off the upcoming tab and shortens it. */
  method CancelFromUpcoming(loaded: seq<Booking>, today: int, i: nat) returns (before: seq<Booking>, after: seq<Booking>, id: string)
    requires i < |Upcoming(loaded, today)| && Upcoming(loaded, today)[i].id != ""
    ensures id == Upcoming(loaded, today)[i].id
    ensures |after| == |loaded| && multiset(Upcoming(after, today)) + multiset(Past(after, today)) == multiset(after)
    ensures forall b :: b in Upcoming(after, today) ==> b.id != id
    ensures |Upcoming(after, today)| < |before| && before == Upcoming(loaded, today)
  {
    var page := new MyBookingsPage(loaded);
    before := Upcoming(loaded, today);
    id := before[i].id;
    assert before[i] in before;
    page.ClickCancel(i, today);
    page.ConfirmCancel();
    after := page.bookings;
    TabsPartition(after, today);
    CancelledNotUpcoming(loaded, id, today);
    CancelShrinksUpcoming(loaded, id, today);
  }

  /** Cancelling an id that has an upcoming booking makes the upcoming tab shorter. */
  lemma {:induction false} CancelShrinksUpcoming(bs: seq<Booking>, id: string, today: int)
    requires exists b :: b in Upcoming(bs, today) && b.id == id
    ensures |Upcoming(Cancel(bs, id), today)| < |Upcoming(bs, today)|
  {
    CancelNeverGrowsUpcoming(bs[1..], id, today);
    if !(IsUpcoming(bs[0], today) && bs[0].id == id) {
      CancelShrinksUpcoming(bs[1..], id, today);
    }
  }

  /** Cancelling never adds to the upcoming tab. */
  lemma {:induction false} CancelNeverGrowsUpcoming(bs: seq<Booking>, id: string, today: int)
    ensures |Upcoming(Cancel(bs, id), today)| <= |Upcoming(bs, today)|
  {
    if bs != [] {
      CancelNeverGrowsUpcoming(bs[1..], id, today);
    }
  }
}
