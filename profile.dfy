/** The profile page of the Next.js app: the stats cards over the bookings kept
    in local storage, cancellation by removal, and the date-based status badge.
    Parsing a booking's date string into a `Date` is the parameter `dateValue`
    (a time stamp), the current instant is `now`, and comparing the calendar days
    of two instants (`toDateString`) is the parameter `sameDay`. */
module Profile {
  import opened Text
  import opened BookingFlow

  datatype Stats = Stats(totalBookings: int, upcomingBookings: int, totalSpent: int)

  /** The bookings with `new Date(booking.date) >= now`. */
  function UpcomingOf(bs: seq<Booking>, dateValue: string -> int, now: int): (r: seq<Booking>)
    ensures forall b :: b in r <==> b in bs && dateValue(b.date) >= now
    ensures |r| <= |bs|
  {
    if bs == [] then []
    else if dateValue(bs[0].date) >= now then [bs[0]] + UpcomingOf(bs[1..], dateValue, now)
    else UpcomingOf(bs[1..], dateValue, now)
  }

  /** The `reduce` that adds up `court.price`. */
  function TotalSpent(bs: seq<Booking>): (t: int)
    ensures bs == [] ==> t == 0
    ensures (forall i :: 0 <= i < |bs| ==> bs[i].court.price >= 0) ==> t >= 0
  {
    if bs == [] then 0
    else
      assert forall i :: 0 <= i < |bs[1..]| ==> bs[1..][i] == bs[i + 1];
      bs[0].court.price + TotalSpent(bs[1..])
  }

  /** The total of a concatenation is the sum of the totals. */
  lemma {:induction false} TotalSpentConcat(a: seq<Booking>, b: seq<Booking>)
    ensures TotalSpent(a + b) == TotalSpent(a) + TotalSpent(b)
  {
    if a == [] {
      assert a + b == b;
    } else {
      assert (a + b)[1..] == a[1..] + b;
      TotalSpentConcat(a[1..], b);
    }
  }

  /** The stats the mount effect and `cancelBooking` compute. */
  function ComputeStats(bs: seq<Booking>, dateValue: string -> int, now: int): (s: Stats)
    ensures s.totalBookings == |bs|
    ensures s.upcomingBookings == |UpcomingOf(bs, dateValue, now)| <= s.totalBookings
    ensures s.totalSpent == TotalSpent(bs)
  {
    Stats(|bs|, |UpcomingOf(bs, dateValue, now)|, TotalSpent(bs))
  }

  /** `bookings.filter((booking) => booking.id !== bookingId)`. */
  function Remove(bs: seq<Booking>, id: int): (r: seq<Booking>)
    ensures forall b :: b in r <==> b in bs && b.id != id
    ensures |r| <= |bs|
  {
    if bs == [] then []
    else if bs[0].id != id then [bs[0]] + Remove(bs[1..], id)
    else Remove(bs[1..], id)
  }

  /** The bookings `cancelBooking` drops. */
  function WithId(bs: seq<Booking>, id: int): (r: seq<Booking>)
    ensures forall b :: b in r <==> b in bs && b.id == id
  {
    if bs == [] then []
    else if bs[0].id == id then [bs[0]] + WithId(bs[1..], id)
    else WithId(bs[1..], id)
  }

  /** Removal keeps the order of what stays: it distributes over concatenation. */
  lemma {:induction false} RemoveConcat(a: seq<Booking>, b: seq<Booking>, id: int)
    ensures Remove(a + b, id) == Remove(a, id) + Remove(b, id)
  {
    if a == [] {
      assert a + b == b;
    } else {
      assert (a + b)[1..] == a[1..] + b;
      RemoveConcat(a[1..], b, id);
    }
  }

  /** Cancelling splits the list into what stays and what is dropped: the count
      and the amount spent go down by exactly the dropped bookings. */
  lemma {:induction false} RemoveSplits(bs: seq<Booking>, id: int)
    ensures |Remove(bs, id)| + |WithId(bs, id)| == |bs|
    ensures TotalSpent(Remove(bs, id)) + TotalSpent(WithId(bs, id)) == TotalSpent(bs)
  {
    if bs != [] {
      RemoveSplits(bs[1..], id);
    }
  }

  /** An id that is not listed leaves the list as it is. */
  lemma {:induction false} RemoveAbsent(bs: seq<Booking>, id: int)
    requires forall b :: b in bs ==> b.id != id
    ensures Remove(bs, id) == bs
  {
    if bs != [] {
      assert bs[0] in bs;
      assert forall b :: b in bs[1..] ==> b in bs;
      RemoveAbsent(bs[1..], id);
    }
  }

  /** `getStatusText`. */
  function StatusText(date: int, now: int, sameDay: (int, int) -> bool): (r: string)
    ensures r == "Completed" <==> date < now
    ensures r == "Today" <==> date >= now && sameDay(date, now)
    ensures r == "Upcoming" <==> date >= now && !sameDay(date, now)
  {
    if date < now then "Completed" else if sameDay(date, now) then "Today" else "Upcoming"
  }

  /** `getStatusColor`. */
  function StatusColor(date: int, now: int, sameDay: (int, int) -> bool): (r: string)
    ensures r == "bg-gray-500" <==> date < now
    ensures r == "bg-green-500" <==> date >= now && sameDay(date, now)
    ensures r == "bg-blue-500" <==> date >= now && !sameDay(date, now)
  {
    if date < now then "bg-gray-500" else if sameDay(date, now) then "bg-green-500" else "bg-blue-500"
  }

  /** The badge's colour and its label go together: grey with "Completed", green
      with "Today", blue with "Upcoming". */
  lemma StatusColorMatchesText(date: int, now: int, sameDay: (int, int) -> bool)
    ensures StatusText(date, now, sameDay) == "Completed" <==> StatusColor(date, now, sameDay) == "bg-gray-500"
    ensures StatusText(date, now, sameDay) == "Today" <==> StatusColor(date, now, sameDay) == "bg-green-500"
    ensures StatusText(date, now, sameDay) == "Upcoming" <==> StatusColor(date, now, sameDay) == "bg-blue-500"
  {
  }

  /** The bookings whose badge is not "Completed". */
  function NotCompleted(bs: seq<Booking>, dateValue: string -> int, now: int, sameDay: (int, int) -> bool): seq<Booking> {
    if bs == [] then []
    else if StatusText(dateValue(bs[0].date), now, sameDay) != "Completed" then [bs[0]] + NotCompleted(bs[1..], dateValue, now, sameDay)
    else NotCompleted(bs[1..], dateValue, now, sameDay)
  }

  /** The "Upcoming Bookings" card, taken at the same instant, counts exactly the
      bookings whose badge says "Today" or "Upcoming". */
  lemma {:induction false} UpcomingCountMatchesBadges(bs: seq<Booking>, dateValue: string -> int, now: int, sameDay: (int, int) -> bool)
    ensures UpcomingOf(bs, dateValue, now) == NotCompleted(bs, dateValue, now, sameDay)
  {
    if bs != [] {
      UpcomingCountMatchesBadges(bs[1..], dateValue, now, sameDay);
    }
  }

  class ProfilePage {
    var bookings: seq<Booking>
    var stats: Stats
    /** The `bookings` entry of local storage. */
    var stored: seq<Booking>

    /** The page after its mount effect: the stored list is shown and counted. */
    constructor (saved: seq<Booking>, dateValue: string -> int, now: int)
      ensures bookings == saved && stored == saved
      ensures stats == ComputeStats(saved, dateValue, now)
    {
      bookings := saved;
      stored := saved;
      stats := ComputeStats(saved, dateValue, now);
    }

    /** `cancelBooking`: drop the entries with that id, write the list back and
        recompute the stats from what remains. */
    method CancelBooking(id: int, dateValue: string -> int, now: int)
      modifies this
      ensures bookings == Remove(old(bookings), id) && stored == bookings
      ensures stats == ComputeStats(bookings, dateValue, now)
    {
      var updated := Remove(bookings, id);
      bookings := updated;
      stored := updated;
      stats := ComputeStats(updated, dateValue, now);
    }
  }

  /** Cancelling a booking on a freshly loaded profile lowers the booking count
      and the amount spent by exactly the bookings with that id, and storage
      then holds the list the page shows. */
  method CancelOnProfile(saved: seq<Booking>, id: int, dateValue: string -> int, now: int)
    returns (before: Stats, after: Stats, shown: seq<Booking>, kept: seq<Booking>)
    ensures after.totalBookings == before.totalBookings - |WithId(saved, id)|
    ensures after.totalSpent == before.totalSpent - TotalSpent(WithId(saved, id))
    ensures after.upcomingBookings <= before.upcomingBookings
    ensures shown == kept && forall b :: b in shown ==> b.id != id
  {
    var page := new ProfilePage(saved, dateValue, now);
    before := page.stats;
    page.CancelBooking(id, dateValue, now);
    after := page.stats;
    shown, kept := page.bookings, page.stored;
    RemoveSplits(saved, id);
    RemoveKeepsUpcoming(saved, id, dateValue, now);
  }

  /** Removing bookings never adds to the upcoming count. */
  lemma {:induction false} RemoveKeepsUpcoming(bs: seq<Booking>, id: int, dateValue: string -> int, now: int)
    ensures |UpcomingOf(Remove(bs, id), dateValue, now)| <= |UpcomingOf(bs, dateValue, now)|
  {
    if bs != [] {
      RemoveKeepsUpcoming(bs[1..], id, dateValue, now);
    }
  }
}
