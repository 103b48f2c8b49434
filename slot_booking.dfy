/** The React booking page of one court: toggling hourly slots in and out of the
    selection, the running total, and the confirm guard. */
module SlotBooking {
  import opened Text

  datatype Court = Court(id: string, name: string, courtType: string, location: string, capacity: int, pricePerHour: int)

  datatype TimeSlot = TimeSlot(time: string, available: bool)

  /** The court the page loads for a route id (the id "1" when none is given). */
  function MockCourt(courtId: Option<string>): Court {
    Court(match courtId case Some(id) => (if id != "" then id else "1") case None => "1",
          "Main Basketball Court", "Basketball", "Sports Complex A", 10, 200)
  }

  /** The hard-coded slots shown for every date. */
  const MockSlots: seq<TimeSlot> := [
    TimeSlot("06:00", true), TimeSlot("07:00", true), TimeSlot("08:00", false),
    TimeSlot("09:00", true), TimeSlot("10:00", true), TimeSlot("11:00", false),
    TimeSlot("12:00", true), TimeSlot("13:00", true), TimeSlot("14:00", true),
    TimeSlot("15:00", false), TimeSlot("16:00", true), TimeSlot("17:00", true),
    TimeSlot("18:00", false), TimeSlot("19:00", true), TimeSlot("20:00", true)
  ]

  /** `prev.filter(slot => slot !== t)`. */
  function Without(sel: seq<string>, t: string): (r: seq<string>)
    ensures t !in r && |r| <= |sel|
    ensures forall x :: x in r <==> x in sel && x != t
    ensures multiset(r) == multiset(sel)[t := 0]
    ensures |r| == |sel| - multiset(sel)[t]
  {
    if sel == [] then []
    else
      assert sel == [sel[0]] + sel[1..];
      if sel[0] == t then Without(sel[1..], t) else [sel[0]] + Without(sel[1..], t)
  }

  /** Removing keeps the order of what stays: it distributes over concatenation. */
  lemma {:induction false} WithoutConcat(a: seq<string>, b: seq<string>, t: string)
    ensures Without(a + b, t) == Without(a, t) + Without(b, t)
  {
    if a == [] {
      assert a + b == b;
    } else {
      assert (a + b)[1..] == a[1..] + b;
      WithoutConcat(a[1..], b, t);
    }
  }

  /** Removing a slot that is not selected changes nothing. */
  lemma {:induction false} WithoutAbsent(sel: seq<string>, t: string)
    requires t !in sel
    ensures Without(sel, t) == sel
  {
    if sel != [] {
      WithoutAbsent(sel[1..], t);
    }
  }

  /** `handleSlotToggle`. */
  function Toggle(sel: seq<string>, t: string): (r: seq<string>)
    ensures t in r <==> t !in sel
    ensures forall x :: x != t ==> (x in r <==> x in sel)
  {
    if t in sel then Without(sel, t) else sel + [t]
  }

  /** A slot that is not selected is appended at the end; a selected one is
      removed wherever it occurs, and every other slot keeps its place. */
  lemma ToggleEffect(sel: seq<string>, t: string)
    ensures t !in sel ==> Toggle(sel, t) == sel + [t]
    ensures t in sel ==> t !in Toggle(sel, t) && multiset(Toggle(sel, t)) == multiset(sel)[t := 0]
  {
  }

  /** Toggling an unselected slot twice gives back the selection exactly. */
  lemma ToggleTwice(sel: seq<string>, t: string)
    requires t !in sel
    ensures Toggle(Toggle(sel, t), t) == sel
  {
    WithoutConcat(sel, [t], t);
    WithoutAbsent(sel, t);
    assert Without([t], t) == [];
  }

  predicate NoDuplicates(s: seq<string>) {
    forall i, j :: 0 <= i < j < |s| ==> s[i] != s[j]
  }

  /** A selection without repeats has one entry per distinct slot. */
  lemma {:induction false} NoDuplicatesCount(s: seq<string>, x: string)
    requires NoDuplicates(s)
    ensures multiset(s)[x] == if x in s then 1 else 0
  {
    if s != [] {
      assert s == [s[0]] + s[1..];
      assert NoDuplicates(s[1..]) by {
        forall i, j | 0 <= i < j < |s[1..]| ensures s[1..][i] != s[1..][j] {
          assert s[1..][i] == s[i + 1] && s[1..][j] == s[j + 1];
        }
      }
      NoDuplicatesCount(s[1..], x);
      if s[0] == x {
        assert x !in s[1..] by {
          forall k | 0 <= k < |s[1..]| ensures s[1..][k] != x { assert s[1..][k] == s[k + 1]; }
        }
      }
    }
  }

  /** Two positions holding one value make it count at least twice. */
  lemma TwoPositionsCount(s: seq<string>, i: nat, j: nat)
    requires i < j < |s|
    ensures multiset(s)[s[i]] >= if s[i] == s[j] then 2 else 1
  {
    assert s == s[..i] + [s[i]] + s[i + 1..j] + [s[j]] + s[j + 1..];
  }

  /** A sequence in which every element is counted at most once has no repeats. */
  lemma CountedOnceNoDuplicates(s: seq<string>)
    requires forall x :: multiset(s)[x] <= 1
    ensures NoDuplicates(s)
  {
    forall i, j | 0 <= i < j < |s| ensures s[i] != s[j] {
      TwoPositionsCount(s, i, j);
    }
  }

  /** A selection without repeats stays without repeats under toggling. */
  lemma ToggleKeepsNoDuplicates(sel: seq<string>, t: string)
    requires NoDuplicates(sel)
    ensures NoDuplicates(Toggle(sel, t))
  {
    var r := Toggle(sel, t);
    forall x ensures multiset(r)[x] <= 1 {
      NoDuplicatesCount(sel, x);
      if t !in sel {
        assert multiset(r) == multiset(sel) + multiset{t};
      }
    }
    CountedOnceNoDuplicates(r);
  }

  /** The click handler of the slot grid: `slot.available && handleSlotToggle(slot.time)`. */
  function Click(slots: seq<TimeSlot>, sel: seq<string>, i: nat): (r: seq<string>)
    requires i < |slots|
    ensures !slots[i].available ==> r == sel
  {
    if slots[i].available then Toggle(sel, slots[i].time) else sel
  }

  /** Every selected slot is the time of an available slot of the grid. */
  ghost predicate OnlyAvailable(slots: seq<TimeSlot>, sel: seq<string>) {
    forall x :: x in sel ==> exists k :: 0 <= k < |slots| && slots[k].time == x && slots[k].available
  }

  /** No sequence of clicks puts an unavailable slot into the selection. */
  lemma {:induction false} ClicksKeepOnlyAvailable(slots: seq<TimeSlot>, sel: seq<string>, clicks: seq<nat>)
    requires OnlyAvailable(slots, sel)
    requires InGrid(slots, clicks)
    ensures OnlyAvailable(slots, Clicks(slots, sel, clicks))
    decreases |clicks|
  {
    if clicks != [] {
      var next := Click(slots, sel, clicks[0]);
      assert OnlyAvailable(slots, next) by {
        forall x | x in next ensures exists k :: 0 <= k < |slots| && slots[k].time == x && slots[k].available {
          if x !in sel {
            assert slots[clicks[0]].time == x && slots[clicks[0]].available;
          }
        }
      }
      ClicksKeepOnlyAvailable(slots, next, clicks[1..]);
    }
  }

  /** Every click is on a button of the grid. */
  predicate InGrid(slots: seq<TimeSlot>, clicks: seq<nat>) {
    forall k :: 0 <= k < |clicks| ==> clicks[k] < |slots|
  }

  /** The selection after a series of clicks on grid positions. */
  function Clicks(slots: seq<TimeSlot>, sel: seq<string>, clicks: seq<nat>): seq<string>
    requires InGrid(slots, clicks)
    decreases |clicks|
  {
    if clicks == [] then sel
    else
      Clicks(slots, Click(slots, sel, clicks[0]), clicks[1..])
  }

  /** `calculateTotal`: `selectedSlots.length * (court?.pricePerHour || 0)`. */
  function CalculateTotal(sel: seq<string>, court: Option<Court>): (total: int)
    ensures court.None? || sel == [] ==> total == 0
    ensures court.Some? && court.value.pricePerHour >= 0 ==> total >= 0
    ensures court.Some? && court.value.pricePerHour > 0 && sel != [] ==> total >= court.value.pricePerHour
  {
    |sel| * (match court case Some(c) => c.pricePerHour case None => 0)
  }

  /** In a selection without repeats, a toggle adds or removes exactly one slot. */
  lemma ToggleLength(sel: seq<string>, t: string)
    requires NoDuplicates(sel)
    ensures |Toggle(sel, t)| == if t in sel then |sel| - 1 else |sel| + 1
  {
    if t in sel {
      NoDuplicatesCount(sel, t);
    }
  }

  /** With a court loaded, selecting a slot adds one hour's rate to the total and
      deselecting one (in a selection without repeats) takes one hour's rate off;
      with no court the total is 0. */
  lemma TotalFollowsToggle(sel: seq<string>, t: string, c: Court)
    requires NoDuplicates(sel)
    ensures t !in sel ==> CalculateTotal(Toggle(sel, t), Some(c)) == CalculateTotal(sel, Some(c)) + c.pricePerHour
    ensures t in sel ==> CalculateTotal(Toggle(sel, t), Some(c)) == CalculateTotal(sel, Some(c)) - c.pricePerHour
    ensures CalculateTotal(sel, None) == 0
  {
    ToggleLength(sel, t);
    var n, p := |sel|, c.pricePerHour;
    assert (n - 1) * p == n * p - p && (n + 1) * p == n * p + p;
  }

  class BookingPage {
    var court: Option<Court>
    var selectedSlots: seq<string>
    var timeSlots: seq<TimeSlot>
    var loading: bool
    var showConfirmation: bool
    var showConfetti: bool

    /** The page after its effects ran: an unauthenticated visitor is sent to the
        login page and no court is loaded. */
    constructor (courtId: Option<string>, isAuthenticated: bool)
      ensures court == (if isAuthenticated then Some(MockCourt(courtId)) else None)
      ensures timeSlots == MockSlots && selectedSlots == []
      ensures !loading && !showConfirmation && !showConfetti
    {
      court := if isAuthenticated then Some(MockCourt(courtId)) else None;
      timeSlots := MockSlots;
      selectedSlots := [];
      loading, showConfirmation, showConfetti := false, false, false;
    }

    /** A click on the i-th button of the slot grid. */
    method ClickSlot(i: nat)
      requires i < |timeSlots|
      modifies this
      ensures selectedSlots == Click(old(timeSlots), old(selectedSlots), i)
      ensures court == old(court) && timeSlots == old(timeSlots)
      ensures loading == old(loading) && showConfirmation == old(showConfirmation) && showConfetti == old(showConfetti)
    {
      if timeSlots[i].available {
        selectedSlots := Toggle(selectedSlots, timeSlots[i].time);
      }
    }

    /** The summary line renders `selectedSlots.sort()`, which sorts the state
        array in place as a side effect; the text shown is the sorted list. */
    method ShowSelectedSlots() returns (shown: seq<string>)
      modifies this
      ensures selectedSlots == SortStrings(old(selectedSlots)) && shown == selectedSlots
      ensures Sorted(shown) && multiset(shown) == multiset(old(selectedSlots))
      ensures court == old(court) && timeSlots == old(timeSlots)
      ensures loading == old(loading) && showConfirmation == old(showConfirmation) && showConfetti == old(showConfetti)
    {
      selectedSlots := SortStrings(selectedSlots);
      shown := selectedSlots;
    }

    /** `handleBooking`, taken to its state after the simulated request: without a
        selected slot it only warns; otherwise it ends showing the confirmation. */
    method HandleBooking() returns (warned: bool)
      modifies this
      ensures warned <==> old(selectedSlots) == []
      ensures warned ==> showConfirmation == old(showConfirmation) && showConfetti == old(showConfetti) && loading == old(loading)
      ensures !warned ==> showConfirmation && showConfetti && !loading
      ensures court == old(court) && timeSlots == old(timeSlots) && selectedSlots == old(selectedSlots)
    {
      if |selectedSlots| == 0 {
        return true;
      }
      loading := true;
      loading := false;
      showConfirmation := true;
      showConfetti := true;
      return false;
    }
  }

  /** From a fresh page, the confirmation is reached only once a slot is selected,
      and every selected slot is an available one. */
  method BookAfterClicks(courtId: Option<string>, clicks: seq<nat>) returns (confirmed: bool, selected: seq<string>)
    requires InGrid(MockSlots, clicks)
    ensures confirmed <==> selected != []
    ensures OnlyAvailable(MockSlots, selected)
    ensures NoDuplicates(selected)
  {
    var page := new BookingPage(courtId, true);
    var k := 0;
    while k < |clicks|
      invariant 0 <= k <= |clicks|
      invariant page.timeSlots == MockSlots
      invariant page.selectedSlots == Clicks(MockSlots, [], clicks[..k])
      invariant NoDuplicates(page.selectedSlots)
      invariant !page.showConfirmation
      modifies page
    {
      ToggleKeepsNoDuplicates(page.selectedSlots, MockSlots[clicks[k]].time);
      ClicksStep(MockSlots, [], clicks[..k], clicks[k]);
      assert clicks[..k + 1] == clicks[..k] + [clicks[k]];
      page.ClickSlot(clicks[k]);
      k := k + 1;
    }
    assert clicks[..k] == clicks;
    ClicksKeepOnlyAvailable(MockSlots, [], clicks);
    selected := page.selectedSlots;
    var warned := page.HandleBooking();
    confirmed := page.showConfirmation;
  }

  /** One more click extends a series of clicks. */
  lemma {:induction false} ClicksStep(slots: seq<TimeSlot>, sel: seq<string>, clicks: seq<nat>, c: nat)
    requires InGrid(slots, clicks)
    requires c < |slots|
    ensures Clicks(slots, sel, clicks + [c]) == Click(slots, Clicks(slots, sel, clicks), c)
    decreases |clicks|
  {
    if clicks == [] {
      assert ([] + [c])[1..] == [];
    } else {
      assert (clicks + [c])[1..] == clicks[1..] + [c];
      ClicksStep(slots, Click(slots, sel, clicks[0]), clicks[1..], c);
    }
  }
}
