/** The two-step booking flow of the Next.js app: pick a court, then fill in the
    details and append a booking to the list kept under the `bookings` key of
    local storage. The alert and the navigation to the profile are not modelled;
    `Date.now()` and the ISO time stamp are parameters. */
module BookingFlow {
  import opened Text

  /** An entry of the `courts` catalogue (description and amenities omitted). */
  datatype CourtInfo = CourtInfo(id: int, name: string, courtType: string, capacity: int, price: int)

  const Courts: seq<CourtInfo> := [
    CourtInfo(1, "Basketball Court A", "Basketball", 10, 200),
    CourtInfo(2, "Basketball Court B", "Basketball", 10, 200),
    CourtInfo(3, "Tennis Court 1", "Tennis", 4, 150),
    CourtInfo(4, "Tennis Court 2", "Tennis", 4, 150),
    CourtInfo(5, "Badminton Court 1", "Badminton", 4, 100),
    CourtInfo(6, "Badminton Court 2", "Badminton", 4, 100),
    CourtInfo(7, "Cricket Ground", "Cricket", 22, 500)
  ]

  /** The catalogue ids are 1 to 7 in order, and every price is positive. */
  lemma CourtsCatalogue()
    ensures |Courts| == 7
    ensures forall i :: 0 <= i < |Courts| ==> Courts[i].id == i + 1 && Courts[i].price > 0
  {
  }

  const TimeSlots: seq<string> := [
    "06:00 - 07:00", "07:00 - 08:00", "08:00 - 09:00", "09:00 - 10:00",
    "10:00 - 11:00", "11:00 - 12:00", "12:00 - 13:00", "13:00 - 14:00",
    "14:00 - 15:00", "15:00 - 16:00", "16:00 - 17:00", "17:00 - 18:00",
    "18:00 - 19:00", "19:00 - 20:00", "20:00 - 21:00", "21:00 - 22:00"
  ]

  /** The digit character of 0..9. */
  function Digit(d: nat): char
    requires d < 10
  {
    ('0' as int + d) as char
  }

  /** The label of the one-hour slot starting at hour `h`: "hh:00 - hh:00". */
  function HourRange(h: nat): (r: string)
    requires h < 99
    ensures |r| == 13
  {
    [Digit(h / 10), Digit(h % 10), ':', '0', '0', ' ', '-', ' ', Digit((h + 1) / 10), Digit((h + 1) % 10), ':', '0', '0']
  }

  /** Slots 0 to 7 of the grid. */
  lemma TimeSlotsMorning()
    ensures forall i :: 0 <= i < 8 ==> TimeSlots[i] == HourRange(6 + i)
  {
  }

  /** Slots 8 to 15 of the grid. */
  lemma TimeSlotsAfternoon()
    ensures forall i :: 8 <= i < 16 ==> TimeSlots[i] == HourRange(6 + i)
  {
  }

  /** The grid is the sixteen one-hour slots from 06:00 to 22:00. */
  lemma TimeSlotsAreHours()
    ensures |TimeSlots| == 16
    ensures forall i :: 0 <= i < 16 ==> TimeSlots[i] == HourRange(6 + i)
  {
    TimeSlotsMorning();
    TimeSlotsAfternoon();
  }

  /** Each slot ends at the time the next one starts. */
  lemma HourRangeJoins(h: nat)
    requires h + 1 < 99
    ensures HourRange(h)[8..] == HourRange(h + 1)[..5]
  {
  }

  /** A later hour gives a later label, so string order is time order. */
  lemma HourRangeAscending(h: nat)
    requires h + 1 < 99
    ensures StrLt(HourRange(h), HourRange(h + 1))
  {
    var a, b := HourRange(h), HourRange(h + 1);
    if a[0] != b[0] {
      assert a[0] < b[0];
    } else {
      assert a[1] < b[1];
      assert a[1..][0] == a[1] && b[1..][0] == b[1];
      assert StrLt(a[1..], b[1..]);
    }
  }

  /** The grid is contiguous and ascending, from 06:00 to 22:00. */
  lemma TimeSlotsGrid()
    ensures TimeSlots[0][..5] == "06:00" && TimeSlots[15][8..] == "22:00"
    ensures forall i :: 0 <= i < 15 ==> TimeSlots[i][8..] == TimeSlots[i + 1][..5]
    ensures forall i :: 0 <= i < 15 ==> StrLt(TimeSlots[i], TimeSlots[i + 1])
  {
    TimeSlotsAreHours();
    forall i | 0 <= i < 15
      ensures TimeSlots[i][8..] == TimeSlots[i + 1][..5] && StrLt(TimeSlots[i], TimeSlots[i + 1])
    {
      HourRangeJoins(6 + i);
      HourRangeAscending(6 + i);
    }
  }

  /** The record `handleBooking` appends. */
  datatype Booking = Booking(
    id: int, court: CourtInfo, date: string, time: string,
    playerName: string, playerEmail: string, notes: string,
    status: string, bookedAt: string)

  /** The details of the second step that the page edits one input at a time. */
  datatype Detail = DateInput | TimeInput | NameInput | EmailInput | NotesInput

  class BookingFlow {
    var step: int
    var selectedCourt: Option<CourtInfo>
    var selectedDate: string
    var selectedTime: string
    var playerName: string
    var playerEmail: string
    var notes: string
    /** The `bookings` entry of local storage. */
    var stored: seq<Booking>

    /** The required-field guard of `handleBooking`; notes may stay empty. */
    predicate Complete()
      reads this
    {
      selectedCourt.Some? && selectedDate != "" && selectedTime != "" && playerName != "" && playerEmail != ""
    }

    /** The page as it mounts: step 1, nothing chosen; `stored` is what storage
        already holds (an absent entry is the empty list). */
    constructor (saved: seq<Booking>)
      ensures step == 1 && selectedCourt == None
      ensures selectedDate == "" && selectedTime == "" && playerName == "" && playerEmail == "" && notes == ""
      ensures stored == saved
    {
      step := 1;
      selectedCourt := None;
      selectedDate, selectedTime, playerName, playerEmail, notes := "", "", "", "", "";
      stored := saved;
    }

    /** `handleCourtSelection`. */
    method SelectCourt(c: CourtInfo)
      modifies this
      ensures selectedCourt == Some(c) && step == 2
      ensures selectedDate == old(selectedDate) && selectedTime == old(selectedTime)
      ensures playerName == old(playerName) && playerEmail == old(playerEmail) && notes == old(notes)
      ensures stored == old(stored)
    {
      selectedCourt := Some(c);
      step := 2;
    }

    /** The "Change Court" button: back to step 1, everything else kept. */
    method ChangeCourt()
      modifies this
      ensures step == 1 && selectedCourt == old(selectedCourt)
      ensures selectedDate == old(selectedDate) && selectedTime == old(selectedTime)
      ensures playerName == old(playerName) && playerEmail == old(playerEmail) && notes == old(notes)
      ensures stored == old(stored)
    {
      step := 1;
    }

    /** The `onChange` of one input of the details form. */
    method Edit(d: Detail, value: string)
      modifies this
      ensures selectedDate == (if d == DateInput then value else old(selectedDate))
      ensures selectedTime == (if d == TimeInput then value else old(selectedTime))
      ensures playerName == (if d == NameInput then value else old(playerName))
      ensures playerEmail == (if d == EmailInput then value else old(playerEmail))
      ensures notes == (if d == NotesInput then value else old(notes))
      ensures step == old(step) && selectedCourt == old(selectedCourt) && stored == old(stored)
    {
      match d
      case DateInput => selectedDate := value;
      case TimeInput => selectedTime := value;
      case NameInput => playerName := value;
      case EmailInput => playerEmail := value;
      case NotesInput => notes := value;
    }

    /** `handleBooking`: an incomplete form is refused and nothing changes;
        otherwise one "Confirmed" booking of the current choices is appended. */
    method HandleBooking(now: int, bookedAt: string) returns (ok: bool)
      modifies this
      ensures ok <==> old(Complete())
      ensures ok ==> stored == old(stored) + [Booking(now, old(selectedCourt).value, selectedDate, selectedTime,
                                                   playerName, playerEmail, notes, "Confirmed", bookedAt)]
      ensures !ok ==> stored == old(stored)
      ensures step == old(step) && selectedCourt == old(selectedCourt)
      ensures selectedDate == old(selectedDate) && selectedTime == old(selectedTime)
      ensures playerName == old(playerName) && playerEmail == old(playerEmail) && notes == old(notes)
    {
      if !Complete() {
        return false;
      }
      var existing := stored;
      var b := Booking(now, selectedCourt.value, selectedDate, selectedTime,
                       playerName, playerEmail, notes, "Confirmed", bookedAt);
      existing := existing + [b];
      stored := existing;
      return true;
    }
  }

  /** A full pass through the flow: choosing a court, filling the required inputs
      and confirming appends exactly one booking carrying those choices, whatever
      was stored before; leaving the name empty appends nothing. Changing the
      court in between keeps what was typed. */
  method BookThroughFlow(saved: seq<Booking>, c: CourtInfo, date: string, time: string,
                         name: string, email: string, now: int, at: string)
    returns (ok: bool, after: seq<Booking>)
    requires date != "" && time != "" && email != ""
    ensures ok <==> name != ""
    ensures ok ==> |after| == |saved| + 1 && after[..|saved|] == saved
    ensures ok ==> after[|saved|] == Booking(now, c, date, time, name, email, "", "Confirmed", at)
    ensures !ok ==> after == saved
  {
    var page := new BookingFlow(saved);
    page.SelectCourt(c);
    page.Edit(DateInput, date);
    page.Edit(TimeInput, time);
    page.ChangeCourt();
    page.SelectCourt(c);
    page.Edit(NameInput, name);
    page.Edit(EmailInput, email);
    ok := page.HandleBooking(now, at);
    after := page.stored;
  }
}
