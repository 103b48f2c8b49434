/** The helpers of the React courts catalogue: the sport filter, the `sport`
    URL parameter, and the count of free slots on the selected date. */
module Courts {
  import opened Text

  datatype Slot = Slot(time: string, available: bool)

  /** One entry of a court's `availability`: the slots of one ISO date. */
  datatype DayAvailability = DayAvailability(date: string, slots: seq<Slot>)

  /** A catalogue court; `courtType` is one of the lower-case sport names. */
  datatype Court = Court(
    id: string, name: string, courtType: string, location: string,
    capacity: int, pricePerHour: int, features: seq<string>,
    availability: seq<DayAvailability>)

  /** `courts.filter(court => court.type === t)`. */
  function OfType(cs: seq<Court>, t: string): (r: seq<Court>)
    ensures forall c :: c in r <==> c in cs && c.courtType == t
    ensures |r| <= |cs|
  {
    if cs == [] then []
    else if cs[0].courtType == t then [cs[0]] + OfType(cs[1..], t)
    else OfType(cs[1..], t)
  }

  /** The filter effect: "all" shows every court. */
  function FilterByType(cs: seq<Court>, selectedType: string): (r: seq<Court>)
    ensures selectedType == "all" ==> r == cs
    ensures selectedType != "all" ==> forall c :: c in r <==> c in cs && c.courtType == selectedType
    ensures |r| <= |cs|
  {
    if selectedType != "all" then OfType(cs, selectedType) else cs
  }

  /** With "all" the list is shown as loaded. */
  lemma FilterAllIsIdentity(cs: seq<Court>)
    ensures FilterByType(cs, "all") == cs
  {
  }

  /** The filter keeps the catalogue order: it distributes over concatenation. */
  lemma {:induction false} OfTypeConcat(a: seq<Court>, b: seq<Court>, t: string)
    ensures OfType(a + b, t) == OfType(a, t) + OfType(b, t)
  {
    if a == [] {
      assert a + b == b;
    } else {
      assert (a + b)[1..] == a[1..] + b;
      OfTypeConcat(a[1..], b, t);
    }
  }

  /** Any other type shows exactly the courts of that type, each as often as in
      the catalogue, and no other court. */
  lemma {:induction false} FilterByTypeExact(cs: seq<Court>, t: string)
    requires t != "all"
    ensures forall c :: multiset(FilterByType(cs, t))[c] == if c.courtType == t then multiset(cs)[c] else 0
  {
    OfTypeCounts(cs, t);
  }

  lemma {:induction false} OfTypeCounts(cs: seq<Court>, t: string)
    ensures forall c :: multiset(OfType(cs, t))[c] == if c.courtType == t then multiset(cs)[c] else 0
  {
    if cs != [] {
      OfTypeCounts(cs[1..], t);
      assert cs == [cs[0]] + cs[1..];
    }
  }

  /** The type the URL effect leaves selected: a present, non-empty `sport`
      parameter replaces the current one. */
  function SelectedTypeFromUrl(sport: Option<string>, current: string): (r: string)
    ensures sport.Some? && sport.value != "" ==> r == sport.value
    ensures sport.None? || sport.value == "" ==> r == current
  {
    match sport
    case Some(s) => if s != "" then s else current
    case None => current
  }

  /** `availability.find(av => av.date === date)`: the first entry of that date. */
  function FindByDate(av: seq<DayAvailability>, date: string): (r: Option<DayAvailability>)
    ensures r.None? <==> forall i :: 0 <= i < |av| ==> av[i].date != date
    ensures r.Some? ==> exists i :: 0 <= i < |av| && av[i] == r.value && r.value.date == date &&
                                    forall j :: 0 <= j < i ==> av[j].date != date
  {
    if av == [] then None
    else if av[0].date == date then Some(av[0])
    else
      var r := FindByDate(av[1..], date);
      assert r.Some? ==> exists i :: 0 <= i < |av| && av[i] == r.value && r.value.date == date &&
                                    forall j :: 0 <= j < i ==> av[j].date != date by {
        if r.Some? {
          var i :| 0 <= i < |av[1..]| && av[1..][i] == r.value && r.value.date == date &&
                   forall j :: 0 <= j < i ==> av[1..][j].date != date;
          assert forall j :: 0 <= j < i + 1 ==> av[j].date != date by {
            forall j | 0 <= j < i + 1 ensures av[j].date != date {
              if j > 0 { assert av[j] == av[1..][j - 1]; }
            }
          }
        }
      }
      r
  }

  /** `slots.filter(slot => slot.available).length`. */
  function CountAvailable(slots: seq<Slot>): (n: nat)
    ensures n <= |slots|
    ensures n == |slots| <==> forall i :: 0 <= i < |slots| ==> slots[i].available
    ensures n == 0 <==> forall i :: 0 <= i < |slots| ==> !slots[i].available
  {
    if slots == [] then 0
    else
      var rest := CountAvailable(slots[1..]);
      assert forall i :: 1 <= i < |slots| ==> slots[i] == slots[1..][i - 1];
      (if slots[0].available then 1 else 0) + rest
  }

  /** `getAvailableSlots`: the free slots of the first entry for the selected date,
      0 when the court has none for that date. */
  function GetAvailableSlots(c: Court, selectedDate: string): (n: nat)
    ensures FindByDate(c.availability, selectedDate).None? ==> n == 0
    ensures FindByDate(c.availability, selectedDate).Some? ==>
              n == CountAvailable(FindByDate(c.availability, selectedDate).value.slots) &&
              n <= |FindByDate(c.availability, selectedDate).value.slots|
  {
    match FindByDate(c.availability, selectedDate)
    case None => 0
    case Some(d) => CountAvailable(d.slots)
  }

  /** A court whose first entry for the date has every slot taken shows 0, and one
      with no entry for the date shows 0 too. */
  lemma NoFreeSlotsShowsZero(c: Court, selectedDate: string)
    requires forall i :: 0 <= i < |c.availability| && c.availability[i].date == selectedDate ==>
               forall k :: 0 <= k < |c.availability[i].slots| ==> !c.availability[i].slots[k].available
    ensures GetAvailableSlots(c, selectedDate) == 0
  {
  }
}
