/** The admin dashboard of the React app: the admin guard, the mock dashboard
    data it loads, and adding a court through the "Add Court" form. The id of a
    new court (`Date.now().toString()`) is a parameter. */
module Admin {
  import opened Text
  import AuthContext

  datatype CourtStatus = Active | Maintenance | Inactive

  datatype Court = Court(
    id: string, name: string, courtType: string, location: string,
    capacity: int, pricePerHour: int, status: CourtStatus)

  /** The `newCourt` form state. */
  datatype CourtForm = CourtForm(name: string, courtType: string, location: string, capacity: int, pricePerHour: int)

  const DefaultForm := CourtForm("", "basketball", "", 10, 200)

  datatype DashboardStats = DashboardStats(totalBookings: int, totalRevenue: int, activeUsers: int, courtUtilization: int)

  const EmptyStats := DashboardStats(0, 0, 0, 0)

  const MockStats := DashboardStats(156, 45600, 89, 78)

  const MockCourts: seq<Court> := [
    Court("1", "Main Basketball Court", "Basketball", "Sports Complex A", 10, 200, Active),
    Court("2", "Badminton Court 1", "Badminton", "Sports Complex B", 4, 150, Active),
    Court("3", "Tennis Court", "Tennis", "Outdoor Complex", 4, 250, Maintenance)
  ]

  /** The guard of the mount effect and of the render: a signed-in user whose
      `userType` is "admin"; nobody signed out passes it. */
  predicate IsAdmin(user: Option<AuthContext.User>): (r: bool)
    ensures r ==> user.Some?
    ensures user.Some? ==> (r <==> user.value.userType == "admin")
  {
    user.Some? && user.value.userType == "admin"
  }

  /** Through the mock login, the dashboard opens exactly for an email that
      contains "admin". */
  lemma MockLoginIsAdmin(email: string)
    ensures IsAdmin(Some(AuthContext.MockUser(email))) <==> Includes(email, "admin")
  {
  }

  /** The court `handleAddCourt` builds from the form. */
  function FromForm(f: CourtForm, id: string): (c: Court)
    ensures c.id == id && c.status == Active
    ensures c.name == f.name && c.location == f.location
    ensures c.capacity == f.capacity && c.pricePerHour == f.pricePerHour
    ensures |c.courtType| == |f.courtType|
    ensures f.courtType != "" ==> c.courtType[0] == ToUpperChar(f.courtType[0]) && c.courtType[1..] == f.courtType[1..]
  {
    Court(id, f.name, Capitalize(f.courtType), f.location, f.capacity, f.pricePerHour, Active)
  }

  /** The default sport becomes "Basketball", the spelling of the loaded courts. */
  lemma DefaultTypeCapitalized()
    ensures FromForm(DefaultForm, "x").courtType == "Basketball"
  {
    var c := FromForm(DefaultForm, "x").courtType;
    assert c[0] == 'B' && c[1..] == "asketball";
    assert c == [c[0]] + c[1..];
  }

  /** One `onChange` of the form; the number inputs pass their parsed value. */
  datatype FormEdit = SetName(s: string) | SetType(s: string) | SetLocation(s: string)
                    | SetCapacity(n: int) | SetPrice(n: int)

  function ApplyEdit(f: CourtForm, e: FormEdit): (g: CourtForm)
    ensures g.name == (if e.SetName? then e.s else f.name)
    ensures g.courtType == (if e.SetType? then e.s else f.courtType)
    ensures g.location == (if e.SetLocation? then e.s else f.location)
    ensures g.capacity == (if e.SetCapacity? then e.n else f.capacity)
    ensures g.pricePerHour == (if e.SetPrice? then e.n else f.pricePerHour)
  {
    match e
    case SetName(s) => f.(name := s)
    case SetType(s) => f.(courtType := s)
    case SetLocation(s) => f.(location := s)
    case SetCapacity(n) => f.(capacity := n)
    case SetPrice(n) => f.(pricePerHour := n)
  }

  class AdminPage {
    var stats: DashboardStats
    var courts: seq<Court>
    var showAddCourt: bool
    var newCourt: CourtForm

    /** The initial state, before the mount effect. */
    constructor ()
      ensures stats == EmptyStats && courts == [] && !showAddCourt && newCourt == DefaultForm
    {
      stats := EmptyStats;
      courts := [];
      showAddCourt := false;
      newCourt := DefaultForm;
    }

    /** The mount effect: anyone but an admin is redirected to "/" and nothing is
        loaded; an admin gets the mock dashboard. */
    method Mount(user: Option<AuthContext.User>) returns (redirect: bool)
      modifies this
      ensures redirect <==> !IsAdmin(user)
      ensures redirect ==> stats == old(stats) && courts == old(courts)
      ensures !redirect ==> stats == MockStats && courts == MockCourts
      ensures showAddCourt == old(showAddCourt) && newCourt == old(newCourt)
    {
      if !IsAdmin(user) {
        return true;
      }
      stats := MockStats;
      courts := MockCourts;
      return false;
    }

    method OpenAddCourt()
      modifies this
      ensures showAddCourt && stats == old(stats) && courts == old(courts) && newCourt == old(newCourt)
    {
      showAddCourt := true;
    }

    method EditForm(e: FormEdit)
      modifies this
      ensures newCourt == ApplyEdit(old(newCourt), e)
      ensures showAddCourt == old(showAddCourt) && stats == old(stats) && courts == old(courts)
    {
      newCourt := ApplyEdit(newCourt, e);
    }

    /** `handleAddCourt`: append the form's court, reset the form, close the modal. */
    method HandleAddCourt(id: string)
      modifies this
      ensures courts == old(courts) + [FromForm(old(newCourt), id)]
      ensures newCourt == DefaultForm && !showAddCourt
      ensures stats == old(stats)
    {
      var court := FromForm(newCourt, id);
      courts := courts + [court];
      newCourt := DefaultForm;
      showAddCourt := false;
    }
  }

  /** An admin who opens the form, types a court and adds it sees the three mock
      courts followed by the new one, active and with its sport capitalised, and
      the form back at its defaults; anyone else is redirected and sees nothing. */
  method AddCourtAsAdmin(user: Option<AuthContext.User>, name: string, sport: string, id: string)
    returns (redirect: bool, rendered: bool, shown: seq<Court>, form: CourtForm)
    ensures redirect <==> !IsAdmin(user)
    ensures rendered <==> IsAdmin(user)
    ensures redirect ==> shown == []
    ensures !redirect ==> |shown| == 4 && shown[..3] == MockCourts
    ensures !redirect ==> shown[3].name == name && shown[3].status == Active && shown[3].courtType == Capitalize(sport)
    ensures !redirect ==> shown[3].capacity == 10 && shown[3].pricePerHour == 200 && form == DefaultForm
  {
    var page := new AdminPage();
    redirect := page.Mount(user);
    rendered := IsAdmin(user);
    if rendered {
      page.OpenAddCourt();
      page.EditForm(SetName(name));
      page.EditForm(SetType(sport));
      page.HandleAddCourt(id);
    }
    shown, form := page.courts, page.newCourt;
  }
}
