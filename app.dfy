/**
 * The application shell: one store holding the request list, the user database, the signed-in
 * user and the current view. Each handler replaces some of these fields with a value computed
 * from the old ones.
 */
module App {
  import opened Wrappers
  import opened MockData

  /** `{ ...req, status, remarks: remarks || req.remarks }`. */
  function UpdateRecord(req: ServiceRequest, status: Status, remarks: Option<string>): ServiceRequest {
    req.(status := status, remarks := if remarks.Some? && remarks.value != "" then remarks else req.remarks)
  }

  /** `prev.map(req => req.id === id ? UpdateRecord(req, status, remarks) : req)`. */
  function ApplyStatusUpdate(rs: seq<ServiceRequest>, id: string, status: Status, remarks: Option<string>): seq<ServiceRequest> {
    if rs == [] then []
    else [if rs[0].id == id then UpdateRecord(rs[0], status, remarks) else rs[0]]
         + ApplyStatusUpdate(rs[1..], id, status, remarks)
  }

  /** The fields a status update never touches. */
  function Frozen(r: ServiceRequest): (string, string, string, string, Option<string>, string, string) {
    (r.id, r.studentId, r.studentName, r.serviceType, r.location, r.description, r.date)
  }

  /**
   * A status update keeps the list's length and order; a request with another id is untouched;
   * a matching request gets the new status, keeps every field but `status` and `remarks`, and
   * keeps its old remarks unless the new ones are non-empty.
   */
  lemma {:induction false} StatusUpdateAt(rs: seq<ServiceRequest>, id: string, status: Status, remarks: Option<string>)
    ensures |ApplyStatusUpdate(rs, id, status, remarks)| == |rs|
    ensures forall i :: 0 <= i < |rs| ==> rs[i].id != id ==> ApplyStatusUpdate(rs, id, status, remarks)[i] == rs[i]
    ensures forall i :: 0 <= i < |rs| ==> rs[i].id == id ==>
              && ApplyStatusUpdate(rs, id, status, remarks)[i].status == status
              && Frozen(ApplyStatusUpdate(rs, id, status, remarks)[i]) == Frozen(rs[i])
              && ApplyStatusUpdate(rs, id, status, remarks)[i].remarks ==
                   (if remarks.Some? && remarks.value != "" then remarks else rs[i].remarks)
  {
    if rs != [] {
      StatusUpdateAt(rs[1..], id, status, remarks);
    }
  }

  /** Remarks, once present, can never be cleared by a status update. */
  lemma RemarksNeverCleared(rs: seq<ServiceRequest>, id: string, status: Status, remarks: Option<string>, i: nat)
    requires i < |rs| && rs[i].remarks.Some?
    ensures i < |ApplyStatusUpdate(rs, id, status, remarks)|
    ensures ApplyStatusUpdate(rs, id, status, remarks)[i].remarks.Some?
  {
    StatusUpdateAt(rs, id, status, remarks);
  }

  /** An update naming an id that is not in the list leaves the list as it was, with no error. */
  lemma {:induction false} StatusUpdateUnknownId(rs: seq<ServiceRequest>, id: string, status: Status, remarks: Option<string>)
    requires forall i :: 0 <= i < |rs| ==> rs[i].id != id
    ensures ApplyStatusUpdate(rs, id, status, remarks) == rs
  {
    if rs != [] {
      StatusUpdateUnknownId(rs[1..], id, status, remarks);
    }
  }

  /** Repeating the same update changes nothing more. */
  lemma {:induction false} StatusUpdateIdempotent(rs: seq<ServiceRequest>, id: string, status: Status, remarks: Option<string>)
    ensures ApplyStatusUpdate(ApplyStatusUpdate(rs, id, status, remarks), id, status, remarks)
         == ApplyStatusUpdate(rs, id, status, remarks)
  {
    if rs != [] {
      StatusUpdateIdempotent(rs[1..], id, status, remarks);
      assert ApplyStatusUpdate(rs, id, status, remarks)[1..] == ApplyStatusUpdate(rs[1..], id, status, remarks);
    }
  }

  /** `userDatabase.find(u => u.id === id)`: the first user with that id, if any. */
  function FindUser(db: seq<User>, id: string): (r: Option<User>)
    ensures r.None? <==> forall i :: 0 <= i < |db| ==> db[i].id != id
    ensures r.Some? ==> r.value.id == id
    ensures r.Some? ==> exists i :: 0 <= i < |db| && db[i] == r.value && (forall j :: 0 <= j < i ==> db[j].id != id)
  {
    if db == [] then None
    else if db[0].id == id then Some(db[0])
    else
      var r := FindUser(db[1..], id);
      if r.Some? then
        var i :| 0 <= i < |db[1..]| && db[1..][i] == r.value && forall j :: 0 <= j < i ==> db[1..][j].id != id;
        assert db[i + 1] == r.value;
        r
      else r
  }

  /** The profile a login settles on: the stored record with the same id, else the one supplied. */
  function LoginProfile(db: seq<User>, loggedIn: User): User {
    FindUser(db, loggedIn.id).GetOr(loggedIn)
  }

  /** `prev.map(u => u.id === updatedUser.id ? updatedUser : u)`. */
  function ReplaceUser(db: seq<User>, updated: User): seq<User> {
    if db == [] then [] else [if db[0].id == updated.id then updated else db[0]] + ReplaceUser(db[1..], updated)
  }

  /**
   * A profile update replaces exactly the entries with the updated user's id, keeps every other
   * entry and every position's id, so distinct ids stay distinct.
   */
  lemma {:induction false} ReplaceUserSpec(db: seq<User>, updated: User)
    ensures |ReplaceUser(db, updated)| == |db|
    ensures forall i :: 0 <= i < |db| ==>
              ReplaceUser(db, updated)[i] == if db[i].id == updated.id then updated else db[i]
    ensures forall i :: 0 <= i < |db| ==> ReplaceUser(db, updated)[i].id == db[i].id
    ensures DistinctUserIds(db) ==> DistinctUserIds(ReplaceUser(db, updated))
  {
    if db != [] {
      ReplaceUserSpec(db[1..], updated);
    }
  }

  function DashboardView(role: Option<Role>): string {
    RoleName(role) + "-dashboard"
  }

  /** What `renderView` shows. */
  datatype Screen =
    | LandingScreen
    | RoleSelectionScreen
    | SignUpScreen
    | SignInScreen
    | StaffLoginScreen(isAdmin: bool)
    | DashboardScreen(role: Role)
    | AccessDenied

  predicate HasRole(user: Option<User>, role: Role) {
    user.Some? && user.value.role == Some(role)
  }

  /**
   * `renderView`: a dashboard is shown only to a user of its role; its view name with any other
   * user, or none, shows "Access Denied"; an unknown view shows the landing page.
   */
  function RenderView(view: string, user: Option<User>): (s: Screen)
    ensures s.DashboardScreen? ==> view == DashboardView(Some(s.role)) && HasRole(user, s.role)
    ensures forall role :: view == DashboardView(Some(role)) ==>
              s == (if HasRole(user, role) then DashboardScreen(role) else AccessDenied)
    ensures s == AccessDenied ==> exists role :: view == DashboardView(Some(role)) && !HasRole(user, role)
  {
    assert DashboardView(Some(Student)) == "student-dashboard";
    assert DashboardView(Some(Staff)) == "staff-dashboard";
    assert DashboardView(Some(Admin)) == "admin-dashboard";
    if view == "landing" then LandingScreen
    else if view == "role-selection" then RoleSelectionScreen
    else if view == "student-signup" then SignUpScreen
    else if view == "student-login" then SignInScreen
    else if view == "staff-login" then StaffLoginScreen(false)
    else if view == "admin-login" then StaffLoginScreen(true)
    else if view == "student-dashboard" then
      (if HasRole(user, Student) then DashboardScreen(Student) else AccessDenied)
    else if view == "staff-dashboard" then
      (if HasRole(user, Staff) then DashboardScreen(Staff) else AccessDenied)
    else if view == "admin-dashboard" then
      (if HasRole(user, Admin) then DashboardScreen(Admin) else AccessDenied)
    else LandingScreen
  }

  class AppState {
    var user: Option<User>
    var view: string
    var requests: seq<ServiceRequest>
    var userDatabase: seq<User>
    var isSettingsOpen: bool

    constructor ()
      ensures user == None && view == "landing" && !isSettingsOpen
      ensures requests == InitialRequests && userDatabase == UserDatabase
    {
      user := None;
      view := "landing";
      requests := InitialRequests;
      userDatabase := UserDatabase;
      isSettingsOpen := false;
    }

    /** `handleNavigate`; the scroll to the top is left out. */
    method Navigate(newView: string)
      modifies this
      ensures view == newView
      ensures user == old(user) && requests == old(requests) && userDatabase == old(userDatabase)
      ensures isSettingsOpen == old(isSettingsOpen)
    {
      view := newView;
    }

    method Login(loggedIn: User)
      modifies this
      ensures user == Some(LoginProfile(old(userDatabase), loggedIn))
      ensures view == DashboardView(user.value.role)
      ensures requests == old(requests) && userDatabase == old(userDatabase)
      ensures isSettingsOpen == old(isSettingsOpen)
    {
      var dbUser := LoginProfile(userDatabase, loggedIn);
      user := Some(dbUser);
      Navigate(DashboardView(dbUser.role));
    }

    method Logout()
      modifies this
      ensures user == None && view == "landing"
      ensures requests == old(requests) && userDatabase == old(userDatabase)
      ensures isSettingsOpen == old(isSettingsOpen)
    {
      user := None;
      Navigate("landing");
    }

    /** Prepends the new request; nothing about it is checked. */
    method SubmitRequest(newRequest: ServiceRequest)
      modifies this
      ensures requests == [newRequest] + old(requests)
      ensures user == old(user) && view == old(view) && userDatabase == old(userDatabase)
      ensures isSettingsOpen == old(isSettingsOpen)
    {
      requests := [newRequest] + requests;
    }

    /** Any status may be set; an unknown id changes nothing. */
    method UpdateRequest(id: string, status: Status, remarks: Option<string>)
      modifies this
      ensures requests == ApplyStatusUpdate(old(requests), id, status, remarks)
      ensures user == old(user) && view == old(view) && userDatabase == old(userDatabase)
      ensures isSettingsOpen == old(isSettingsOpen)
    {
      requests := ApplyStatusUpdate(requests, id, status, remarks);
    }

    /** The requests, and the student names copied into them, are left as they were. */
    method UpdateUser(updated: User)
      modifies this
      ensures user == Some(updated)
      ensures userDatabase == ReplaceUser(old(userDatabase), updated)
      ensures requests == old(requests) && view == old(view)
      ensures isSettingsOpen == old(isSettingsOpen)
    {
      user := Some(updated);
      userDatabase := ReplaceUser(userDatabase, updated);
    }

    method RegisterUser(newUser: User)
      modifies this
      ensures userDatabase == old(userDatabase) + [newUser]
      ensures user == Some(newUser) && view == DashboardView(newUser.role)
      ensures requests == old(requests)
      ensures isSettingsOpen == old(isSettingsOpen)
    {
      userDatabase := userDatabase + [newUser];
      user := Some(newUser);
      Navigate(DashboardView(newUser.role));
    }

    method OpenSettings()
      modifies this`isSettingsOpen
      ensures isSettingsOpen
    {
      isSettingsOpen := true;
    }

    method CloseSettings()
      modifies this`isSettingsOpen
      ensures !isSettingsOpen
    {
      isSettingsOpen := false;
    }
  }

  /**
   * A login with a seed profile, or a registration, lands on the dashboard of the user's role,
   * and that dashboard renders rather than "Access Denied".
   */
  lemma LoginShowsOwnDashboard(db: seq<User>, loggedIn: User)
    requires LoginProfile(db, loggedIn).role.Some?
    ensures var u := LoginProfile(db, loggedIn);
            RenderView(DashboardView(u.role), Some(u)) == DashboardScreen(u.role.value)
  {
  }

  /**
   * Renaming a user after a submission changes the signed-in user and the directory, while the
   * store, and with it the student name copied into that request, stays as the submission left it.
   */
  method RenameKeepsSnapshot(app: AppState, req: ServiceRequest, renamed: User)
    modifies app
    ensures app.user == Some(renamed)
    ensures app.userDatabase == ReplaceUser(old(app.userDatabase), renamed)
    ensures app.requests == [req] + old(app.requests)
  {
    app.SubmitRequest(req);
    app.UpdateUser(renamed);
  }
}
