/** The record types, the enumerations and the seed fixtures of the application. */
module MockData {
  import opened Wrappers
  import Text

  /** `UserRole`; a user's role may also be `null`, written `None` here. */
  datatype Role = Student | Staff | Admin

  datatype User = User(
    id: string,
    name: string,
    email: string,
    role: Option<Role>,
    enrollmentNumber: Option<string>,
    department: Option<string>,
    avatarUrl: Option<string>)

  /** `RequestStatus`: exactly three values. */
  datatype Status = Submitted | InProgress | Resolved

  datatype ServiceRequest = ServiceRequest(
    id: string,
    studentId: string,
    studentName: string,
    serviceType: string,
    location: Option<string>,
    description: string,
    status: Status,
    date: string,
    remarks: Option<string>)

  /** How a role is written inside a template string such as `${role}-dashboard`. */
  function RoleName(role: Option<Role>): string {
    match role
    case Some(Student) => "student"
    case Some(Staff) => "staff"
    case Some(Admin) => "admin"
    case None => "null"
  }

  const StudentAvatar := "https://images.unsplash.com/photo-1535713875002-d1d0cf377fde?auto=format&fit=crop&q=80&w=100"

  const MockStudent := User("s1", "Rahul Sharma", "rahul.s@college.edu", Some(Student),
    Some("CS2023001"), Some("Computer Science"), Some(StudentAvatar))

  const MockStaff := User("st1", "Prof. Anjali Gupta", "anjali.g@college.edu", Some(Staff),
    None, None,
    Some("https://images.unsplash.com/photo-1494790108377-be9c29b29330?auto=format&fit=crop&q=80&w=100"))

  const MockAdmin := User("a1", "System Admin", "admin@college.edu", Some(Admin),
    None, None,
    Some("https://images.unsplash.com/photo-1472099645785-5658abf4ff4e?auto=format&fit=crop&q=80&w=100"))

  const UserDatabase: seq<User> := [MockStudent, MockStaff, MockAdmin]

  const InitialRequests: seq<ServiceRequest> := [
    ServiceRequest("req1", "s1", "Rahul Sharma", "Drinking Water Issue", Some("Block A, 2nd Floor"),
      "Water cooler is leaking.", Submitted, "2023-10-25", None),
    ServiceRequest("req2", "s2", "Priya Patel", "Cleanliness in Classroom", Some("Room 304"),
      "Dustbins are full.", InProgress, "2023-10-24", None),
    ServiceRequest("req3", "s1", "Rahul Sharma", "ID Card Issue", None,
      "Lost my ID card, need replacement.", Resolved, "2023-10-20", Some("Collect from Admin block"))
  ]

  const ServiceTypes: seq<string> := [
    "Drinking Water Issue",
    "ID Card Issue",
    "ERP Related Issue",
    "Water Related Issue",
    "Cleanliness in Classroom",
    "Parking Related Issue",
    "Canteen Issue",
    "Ragging / Harassment",
    "Other"
  ]

  predicate DistinctIds(rs: seq<ServiceRequest>) {
    forall i, j :: 0 <= i < j < |rs| ==> rs[i].id != rs[j].id
  }

  predicate DistinctUserIds(us: seq<User>) {
    forall i, j :: 0 <= i < j < |us| ==> us[i].id != us[j].id
  }

  /** Seed request ids are pairwise distinct. */
  lemma SeedRequestIdsDistinct()
    ensures DistinctIds(InitialRequests)
  {
  }

  /** Seed user ids are distinct, and every role has a seed user. */
  lemma SeedUsers()
    ensures DistinctUserIds(UserDatabase)
    ensures forall role: Role :: Some(role) in RolesOf(UserDatabase)
  {
    forall role: Role ensures Some(role) in RolesOf(UserDatabase) {
      var i := match role case Student => 0 case Staff => 1 case Admin => 2;
      assert UserDatabase[i].role == Some(role);
    }
  }

  function RolesOf(us: seq<User>): set<Option<Role>> {
    set i | 0 <= i < |us| :: us[i].role
  }

  /** Every seed request names one of the offered service types. */
  lemma SeedServiceTypesOffered()
    ensures forall i :: 0 <= i < |InitialRequests| ==> InitialRequests[i].serviceType in ServiceTypes
  {
    assert InitialRequests[0].serviceType == ServiceTypes[0];
    assert InitialRequests[1].serviceType == ServiceTypes[4];
    assert InitialRequests[2].serviceType == ServiceTypes[1];
  }

  /** The seed is already newest first, with no two requests on the same date. */
  lemma SeedNewestFirst()
    ensures forall i, j :: 0 <= i < j < |InitialRequests| ==>
              Text.LexLess(InitialRequests[j].date, InitialRequests[i].date)
  {
    var dates := ["2023-10-25", "2023-10-24", "2023-10-20"];
    forall i, j | 0 <= i < j < 3 ensures Text.LexLess(dates[j], dates[i]) {
      assert dates[j][..9] == dates[i][..9];
      Text.LexLessAt(dates[j], dates[i], 9);
    }
    assert forall i :: 0 <= i < 3 ==> InitialRequests[i].date == dates[i];
  }

  /** Only `req3` carries remarks. */
  lemma SeedRemarks()
    ensures forall i :: 0 <= i < |InitialRequests| ==>
              (InitialRequests[i].remarks.Some? <==> InitialRequests[i].id == "req3")
  {
  }

  /** Nine distinct service types, the last being `Other`. */
  lemma ServiceTypesDistinct()
    ensures |ServiceTypes| == 9 && ServiceTypes[8] == "Other"
    ensures forall i, j :: 0 <= i < j < |ServiceTypes| ==> ServiceTypes[i] != ServiceTypes[j]
  {
    forall i, j | 0 <= i < j < |ServiceTypes| ensures ServiceTypes[i] != ServiceTypes[j] {
      assert |ServiceTypes[i]| != |ServiceTypes[j]| || ServiceTypes[i][0] != ServiceTypes[j][0];
    }
  }
}
