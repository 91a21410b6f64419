/** The dashboard (frontend/src/pages/DashboardPage.jsx): which section it
    shows, the default department after the first fetch, and the
    department list kept by the admin-only DepartmentsPage. */
module DashboardPage {
  import opened Values
  import opened Web

  datatype Section = FeedSection | CreateSection | DepartmentsSection | UsersSection

  /** `user?.role === "admin"`. */
  predicate IsAdmin(role: Option<string>)
  {
    role == Some("admin")
  }

  /** The sections whose render condition holds for `currentPage`. */
  function Rendered(currentPage: string, isAdmin: bool): set<Section>
  {
    (if currentPage == "feed" then {FeedSection} else {})
    + (if currentPage == "create" then {CreateSection} else {})
    + (if currentPage == "departments" && isAdmin then {DepartmentsSection} else {})
    + (if currentPage == "users" && isAdmin then {UsersSection} else {})
  }

  /** At most one section renders, and the admin sections only for admins,
      whatever page name is current. */
  lemma OneSectionAtMost(currentPage: string, role: Option<string>)
    ensures |Rendered(currentPage, IsAdmin(role))| <= 1
    ensures DepartmentsSection in Rendered(currentPage, IsAdmin(role)) ==> role == Some("admin")
    ensures UsersSection in Rendered(currentPage, IsAdmin(role)) ==> role == Some("admin")
    ensures Rendered(currentPage, IsAdmin(role)) == {} <==>
              currentPage !in {"feed", "create"} && (!IsAdmin(role) || currentPage !in {"departments", "users"})
  {
  }

  /** `departments.filter((d) => d._id !== id)`. */
  function RemoveId(departments: seq<Department>, id: string): (r: seq<Department>)
    ensures |r| <= |departments|
    ensures forall d :: d in r <==> d in departments && d.id != id
  {
    if departments == [] then []
    else (if departments[0].id != id then [departments[0]] else []) + RemoveId(departments[1..], id)
  }

  /** Deleting keeps the survivors in their order: it works piece by piece. */
  lemma {:induction false} RemoveIdAppend(a: seq<Department>, b: seq<Department>, id: string)
    ensures RemoveId(a + b, id) == RemoveId(a, id) + RemoveId(b, id)
    decreases |a|
  {
    if a != [] {
      assert (a + b)[1..] == a[1..] + b;
      RemoveIdAppend(a[1..], b, id);
    } else {
      assert a + b == b;
    }
  }

  /** Deleting an id nobody has changes nothing. */
  lemma {:induction false} RemoveAbsentId(departments: seq<Department>, id: string)
    requires forall i :: 0 <= i < |departments| ==> departments[i].id != id
    ensures RemoveId(departments, id) == departments
    decreases |departments|
  {
    if departments != [] {
      RemoveAbsentId(departments[1..], id);
    }
  }

  class Dashboard {
    var currentPage: string
    var departments: seq<Department>
    var selectedDept: Option<string>

    constructor ()
      ensures currentPage == "feed" && departments == [] && selectedDept == None
    {
      currentPage := "feed";
      departments := [];
      selectedDept := None;
    }

    /** The mount effect. Its callback sees `selectedDept` as it was at the
        first render; `seenSelection` is that value. On success the list is
        replaced and, if nothing was selected, the first department is. */
    method FetchDepartments(answer: Settled<seq<Department>>, seenSelection: Option<string>)
      modifies this`departments, this`selectedDept
      ensures answer.Rejected? ==> departments == old(departments) && selectedDept == old(selectedDept)
      ensures answer.Resolved? ==> departments == answer.data
      ensures answer.Resolved? && |answer.data| > 0 && !Filled(seenSelection) ==>
                selectedDept == Some(answer.data[0].id)
      ensures answer.Resolved? && (|answer.data| == 0 || Filled(seenSelection)) ==>
                selectedDept == old(selectedDept)
    {
      if answer.Resolved? {
        departments := answer.data;
        if |answer.data| > 0 && !Filled(seenSelection) {
          selectedDept := Some(answer.data[0].id);
        }
      }
    }

    /** A navigation button. */
    method Navigate(page: string)
      modifies this`currentPage
      ensures currentPage == page
    {
      currentPage := page;
    }
  }

  /** The admin page that creates and deletes departments; `departments` is
      the dashboard's list, which it replaces through the setter. */
  class DepartmentsPage {
    var departments: seq<Department>
    var name: string
    var description: string
    var loading: bool
    var error: string

    constructor (departments: seq<Department>)
      ensures this.departments == departments && name == "" && description == "" && !loading && error == ""
    {
      this.departments := departments;
      name := "";
      description := "";
      loading := false;
      error := "";
    }

    /** `handleCreate`: the created department is appended at the end and the
        inputs are cleared; a failure keeps everything and shows the error. */
    method HandleCreate(answer: Settled<Department>) returns (request: map<string, string>)
      modifies this`departments, this`name, this`description, this`loading, this`error
      ensures request == map["name" := old(name), "description" := old(description)]
      ensures !loading
      ensures answer.Resolved? ==>
                departments == old(departments) + [answer.data] && name == "" && description == "" && error == ""
      ensures answer.Rejected? ==>
                && departments == old(departments) && name == old(name) && description == old(description)
                && error == ErrorText(answer.message, "Failed to create department")
    {
      loading := true;
      error := "";
      request := map["name" := name, "description" := description];
      match answer {
        case Resolved(created) =>
          departments := departments + [created];
          name := "";
          description := "";
        case Rejected(_, message) =>
          error := ErrorText(message, "Failed to create department");
      }
      loading := false;
    }

    /** `handleDelete`: a cancelled confirm sends nothing; a successful
        delete drops exactly the departments with that id; a failure raises
        an alert and keeps the list. */
    method HandleDelete(id: string, confirmed: bool, answer: Settled<Json>) returns (requested: bool, alerted: bool)
      modifies this`departments
      ensures requested == confirmed
      ensures alerted <==> confirmed && answer.Rejected?
      ensures confirmed && answer.Resolved? ==> departments == RemoveId(old(departments), id)
      ensures !(confirmed && answer.Resolved?) ==> departments == old(departments)
    {
      if !confirmed {
        return false, false;
      }
      requested := true;
      alerted := false;
      if answer.Resolved? {
        departments := RemoveId(departments, id);
      } else {
        alerted := true;
      }
    }
  }
}
