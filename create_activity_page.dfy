/** The activity form (frontend/src/pages/CreateActivityPage.jsx): the list
    of activity types offered for the selected department, the form state,
    and what a submit posts and resets. `JSON.parse` is a parameter. */
module CreateActivityPage {
  import opened Values
  import opened Chars
  import opened Web

  const MicrobiologyTypes: seq<string> := [
    "Equipment usage",
    "Cleaning & sanitation",
    "Media preparation",
    "Water analysis",
    "Raw material test",
    "Finished product test",
    "Environmental monitoring",
    "Temperature & humidity log"]

  const ChemistryTypes: seq<string> := [
    "Raw material analysis",
    "Finished product analysis",
    "Instrument usage",
    "Calibration log",
    "Chemical inventory",
    "pH meter calibration",
    "Sample preparation"]

  /** `ACTIVITY_TYPES[key] || []`. */
  function ActivityTypesFor(key: string): (types: seq<string>)
    ensures types != [] <==> key == "microbiology" || key == "chemistry"
  {
    if key == "microbiology" then MicrobiologyTypes
    else if key == "chemistry" then ChemistryTypes
    else []
  }

  /** `departments.find((d) => d._id === id)`: the first department with that id. */
  function FindDepartment(departments: seq<Department>, id: string): (d: Option<Department>)
    ensures d.Some? ==>
              exists i :: 0 <= i < |departments| && departments[i] == d.value && d.value.id == id
                          && forall j :: 0 <= j < i ==> departments[j].id != id
    ensures d.None? ==> forall i :: 0 <= i < |departments| ==> departments[i].id != id
  {
    if departments == [] then None
    else if departments[0].id == id then Some(departments[0])
    else
      var rest := FindDepartment(departments[1..], id);
      if rest.Some? then
        ghost var i :| 0 <= i < |departments[1..]| && departments[1..][i] == rest.value && rest.value.id == id
                       && forall j :: 0 <= j < i ==> departments[1..][j].id != id;
        assert departments[i + 1] == rest.value;
        rest
      else rest
  }

  /** `.toLowerCase().replace(/\s+/g, "")`. */
  function Normalize(name: string): (key: string)
    ensures |key| <= |name|
    ensures forall i :: 0 <= i < |key| ==> !IsSpace(key[i]) && !IsUpper(key[i])
  {
    if name == [] then []
    else (if IsSpace(name[0]) then [] else [ToLower(name[0])]) + Normalize(name[1..])
  }

  /** Normalising works piece by piece. */
  lemma {:induction false} NormalizeAppend(a: string, b: string)
    ensures Normalize(a + b) == Normalize(a) + Normalize(b)
    decreases |a|
  {
    if a != [] {
      assert (a + b)[1..] == a[1..] + b;
      NormalizeAppend(a[1..], b);
    } else {
      assert a + b == b;
    }
  }

  /** A key is left as it is: normalising is idempotent. */
  lemma {:induction false} NormalizeKey(key: string)
    requires forall i :: 0 <= i < |key| ==> !IsSpace(key[i]) && !IsUpper(key[i])
    ensures Normalize(key) == key
    decreases |key|
  {
    if key != [] {
      NormalizeKey(key[1..]);
    }
  }

  lemma NormalizeIdempotent(name: string)
    ensures Normalize(Normalize(name)) == Normalize(name)
  {
    NormalizeKey(Normalize(name));
  }

  /** `deptKey`: "" when nothing is selected or the department has no name. */
  function DeptKey(departments: seq<Department>, selectedId: string): string
  {
    var d := FindDepartment(departments, selectedId);
    if d.Some? && d.value.name.Some? then Normalize(d.value.name.value) else ""
  }

  lemma NormalizeCons(c: char, s: string)
    ensures Normalize([c] + s) == (if IsSpace(c) then [] else [ToLower(c)]) + Normalize(s)
  {
    assert ([c] + s)[1..] == s;
  }

  /** A capitalised word loses only its capital. */
  lemma CapitalizedWord(w: string)
    requires |w| >= 1 && IsUpper(w[0]) && forall i :: 1 <= i < |w| ==> IsLower(w[i])
    ensures Normalize(w) == [ToLower(w[0])] + w[1..]
  {
    var tail := w[1..];
    forall i | 0 <= i < |tail| ensures !IsSpace(tail[i]) && !IsUpper(tail[i]) {
      assert tail[i] == w[i + 1];
    }
    NormalizeKey(tail);
    NormalizeCons(w[0], tail);
    assert w == [w[0]] + tail;
  }

  /** A department named "Micro Biology" is offered the eight microbiology types. */
  lemma SpacedNameFindsTypes(first: string, second: string)
    requires first == "Micro" && second == "Biology"
    ensures Normalize(first + " " + second) == "microbiology"
    ensures |ActivityTypesFor(Normalize(first + " " + second))| == 8
  {
    assert Normalize(first) == "micro" by {
      CapitalizedWord(first);
    }
    assert Normalize(second) == "biology" by {
      CapitalizedWord(second);
    }
    assert Normalize(" ") == [] by {
      NormalizeCons(' ', []);
      assert [' '] + [] == " ";
    }
    NormalizeAppend(first, " ");
    NormalizeAppend(first + " ", second);
  }

  /** The form's initial state, and the state a successful submit returns to. */
  const InitialForm: map<string, string> := map[
    "departmentId" := "", "activityType" := "", "status" := "completed", "shift" := "morning", "details" := ""]

  const SuccessMessage: string := "Activity logged successfully!"

  /** `JSON.parse(details || "{}")`, with `{}` when it throws. */
  function DetailsValue(text: string, parse: string -> Option<Json>): (details: Json)
    ensures text != "" && parse(text).Some? ==> details == parse(text).value
    ensures text != "" && parse(text).None? ==> details == JObj(map[])
  {
    var source := if text != "" then text else "{}";
    match parse(source)
    case Some(v) => v
    case None => JObj(map[])
  }

  /** An empty details field is sent as an empty object, given that
      `JSON.parse("{}")` is an empty object. */
  lemma EmptyDetailsAreEmptyObject(parse: string -> Option<Json>)
    requires parse("{}") == Some(JObj(map[]))
    ensures DetailsValue("", parse) == JObj(map[])
  {
  }

  /** `{ ...formData, details }`. */
  function Payload(form: map<string, string>, parse: string -> Option<Json>): (body: map<string, Json>)
    ensures body.Keys == form.Keys + {"details"}
    ensures forall k :: k in form && k != "details" ==> body[k] == JStr(form[k])
    ensures body["details"] == DetailsValue(if "details" in form then form["details"] else "", parse)
  {
    var details := DetailsValue(if "details" in form then form["details"] else "", parse);
    (map k | k in form :: JStr(form[k]))["details" := details]
  }

  class ActivityForm {
    var form: map<string, string>
    var error: string
    var success: string
    var loading: bool

    constructor ()
      ensures form == InitialForm && error == "" && success == "" && !loading
    {
      form := InitialForm;
      error := "";
      success := "";
      loading := false;
    }

    /** `handleChange`: the named field takes the value; no other field changes. */
    method HandleChange(name: string, value: string)
      modifies this`form
      ensures form == old(form)[name := value]
      ensures forall k :: k in old(form) && k != name ==> k in form && form[k] == old(form)[k]
    {
      form := form[name := value];
    }

    /** `handleSubmit`: posts the form with the parsed details; a success
        shows the message and resets the form, a failure keeps the form and
        shows the error. The timer that clears the message later is not
        part of this model. */
    method HandleSubmit(parse: string -> Option<Json>, answer: Settled<Json>) returns (request: map<string, Json>)
      modifies this`form, this`error, this`success, this`loading
      ensures request == Payload(old(form), parse)
      ensures !loading
      ensures answer.Resolved? ==> form == InitialForm && success == SuccessMessage && error == ""
      ensures answer.Rejected? ==>
                form == old(form) && success == "" && error == ErrorText(answer.message, "Failed to create activity")
    {
      error := "";
      success := "";
      loading := true;
      request := Payload(form, parse);
      match answer {
        case Resolved(_) =>
          success := SuccessMessage;
          form := InitialForm;
        case Rejected(_, message) =>
          error := ErrorText(message, "Failed to create activity");
      }
      loading := false;
    }

    /** The types offered for the department the form has selected. */
    function OfferedTypes(departments: seq<Department>): seq<string>
      reads this
    {
      ActivityTypesFor(DeptKey(departments, if "departmentId" in form then form["departmentId"] else ""))
    }
  }

  /** A fresh form has no department selected, so no types are offered
      unless a department has the empty string as its id. */
  lemma FreshFormOffersNothing(departments: seq<Department>)
    requires forall i :: 0 <= i < |departments| ==> departments[i].id != ""
    ensures ActivityTypesFor(DeptKey(departments, InitialForm["departmentId"])) == []
  {
  }
}
