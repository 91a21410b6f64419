/** The AJV request schemas (backend/src/validation/activity.validation.js and
    backend/src/validation/department.validation.js): JSON Schema objects with
    typed properties, a list of required properties and
    `additionalProperties: false`. */
module Ajv {
  import opened Values

  datatype Property =
    | StringProp(minLength: nat, maxLength: Option<nat>, dateTime: bool)  // { type: "string", ... }
    | EnumProp(options: seq<string>)                                      // { enum: [...] }
    | ObjectProp                                                          // { type: "object" }

  /** `{ type: "object", properties, required, additionalProperties: false }`. */
  datatype ObjectSchema = ObjectSchema(properties: map<string, Property>, required: seq<string>)

  /** `format: "date-time"` is a library check; it is a parameter. */
  type FormatCheck = string -> bool

  predicate PropertyHolds(p: Property, v: Json, isDateTime: FormatCheck)
  {
    match p
    case StringProp(minLength, maxLength, dateTime) =>
      v.JStr? && |v.s| >= minLength && (maxLength.Some? ==> |v.s| <= maxLength.value)
      && (dateTime ==> isDateTime(v.s))
    case EnumProp(options) => v.JStr? && v.s in options
    case ObjectProp => v.JObj?
  }

  /** What `validate(data)` answers. */
  predicate Conforms(schema: ObjectSchema, data: Json, isDateTime: FormatCheck)
  {
    && data.JObj?
    && (forall k :: k in data.fields ==> k in schema.properties && PropertyHolds(schema.properties[k], data.fields[k], isDateTime))
    && (forall i :: 0 <= i < |schema.required| ==> schema.required[i] in data.fields)
  }

  /** One entry of `validate.errors`; its contents are not modelled. */
  datatype ValidationError = ValidationError

  /** `{ valid, errors: valid ? [] : validate.errors }`; AJV stops at the
      first failing keyword, so an invalid object carries one error. */
  datatype Verdict = Verdict(valid: bool, errors: seq<ValidationError>)

  function Check(schema: ObjectSchema, data: Json, isDateTime: FormatCheck): (v: Verdict)
    ensures v.valid <==> Conforms(schema, data, isDateTime)
    ensures v.errors == [] <==> v.valid
  {
    if Conforms(schema, data, isDateTime) then Verdict(true, []) else Verdict(false, [ValidationError])
  }

  // activity.validation.js

  const ActivitySchema: ObjectSchema := ObjectSchema(
    map[
      "departmentId" := StringProp(24, Some(24), false),
      "activityType" := StringProp(1, Some(100), false),
      "status" := EnumProp(["in_progress", "completed", "cancelled"]),
      "shift" := EnumProp(["morning", "afternoon", "evening"]),
      "startedAt" := StringProp(0, None, true),
      "finishedAt" := StringProp(0, None, true),
      "details" := ObjectProp,
      "metadata" := ObjectProp],
    ["departmentId", "activityType"])

  /** `validateActivityCreate`. */
  function ValidateActivityCreate(data: Json, isDateTime: FormatCheck): (v: Verdict)
    ensures v.errors == [] <==> v.valid
    ensures v.valid ==> data.JObj? && "departmentId" in data.fields && "activityType" in data.fields
    ensures v.valid ==> data.fields["departmentId"].JStr? && |data.fields["departmentId"].s| == 24
    ensures v.valid ==> data.fields["activityType"].JStr? && 1 <= |data.fields["activityType"].s| <= 100
    ensures v.valid && "status" in data.fields ==>
              data.fields["status"] in [JStr("in_progress"), JStr("completed"), JStr("cancelled")]
    ensures v.valid && "shift" in data.fields ==>
              data.fields["shift"] in [JStr("morning"), JStr("afternoon"), JStr("evening")]
    ensures v.valid ==> forall k :: k in data.fields ==> k in ActivitySchema.properties
  {
    var v := Check(ActivitySchema, data, isDateTime);
    if v.valid then
      assert ActivitySchema.required[0] in data.fields && ActivitySchema.required[1] in data.fields;
      v
    else v
  }

  /** A key outside the eight listed properties makes an activity invalid. */
  lemma UnknownActivityKeyRejected(data: map<string, Json>, key: string, isDateTime: FormatCheck)
    requires key in data && key !in ["departmentId", "activityType", "status", "shift",
                                     "startedAt", "finishedAt", "details", "metadata"]
    ensures !ValidateActivityCreate(JObj(data), isDateTime).valid
  {
    assert key !in ActivitySchema.properties;
  }

  /** The smallest activities: a department id and a type are enough, and
      they are accepted exactly when their lengths are right. */
  lemma MinimalActivity(departmentId: string, activityType: string, isDateTime: FormatCheck)
    ensures ValidateActivityCreate(JObj(map["departmentId" := JStr(departmentId), "activityType" := JStr(activityType)]), isDateTime).valid
            <==> |departmentId| == 24 && 1 <= |activityType| <= 100
  {
    var fields := map["departmentId" := JStr(departmentId), "activityType" := JStr(activityType)];
    assert fields.Keys == {"departmentId", "activityType"};
    if |departmentId| == 24 && 1 <= |activityType| <= 100 {
      assert Conforms(ActivitySchema, JObj(fields), isDateTime);
    }
  }

  /** An activity is valid exactly when it is an object with only the eight
      listed keys, a 24-character department id, a type of 1 to 100
      characters, and, where present, a listed status and shift, date-time
      strings for the two times, and objects for details and metadata. */
  lemma ActivityRules(data: map<string, Json>, isDateTime: FormatCheck)
    ensures ValidateActivityCreate(JObj(data), isDateTime).valid <==>
              && data.Keys <= {"departmentId", "activityType", "status", "shift",
                               "startedAt", "finishedAt", "details", "metadata"}
              && "departmentId" in data && data["departmentId"].JStr? && |data["departmentId"].s| == 24
              && "activityType" in data && data["activityType"].JStr? && 1 <= |data["activityType"].s| <= 100
              && ("status" in data ==> data["status"].JStr? && data["status"].s in ["in_progress", "completed", "cancelled"])
              && ("shift" in data ==> data["shift"].JStr? && data["shift"].s in ["morning", "afternoon", "evening"])
              && ("startedAt" in data ==> data["startedAt"].JStr? && isDateTime(data["startedAt"].s))
              && ("finishedAt" in data ==> data["finishedAt"].JStr? && isDateTime(data["finishedAt"].s))
              && ("details" in data ==> data["details"].JObj?)
              && ("metadata" in data ==> data["metadata"].JObj?)
  {
    assert ActivitySchema.required == ["departmentId", "activityType"];
    assert ActivitySchema.properties.Keys == {"departmentId", "activityType", "status", "shift",
                                              "startedAt", "finishedAt", "details", "metadata"};
  }

  // department.validation.js

  const DepartmentSchema: ObjectSchema := ObjectSchema(
    map[
      "name" := StringProp(2, Some(100), false),
      "description" := StringProp(0, Some(500), false)],
    ["name"])

  /** `validateDepartmentCreate`. */
  function ValidateDepartmentCreate(data: Json): (v: Verdict)
    ensures v.errors == [] <==> v.valid
  {
    Check(DepartmentSchema, data, _ => true)
  }

  /** A department is valid exactly when it is an object with a name of 2 to
      100 characters, an optional description of at most 500 characters, and
      no other key. */
  lemma DepartmentRules(data: map<string, Json>)
    ensures ValidateDepartmentCreate(JObj(data)).valid <==>
              && data.Keys <= {"name", "description"}
              && "name" in data && data["name"].JStr? && 2 <= |data["name"].s| <= 100
              && ("description" in data ==> data["description"].JStr? && |data["description"].s| <= 500)
  {
    assert DepartmentSchema.required[0] == "name";
    assert DepartmentSchema.properties.Keys == {"name", "description"};
  }
}
