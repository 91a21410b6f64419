/** The activity routes (backend/src/routes/activities.js): the list query a
    GET builds from its query string, the list it answers with, and the
    `performedBy` default of a POST. The database is a sequence of stored
    activities; `new Date(text)` is a parameter. */
module ActivitiesRoute {
  import opened Values
  import opened Crypto

  /** One condition of the MongoDB filter object. */
  datatype Condition =
    | Equals(value: string)                          // key: value
    | CreatedBetween(gte: Option<int>, lte: Option<int>) // createdAt: { $gte, $lte }

  type Query = map<string, Condition>

  /** The page size when the query string has no `limit`. */
  const DefaultLimit: nat := 50

  /** The `q` object of GET /, built key by key. */
  method BuildQuery(departmentId: Option<string>, activityType: Option<string>,
                    from: Option<string>, to: Option<string>, parseDate: string -> int)
    returns (q: Query)
    ensures q.Keys <= {"departmentId", "activityType", "createdAt"}
    ensures "departmentId" in q <==> Filled(departmentId)
    ensures "departmentId" in q ==> q["departmentId"] == Equals(departmentId.value)
    ensures "activityType" in q <==> Filled(activityType)
    ensures "activityType" in q ==> q["activityType"] == Equals(activityType.value)
    ensures "createdAt" in q <==> Filled(from) || Filled(to)
    ensures "createdAt" in q ==>
              && q["createdAt"].CreatedBetween?
              && (q["createdAt"].gte.Some? <==> Filled(from))
              && (q["createdAt"].lte.Some? <==> Filled(to))
              && (Filled(from) ==> q["createdAt"].gte == Some(parseDate(from.value)))
              && (Filled(to) ==> q["createdAt"].lte == Some(parseDate(to.value)))
    ensures forall a :: Matches(q, a) <==>
              && (Filled(departmentId) ==> a.departmentId == departmentId.value)
              && (Filled(activityType) ==> a.activityType == activityType.value)
              && (Filled(from) ==> parseDate(from.value) <= a.createdAt)
              && (Filled(to) ==> a.createdAt <= parseDate(to.value))
  {
    q := map[];
    if Filled(departmentId) {
      q := q["departmentId" := Equals(departmentId.value)];
    }
    if Filled(activityType) {
      q := q["activityType" := Equals(activityType.value)];
    }
    if Filled(from) || Filled(to) {
      q := q["createdAt" := CreatedBetween(None, None)];
    }
    if Filled(from) {
      q := q["createdAt" := q["createdAt"].(gte := Some(parseDate(from.value)))];
    }
    if Filled(to) {
      q := q["createdAt" := q["createdAt"].(lte := Some(parseDate(to.value)))];
    }
  }

  /** The stored fields of an activity that the list query looks at. */
  datatype Activity = Activity(id: string, departmentId: string, activityType: string, createdAt: int,
                               performedBy: Option<string>)

  /** The document matches every condition of the filter. */
  predicate Matches(q: Query, a: Activity)
  {
    && ("departmentId" in q ==> q["departmentId"] == Equals(a.departmentId))
    && ("activityType" in q ==> q["activityType"] == Equals(a.activityType))
    && ("createdAt" in q ==>
          && q["createdAt"].CreatedBetween?
          && (q["createdAt"].gte.Some? ==> q["createdAt"].gte.value <= a.createdAt)
          && (q["createdAt"].lte.Some? ==> a.createdAt <= q["createdAt"].lte.value))
  }

  /** `Activity.find(q)`. */
  function Find(items: seq<Activity>, q: Query): (r: seq<Activity>)
    ensures forall a :: a in r ==> Matches(q, a)
    ensures multiset(r) <= multiset(items)
    ensures forall a :: a in items && Matches(q, a) ==> a in r
    ensures forall a :: multiset(r)[a] == if Matches(q, a) then multiset(items)[a] else 0
  {
    if items == [] then []
    else
      assert items == [items[0]] + items[1..];
      (if Matches(q, items[0]) then [items[0]] else []) + Find(items[1..], q)
  }

  predicate NewestFirst(s: seq<Activity>)
  {
    forall i, j :: 0 <= i < j < |s| ==> s[i].createdAt >= s[j].createdAt
  }

  /** Places `a` in front of the first activity that is not newer. */
  function Insert(a: Activity, s: seq<Activity>): (r: seq<Activity>)
    requires NewestFirst(s)
    ensures NewestFirst(r)
    ensures multiset(r) == multiset(s) + multiset{a}
    ensures |r| == |s| + 1 && (r[0] == a || (s != [] && r[0] == s[0]))
  {
    if s == [] || a.createdAt >= s[0].createdAt then
      NewerHeadKeepsOrder(a, s);
      [a] + s
    else
      var rest := Insert(a, s[1..]);
      NewerHeadKeepsOrder(s[0], rest);
      assert multiset(s) == multiset{s[0]} + multiset(s[1..]) by { assert s == [s[0]] + s[1..]; }
      [s[0]] + rest
  }

  /** An activity no older than the head of a newest-first list can go in front. */
  lemma NewerHeadKeepsOrder(x: Activity, s: seq<Activity>)
    requires NewestFirst(s) && (s != [] ==> s[0].createdAt <= x.createdAt)
    ensures NewestFirst([x] + s)
  {
    var r := [x] + s;
    forall i, j | 0 <= i < j < |r| ensures r[i].createdAt >= r[j].createdAt {
      if i == 0 {
        assert r[j] == s[j - 1];
        if j > 1 { assert s[0].createdAt >= s[j - 1].createdAt; }
      } else {
        assert r[i] == s[i - 1] && r[j] == s[j - 1];
      }
    }
  }

  /** `.sort({ createdAt: -1 })`; documents with equal times may come in any
      order, and this one keeps them in insertion order. */
  function SortNewestFirst(s: seq<Activity>): (r: seq<Activity>)
    ensures NewestFirst(r)
    ensures multiset(r) == multiset(s)
  {
    if s == [] then []
    else
      assert s == [s[0]] + s[1..];
      Insert(s[0], SortNewestFirst(s[1..]))
  }

  /** `Number(limit)` with the default, where `.limit(0)` means no limit. */
  function EffectiveLimit(limit: Option<nat>, available: nat): (n: nat)
    ensures n <= available
    ensures limit.Some? && limit.value > 0 ==> n <= limit.value
    ensures limit.None? ==> n <= DefaultLimit
    ensures n == available || n == (if limit.Some? then limit.value else DefaultLimit)
    ensures limit == Some(0) ==> n == available
  {
    var requested := if limit.Some? then limit.value else DefaultLimit;
    if requested == 0 || requested > available then available else requested
  }

  /** The answer of GET /: matching activities, newest first, at most the
      limit, and no left-out match is newer than one that was returned. */
  function ListActivities(items: seq<Activity>, q: Query, limit: Option<nat>): (r: seq<Activity>)
    ensures NewestFirst(r)
    ensures forall a :: a in r ==> Matches(q, a)
    ensures multiset(r) <= multiset(Find(items, q)) && multiset(Find(items, q)) <= multiset(items)
    ensures |r| == EffectiveLimit(limit, |Find(items, q)|)
    ensures limit.None? ==> |r| <= DefaultLimit
    ensures forall a, b :: a in r && b in multiset(Find(items, q)) - multiset(r) ==> b.createdAt <= a.createdAt
  {
    var matching := Find(items, q);
    var sorted := SortNewestFirst(matching);
    var k := EffectiveLimit(limit, |matching|);
    assert |sorted| == |matching| by {
      assert |multiset(sorted)| == |multiset(matching)|;
    }
    TakeNewest(sorted, k);
    sorted[..k]
  }

  /** Cutting a newest-first list keeps the newest: what is cut off is no
      newer than what is kept. */
  lemma TakeNewest(s: seq<Activity>, k: nat)
    requires NewestFirst(s) && k <= |s|
    ensures NewestFirst(s[..k]) && multiset(s[..k]) <= multiset(s)
    ensures forall a, b :: a in s[..k] && b in multiset(s) - multiset(s[..k]) ==> b.createdAt <= a.createdAt
  {
    assert s == s[..k] + s[k..];
    assert multiset(s) == multiset(s[..k]) + multiset(s[k..]);
    forall a, b | a in s[..k] && b in multiset(s) - multiset(s[..k])
      ensures b.createdAt <= a.createdAt
    {
      assert b in multiset(s[k..]);
      var i :| 0 <= i < k && s[i] == a;
      var j :| 0 <= j < |s[k..]| && s[k..][j] == b;
      assert s[k + j] == b;
    }
  }

  /** The body of a POST /, updated in place. */
  class ActivityBody {
    var fields: map<string, Json>

    constructor (fields: map<string, Json>)
      ensures this.fields == fields
    {
      this.fields := fields;
    }
  }

  /** `body.performedBy = body.performedBy || req.user?.id`: a truthy value is
      kept; otherwise the `id` claim is used, and when that is undefined the
      property is undefined, which the database ignores. */
  method AttachPerformedBy(body: ActivityBody, user: Option<Claims>)
    modifies body
    ensures Truthy(Field(old(body.fields), "performedBy")) ==> body.fields == old(body.fields)
    ensures !Truthy(Field(old(body.fields), "performedBy")) ==>
              body.fields ==
                (if user.Some? && IdClaim(user.value).Some?
                 then old(body.fields)["performedBy" := JStr(IdClaim(user.value).value)]
                 else old(body.fields) - {"performedBy"})
    ensures !Truthy(Field(old(body.fields), "performedBy")) ==> "performedBy" !in body.fields
  {
    if !Truthy(Field(body.fields, "performedBy")) {
      var fields := body.fields;
      var id := if user.Some? then IdClaim(user.value) else None;
      body.fields := match id
        case Some(v) => fields["performedBy" := JStr(v)]
        case None => fields - {"performedBy"};
    }
  }
}
