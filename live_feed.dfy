/** The activity lists that the socket keeps fresh (ActivityHistoryPage.jsx
    and ActivityFeedPage.jsx): the query string they send, the "newest
    first, keep 100" update a live event applies (the LiveFeed of App.jsx
    shares only this update), and the two pages' state. Sockets and timers are outside the model; each effect
    is a method that receives what the server answered. */
module LiveFeed {
  import opened Values
  import opened Web

  /** How many items a live list keeps. */
  const Capacity: nat := 100

  /** `[data, ...prev].slice(0, 100)`. */
  function PrependNewest<T>(item: T, prev: seq<T>): (r: seq<T>)
    ensures |r| == if |prev| + 1 <= Capacity then |prev| + 1 else Capacity
    ensures r[0] == item
    ensures forall i :: 1 <= i < |r| ==> r[i] == prev[i - 1]
  {
    var all := [item] + prev;
    if |all| <= Capacity then all else all[..Capacity]
  }

  /** The first `n` items of `s` (all of them when there are fewer). */
  function Take<T>(s: seq<T>, n: nat): (r: seq<T>)
    ensures |r| <= n && r <= s
  {
    if |s| <= n then s else s[..n]
  }

  function Reverse<T>(s: seq<T>): (r: seq<T>)
    ensures |r| == |s|
  {
    if s == [] then [] else Reverse(s[1..]) + [s[0]]
  }

  /** Live events applied one after another, oldest first. */
  function ApplyEvents<T>(events: seq<T>, prev: seq<T>): seq<T>
    decreases |events|
  {
    if events == [] then prev else ApplyEvents(events[1..], PrependNewest(events[0], prev))
  }

  /** Whatever the events, the list is the newest 100 of everything seen:
      the events newest first, then the old list. */
  lemma {:induction false} EventsKeepNewestWindow<T>(events: seq<T>, prev: seq<T>)
    requires |prev| <= Capacity
    ensures ApplyEvents(events, prev) == Take(Reverse(events) + prev, Capacity)
    decreases |events|
  {
    if events != [] {
      var front, back := Reverse(events[1..]), [events[0]] + prev;
      var next := PrependNewest(events[0], prev);
      assert next == Take(back, Capacity);
      EventsKeepNewestWindow(events[1..], next);
      assert ApplyEvents(events, prev) == Take(front + next, Capacity);
      TakeAppendTake(front, back);
      assert Reverse(events) + prev == front + back by {
        assert Reverse(events) == front + [events[0]];
      }
    }
  }

  /** Cutting the tail before or after prepending gives the same window. */
  lemma TakeAppendTake<T>(front: seq<T>, back: seq<T>)
    ensures Take(front + Take(back, Capacity), Capacity) == Take(front + back, Capacity)
  {
    var t := Take(back, Capacity);
    if |back| > Capacity {
      assert (front + t) == (front + back)[..|front| + Capacity];
    }
  }

  /** The date filter of both pages (the type filter has no input). */
  datatype Filter = Filter(from: string, to: string, activityType: string)

  const EmptyFilter: Filter := Filter("", "", "")

  /** A value of the query string. */
  datatype Param = Text(s: string) | Number(n: nat)

  /** `{ departmentId, ...(from && { from }), ...(to && { to }),
      ...(activityType && { type: activityType }), limit: 100 }`. */
  function ActivityQuery(departmentId: string, filter: Filter): (q: map<string, Param>)
    ensures q.Keys == {"departmentId", "limit"}
                      + (if filter.from != "" then {"from"} else {})
                      + (if filter.to != "" then {"to"} else {})
                      + (if filter.activityType != "" then {"type"} else {})
    ensures q["departmentId"] == Text(departmentId) && q["limit"] == Number(Capacity)
    ensures "from" in q ==> q["from"] == Text(filter.from)
    ensures "to" in q ==> q["to"] == Text(filter.to)
    ensures "type" in q ==> q["type"] == Text(filter.activityType)
  {
    var q := map["departmentId" := Text(departmentId)];
    var q := if filter.from != "" then q["from" := Text(filter.from)] else q;
    var q := if filter.to != "" then q["to" := Text(filter.to)] else q;
    var q := if filter.activityType != "" then q["type" := Text(filter.activityType)] else q;
    q["limit" := Number(Capacity)]
  }

  /** The history page (ActivityHistoryPage.jsx). */
  class HistoryPage {
    var activities: seq<Json>
    var selectedDept: string
    var filter: Filter
    var loading: bool

    constructor ()
      ensures activities == [] && selectedDept == "" && filter == EmptyFilter && loading
    {
      activities := [];
      selectedDept := "";
      filter := EmptyFilter;
      loading := true;
    }

    /** The fetch effect: no department clears the list and asks nothing;
        otherwise the answer replaces the list (`res.data || []`) and a
        failure empties it. */
    method LoadActivities(answer: Settled<Option<seq<Json>>>) returns (request: Option<map<string, Param>>)
      modifies this`activities, this`loading
      ensures selectedDept == "" ==> request == None && activities == [] && loading == old(loading)
      ensures selectedDept != "" ==>
                && request == Some(ActivityQuery(selectedDept, filter))
                && !loading
                && activities == (if answer.Resolved? && answer.data.Some? then answer.data.value else [])
    {
      if selectedDept == "" {
        activities := [];
        return None;
      }
      loading := true;
      request := Some(ActivityQuery(selectedDept, filter));
      match answer {
        case Resolved(data) =>
          activities := if data.Some? then data.value else [];
        case Rejected(_, _) =>
          activities := [];
      }
      loading := false;
    }

    /** The `activity:created` handler, subscribed only while a department
        is selected. */
    method OnActivityCreated(data: Json)
      requires selectedDept != ""
      modifies this`activities
      ensures activities == PrependNewest(data, old(activities))
    {
      activities := PrependNewest(data, activities);
    }

    /** The department select. */
    method SelectDepartment(id: string)
      modifies this`selectedDept
      ensures selectedDept == id
    {
      selectedDept := id;
    }

    /** The From date input: only `filter.from` changes. */
    method SetFrom(value: string)
      modifies this`filter
      ensures filter == old(filter).(from := value)
    {
      filter := filter.(from := value);
    }

    /** The To date input: only `filter.to` changes. */
    method SetTo(value: string)
      modifies this`filter
      ensures filter == old(filter).(to := value)
    {
      filter := filter.(to := value);
    }
  }

  /** The feed page (ActivityFeedPage.jsx); the selected department is the
      dashboard's, passed down. */
  class FeedPage {
    var activities: seq<Json>
    var filter: Filter
    var loading: bool

    constructor ()
      ensures activities == [] && filter == EmptyFilter && loading
    {
      activities := [];
      filter := EmptyFilter;
      loading := true;
    }

    /** The fetch effect: no department returns early and changes nothing;
        otherwise the answer replaces the list, and a failure keeps it. */
    method LoadActivities(selectedDept: Option<string>, answer: Settled<seq<Json>>)
      returns (request: Option<map<string, Param>>)
      modifies this`activities, this`loading
      ensures !Filled(selectedDept) ==>
                request == None && activities == old(activities) && loading == old(loading)
      ensures Filled(selectedDept) ==>
                && request == Some(ActivityQuery(selectedDept.value, filter))
                && !loading
                && activities == (if answer.Resolved? then answer.data else old(activities))
    {
      if !Filled(selectedDept) {
        return None;
      }
      loading := true;
      request := Some(ActivityQuery(selectedDept.value, filter));
      if answer.Resolved? {
        activities := answer.data;
      }
      loading := false;
    }

    /** The `activity:created` handler. */
    method OnActivityCreated(data: Json)
      modifies this`activities
      ensures activities == PrependNewest(data, old(activities))
    {
      activities := PrependNewest(data, activities);
    }

    /** The From date input: only `filter.from` changes. */
    method SetFrom(value: string)
      modifies this`filter
      ensures filter == old(filter).(from := value)
    {
      filter := filter.(from := value);
    }

    /** The To date input: only `filter.to` changes. */
    method SetTo(value: string)
      modifies this`filter
      ensures filter == old(filter).(to := value)
    {
      filter := filter.(to := value);
    }
  }
}
