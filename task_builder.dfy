/** How `fetchAndInsertTasks` turns the normalised `rtm.tasks.getList` reply
    into `FormattedTask` records: list-id resolution, the due-date and priority
    fragments, the list name and the tags of every task series, in the order
    the reply lists them. */
module TaskBuilder {
  import opened Wrappers
  import opened JsText
  import opened RtmResponse

  /** The `(list, series, task)` triple the service addresses a task by. */
  datatype TaskRef = TaskRef(list: string, series: string, task: string)

  datatype FormattedTask = FormattedTask(
    name: string,
    due: string,
    priority: string,
    listName: string,
    tags: seq<string>,
    rtmId: TaskRef,
    rawPriority: Option<string>,
    rawDue: Option<string>)

  /** The list id used when neither the list nor the series names one. */
  const Missing := "MISSING"

  const HighPriority := " \U{1F53A}"
  const MediumPriority := " \U{1F53C}"
  const LowPriority := " \U{1F53D}"
  const DatePrefix := " \U{1F4C5} "

  /** `list.id`, else `s.list_id`, else `"MISSING"`. */
  function ResolveListId(listId: Option<string>, seriesListId: Option<string>): (r: string)
    ensures r != ""
    ensures Truthy(listId) ==> r == listId.value
    ensures !Truthy(listId) && Truthy(seriesListId) ==> r == seriesListId.value
    ensures !Truthy(listId) && !Truthy(seriesListId) ==> r == Missing
  {
    var realListId := listId;
    var realListId := if !Truthy(realListId) && Truthy(seriesListId) then seriesListId else realListId;
    if !Truthy(realListId) then Missing else realListId.value
  }

  predicate IsPriorityCode(raw: Option<string>) {
    raw == Some("1") || raw == Some("2") || raw == Some("3")
  }

  /** The `switch (task.priority)`: a glyph for the codes 1, 2 and 3, nothing otherwise. */
  function PriorityDisplay(raw: Option<string>): (r: string)
    ensures r in {"", HighPriority, MediumPriority, LowPriority}
    ensures r == "" <==> !IsPriorityCode(raw)
    ensures raw == Some("1") ==> r == HighPriority
    ensures raw == Some("2") ==> r == MediumPriority
    ensures raw == Some("3") ==> r == LowPriority
  {
    match raw
    case Some("1") => HighPriority
    case Some("2") => MediumPriority
    case Some("3") => LowPriority
    case _ => ""
  }

  /** Different priority codes show different glyphs. */
  lemma PriorityDisplayInjective(a: Option<string>, b: Option<string>)
    requires IsPriorityCode(a) && IsPriorityCode(b) && a != b
    ensures PriorityDisplay(a) != PriorityDisplay(b)
  {
  }

  /** ` 📅 ` and the text before the first `T`, when the raw due date is non-empty. */
  function DueDisplay(raw: Option<string>): (r: string)
    ensures r == "" <==> !Truthy(raw)
    ensures Truthy(raw) ==> r == DatePrefix + BeforeFirst(raw.value, 'T')
  {
    if Truthy(raw) then DatePrefix + BeforeFirst(raw.value, 'T') else ""
  }

  /** An ISO time stamp shows its calendar date. */
  lemma DueDisplayOfTimestamp(date: string, time: string)
    requires 'T' !in date
    ensures DueDisplay(Some(date + "T" + time)) == DatePrefix + date
  {
    var s := date + "T" + time;
    var r := BeforeFirst(s, 'T');
    assert s[|date|] == 'T';
    assert s[..|date|] == date;
  }

  /** `listMap[realListId]` when that is a non-empty string, else "". */
  function ListNameDisplay(listMap: map<string, string>, id: string): (r: string)
    ensures r != "" ==> id in listMap && r == listMap[id]
    ensures id in listMap && listMap[id] != "" ==> r == listMap[id]
    ensures id !in listMap ==> r == ""
  {
    if id in listMap && listMap[id] != "" then listMap[id] else ""
  }

  /** `s.tags && s.tags.tag`: a lone empty-string tag is falsy. */
  predicate HasTags(s: RawSeries) {
    s.tags.Some? && s.tags.value.tag.Some? && s.tags.value.tag.value != One("")
  }

  /** The tags of a series, in the order the reply lists them. */
  function Tags(s: RawSeries): (r: seq<string>)
    ensures HasTags(s) ==> r == Normalize(s.tags.value.tag)
    ensures !HasTags(s) ==> r == []
  {
    if HasTags(s) then Normalize(s.tags.value.tag) else []
  }

  /** A series together with the `id` of the list it came in. */
  datatype Placed = Placed(listId: Option<string>, series: RawSeries)

  /** The task of the series that drives its display: the first occurrence. */
  predicate HasTask(p: Placed) {
    First(p.series.task).Some?
  }

  /** The `FormattedTask` of one series. Reading `task.due` when the series has
      no task throws, which aborts the whole import. */
  function Format(p: Placed, listMap: map<string, string>): (r: Result<FormattedTask, Error>)
    ensures r.Success? <==> HasTask(p)
    ensures r.Failure? ==> r.error == MalformedResponse
  {
    var s := p.series;
    match First(s.task)
    case None => Failure(MalformedResponse)
    case Some(task) =>
      var realListId := ResolveListId(p.listId, s.listId);
      Success(FormattedTask(
        s.name, DueDisplay(task.due), PriorityDisplay(task.priority),
        ListNameDisplay(listMap, realListId), Tags(s),
        TaskRef(realListId, s.id, task.id), task.priority, task.due))
  }

  /** What each field of a built record is taken from. */
  lemma FormatFields(p: Placed, listMap: map<string, string>)
    requires HasTask(p)
    ensures var r := Format(p, listMap).value;
      var t := First(p.series.task).value;
      var id := ResolveListId(p.listId, p.series.listId);
      && r.name == p.series.name
      && r.rtmId == TaskRef(id, p.series.id, t.id)
      && r.listName == ListNameDisplay(listMap, id)
      && r.due == DueDisplay(t.due) && r.rawDue == t.due
      && r.priority == PriorityDisplay(t.priority) && r.rawPriority == t.priority
      && r.tags == Tags(p.series)
  {
  }

  /** The series of one list, each with the list's id. */
  function Place(listId: Option<string>, series: seq<RawSeries>): (r: seq<Placed>)
    ensures |r| == |series| && forall j :: 0 <= j < |r| ==> r[j] == Placed(listId, series[j])
  {
    seq(|series|, j requires 0 <= j < |series| => Placed(listId, series[j]))
  }

  /** Every series of every list, lists then series, in reply order. */
  function Placements(lists: seq<RawTaskList>): seq<Placed> {
    if lists == [] then []
    else
      var l := lists[|lists| - 1];
      Placements(lists[..|lists| - 1]) + Place(l.id, Normalize(l.taskseries))
  }

  lemma {:induction false} PlacementsContain(lists: seq<RawTaskList>, i: int, j: int)
    requires 0 <= i < |lists| && 0 <= j < |Normalize(lists[i].taskseries)|
    ensures Placed(lists[i].id, Normalize(lists[i].taskseries)[j]) in Placements(lists)
    decreases |lists|
  {
    var n := |lists| - 1;
    if i < n {
      PlacementsContain(lists[..n], i, j);
    } else {
      assert Place(lists[n].id, Normalize(lists[n].taskseries))[j] in Placements(lists);
    }
  }

  /** The task records of all placed series; any series without a task aborts. */
  function FormatAll(ps: seq<Placed>, listMap: map<string, string>): (r: Result<seq<FormattedTask>, Error>)
    ensures r.Failure? ==> r.error == MalformedResponse
  {
    if ps == [] then Success([])
    else
      match FormatAll(ps[..|ps| - 1], listMap)
      case Failure(e) => Failure(e)
      case Success(ts) =>
        match Format(ps[|ps| - 1], listMap)
        case Failure(e) => Failure(e)
        case Success(t) => Success(ts + [t])
  }

  /** Building succeeds exactly when every series has a task. */
  lemma {:induction false} FormatAllSucceeds(ps: seq<Placed>, listMap: map<string, string>)
    ensures FormatAll(ps, listMap).Success? <==> forall i :: 0 <= i < |ps| ==> HasTask(ps[i])
    decreases |ps|
  {
    if ps != [] {
      var n := |ps| - 1;
      var init := ps[..n];
      FormatAllSucceeds(init, listMap);
      if FormatAll(init, listMap).Failure? {
        var i :| 0 <= i < n && !HasTask(init[i]);
        assert !HasTask(ps[i]);
      } else if HasTask(ps[n]) {
        assert forall i :: 0 <= i < n ==> HasTask(ps[i]) by {
          forall i | 0 <= i < n ensures HasTask(ps[i]) { assert ps[i] == init[i]; }
        }
      }
    }
  }

  /** A successful build yields one record per series, in order. */
  lemma {:induction false} FormatAllItems(ps: seq<Placed>, listMap: map<string, string>)
    requires FormatAll(ps, listMap).Success?
    ensures var ts := FormatAll(ps, listMap).value;
      |ts| == |ps| && forall i :: 0 <= i < |ps| ==> Format(ps[i], listMap) == Success(ts[i])
    decreases |ps|
  {
    if ps != [] {
      var n := |ps| - 1;
      var init := ps[..n];
      var last := Format(ps[n], listMap);
      assert FormatAll(init, listMap).Success? && last.Success?;
      FormatAllItems(init, listMap);
      var ts0 := FormatAll(init, listMap).value;
      var ts := ts0 + [last.value];
      assert FormatAll(ps, listMap) == Success(ts);
      forall i | 0 <= i < |ps| ensures Format(ps[i], listMap) == Success(ts[i]) {
        if i < n {
          assert ps[i] == init[i];
          assert ts[i] == ts0[i];
        }
      }
    }
  }

  lemma FormatAllSnoc(ps: seq<Placed>, p: Placed, listMap: map<string, string>, ts: seq<FormattedTask>, t: FormattedTask)
    requires FormatAll(ps, listMap) == Success(ts) && Format(p, listMap) == Success(t)
    ensures FormatAll(ps + [p], listMap) == Success(ts + [t])
  {
    assert (ps + [p])[..|ps|] == ps;
  }

  lemma PlaceSnoc(listId: Option<string>, series: seq<RawSeries>, j: int)
    requires 0 <= j < |series|
    ensures Place(listId, series[..j + 1]) == Place(listId, series[..j]) + [Placed(listId, series[j])]
  {
  }

  /** One more series of the current list formats to one more record. */
  lemma FormatStep(done: seq<Placed>, listId: Option<string>, series: seq<RawSeries>, j: int,
                   listMap: map<string, string>, ts: seq<FormattedTask>, t: FormattedTask)
    requires 0 <= j < |series|
    requires FormatAll(done + Place(listId, series[..j]), listMap) == Success(ts)
    requires Format(Placed(listId, series[j]), listMap) == Success(t)
    ensures FormatAll(done + Place(listId, series[..j + 1]), listMap) == Success(ts + [t])
  {
    var p := Placed(listId, series[j]);
    FormatAllSnoc(done + Place(listId, series[..j]), p, listMap, ts, t);
    PlaceSnoc(listId, series, j);
    assert done + Place(listId, series[..j + 1]) == (done + Place(listId, series[..j])) + [p];
  }

  lemma PlacementsSnoc(lists: seq<RawTaskList>, i: int)
    requires 0 <= i < |lists|
    ensures Placements(lists[..i + 1]) == Placements(lists[..i]) + Place(lists[i].id, Normalize(lists[i].taskseries))
  {
    assert lists[..i + 1][..i] == lists[..i];
  }

  /** The loops of `fetchAndInsertTasks`: for each list (a list without
      `taskseries` has none), for each of its series, push its record. */
  method BuildTasks(lists: seq<RawTaskList>, listMap: map<string, string>)
    returns (r: Result<seq<FormattedTask>, Error>)
    ensures r == FormatAll(Placements(lists), listMap)
  {
    var parsed: seq<FormattedTask> := [];
    var i := 0;
    while i < |lists|
      invariant 0 <= i <= |lists|
      invariant FormatAll(Placements(lists[..i]), listMap) == Success(parsed)
    {
      var list := lists[i];
      var seriesArray := Normalize(list.taskseries);
      ghost var done := Placements(lists[..i]);
      var j := 0;
      assert done + Place(list.id, seriesArray[..0]) == done;
      while j < |seriesArray|
        invariant 0 <= j <= |seriesArray|
        invariant FormatAll(done + Place(list.id, seriesArray[..j]), listMap) == Success(parsed)
      {
        var p := Placed(list.id, seriesArray[j]);
        var t := Format(p, listMap);
        if t.Failure? {
          PlacementsContain(lists, i, j);
          FormatAllSucceeds(Placements(lists), listMap);
          return Failure(MalformedResponse);
        }
        FormatStep(done, list.id, seriesArray, j, listMap, parsed, t.value);
        parsed := parsed + [t.value];
        j := j + 1;
      }
      assert seriesArray[..j] == seriesArray;
      PlacementsSnoc(lists, i);
      i := i + 1;
    }
    assert lists[..|lists|] == lists;
    r := Success(parsed);
  }
}
