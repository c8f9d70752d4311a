/** The already-parsed JSON replies of the Remember The Milk REST API, as far as
    the plugin reads them, the singleton-or-array normaliser, and the list map
    that `fetchListsMap` builds from `rtm.lists.getList`. */
module RtmResponse {
  import opened Wrappers
  import opened JsText

  /** A field the service sends as a bare value when it holds one item and as
      an array otherwise. */
  datatype OneOrMany<T> = One(item: T) | Many(items: seq<T>)

  /** One entry of `rsp.lists.list`. A `null` entry reads like one with neither
      id nor name. */
  datatype ListEntry = ListEntry(id: Option<string>, name: Option<string>)

  datatype ListsBody = ListsBody(list: Option<OneOrMany<ListEntry>>)

  /** One occurrence of a task series. */
  datatype RawTask = RawTask(id: string, due: Option<string>, priority: Option<string>)

  /** `s.tags`: the service sends `[]` (no `tag` field) when a series has no tags. */
  datatype RawTags = RawTags(tag: Option<OneOrMany<string>>)

  datatype RawSeries = RawSeries(
    id: string,
    name: string,
    listId: Option<string>,
    task: Option<OneOrMany<RawTask>>,
    tags: Option<RawTags>)

  /** One entry of `rsp.tasks.list`, and the `rsp.list` of `rtm.tasks.add`. */
  datatype RawTaskList = RawTaskList(id: Option<string>, taskseries: Option<OneOrMany<RawSeries>>)

  datatype TasksBody = TasksBody(list: Option<OneOrMany<RawTaskList>>)

  datatype AuthBody = AuthBody(token: string)

  /** The members of `rsp` besides `stat` and `err` that the plugin reads. */
  datatype Payload = Payload(
    lists: Option<ListsBody>,
    tasks: Option<TasksBody>,
    timeline: Option<string>,
    list: Option<OneOrMany<RawTaskList>>,
    frob: Option<string>,
    auth: Option<AuthBody>)

  /** `{ rsp: { stat, err?: { msg? }, ...payload } }`; `errMsg` is `rsp.err?.msg`. */
  datatype Envelope = Envelope(stat: string, errMsg: Option<string>, payload: Payload)

  /** What a request yields: no reply at all, or a parsed JSON body. */
  datatype Reply = Unreachable | Delivered(json: Envelope)

  /** The conditions the plugin raises or meets. */
  datatype Error =
    | MissingCredentials
    | TransportError
    | ApiError(message: string)
    | MalformedResponse

  /** `Array.isArray(x) ? x : [x]` on a field that is present; an absent field
      yields nothing (the callers test it first and skip it). */
  function Normalize<T>(f: Option<OneOrMany<T>>): seq<T> {
    match f
    case None => []
    case Some(One(x)) => [x]
    case Some(Many(xs)) => xs
  }

  /** Normalising a normalised field changes nothing. */
  lemma NormalizeIdempotent<T>(f: Option<OneOrMany<T>>)
    ensures Normalize(Some(Many(Normalize(f)))) == Normalize(f)
  {
  }

  /** `Array.isArray(x) ? x[0] : x`: the first item, absent for an empty array. */
  function First<T>(f: Option<OneOrMany<T>>): (r: Option<T>)
    ensures r.Some? <==> |Normalize(f)| > 0
    ensures r.Some? ==> r.value == Normalize(f)[0]
  {
    match f
    case None => None
    case Some(One(x)) => Some(x)
    case Some(Many(xs)) => if |xs| > 0 then Some(xs[0]) else None
  }

  /** `l && l.id && l.name` with `l.id` equal to `k`. */
  predicate Defines(e: ListEntry, k: string) {
    Truthy(e.id) && Truthy(e.name) && e.id.value == k
  }

  /** The map `fetchListsMap` fills: `map[l.id] = l.name` for every entry with
      both an id and a name, later entries overwriting earlier ones. */
  function ListMapOf(entries: seq<ListEntry>): (m: map<string, string>)
    ensures forall k :: k in m ==> k != "" && m[k] != ""
  {
    if entries == [] then map[]
    else
      var m := ListMapOf(entries[..|entries| - 1]);
      var e := entries[|entries| - 1];
      if Truthy(e.id) && Truthy(e.name) then m[e.id.value := e.name.value] else m
  }

  /** Entry `i` is the last one that defines `k`. */
  predicate LastDefining(entries: seq<ListEntry>, i: int, k: string) {
    0 <= i < |entries| && Defines(entries[i], k) && forall j :: i < j < |entries| ==> !Defines(entries[j], k)
  }

  /** An id is in the list map exactly when some entry defines it. */
  lemma {:induction false} ListMapHas(entries: seq<ListEntry>, k: string)
    ensures k in ListMapOf(entries) <==> exists i :: 0 <= i < |entries| && Defines(entries[i], k)
    decreases |entries|
  {
    if entries != [] {
      var n := |entries| - 1;
      var init := entries[..n];
      ListMapHas(init, k);
      if Defines(entries[n], k) {
        assert k in ListMapOf(entries);
      } else {
        if k in ListMapOf(entries) {
          assert k in ListMapOf(init);
          var i :| 0 <= i < n && Defines(init[i], k);
          assert Defines(entries[i], k);
        }
        if exists i :: 0 <= i < |entries| && Defines(entries[i], k) {
          var i :| 0 <= i < |entries| && Defines(entries[i], k);
          assert Defines(init[i], k);
        }
      }
    }
  }

  /** An id maps to the name of the last entry that defines it. */
  lemma {:induction false} ListMapLastWins(entries: seq<ListEntry>, i: int, k: string)
    requires LastDefining(entries, i, k)
    ensures k in ListMapOf(entries) && ListMapOf(entries)[k] == entries[i].name.value
    decreases |entries|
  {
    var n := |entries| - 1;
    var init := entries[..n];
    if i < n {
      assert LastDefining(init, i, k);
      ListMapLastWins(init, i, k);
      assert !Defines(entries[n], k);
    }
  }

  /** The loop of `fetchListsMap` over the normalised `rsp.lists.list`. */
  method BuildListMap(entries: seq<ListEntry>) returns (m: map<string, string>)
    ensures m == ListMapOf(entries)
  {
    m := map[];
    var i := 0;
    while i < |entries|
      invariant 0 <= i <= |entries|
      invariant m == ListMapOf(entries[..i])
    {
      var l := entries[i];
      assert entries[..i + 1][..i] == entries[..i];
      if Truthy(l.id) && Truthy(l.name) {
        m := m[l.id.value := l.name.value];
      }
      i := i + 1;
    }
    assert entries[..|entries|] == entries;
  }

  /** `res.rsp.lists && res.rsp.lists.list`, normalised; nothing when either is absent. */
  function ListEntries(p: Payload): seq<ListEntry> {
    if p.lists.Some? && p.lists.value.list.Some? then Normalize(p.lists.value.list) else []
  }

  /** `response.rsp.tasks.list`, normalised, or absent ("No tasks found."). */
  function TaskLists(p: Payload): (r: Option<seq<RawTaskList>>)
    ensures r.None? <==> p.tasks.None? || p.tasks.value.list.None?
  {
    if p.tasks.Some? && p.tasks.value.list.Some? then Some(Normalize(p.tasks.value.list)) else None
  }
}
