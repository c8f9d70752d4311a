/** The plugin object: its settings, its remembered timeline, and the commands
    that talk to the service and rewrite the document. The editor is a line
    in and a line or a block of text out; notices are not modelled. */
module Plugin {
  import opened Wrappers
  import opened JsText
  import opened Signature
  import opened RtmResponse
  import opened RtmApi
  import opened TaskBuilder
  import opened LineCodec
  import opened ImportModal

  /** The filter of the two fixed download commands. */
  const IncompleteFilter := "status:incomplete"

  /** What `getTimeline` returns, the timeline the plugin holds afterwards, and
      the request it sent, if any. */
  datatype TimelineStep = TimelineStep(result: Result<Option<string>, Error>, timeline: Option<string>, sent: Option<map<string, string>>)

  /** The line an editor command writes back, if any, and the timeline it leaves. */
  datatype LineEdit = LineEdit(line: Option<string>, timeline: Option<string>)

  /** `getTimeline` from the remembered timeline `tl`: a truthy one is returned as
      it is; otherwise `rtm.timelines.create` is called and its `rsp.timeline`,
      present or not, is remembered and returned. */
  ghost function TimelineSpec(s: Settings, tl: Option<string>, digest: string -> string, server: Server): TimelineStep {
    if Truthy(tl) then TimelineStep(Success(tl), tl, None)
    else
      var c := CallSpec(s, "rtm.timelines.create", map[], digest, server);
      match c.result
      case Failure(e) => TimelineStep(Failure(e), tl, c.sent)
      case Success(env) => TimelineStep(Success(env.payload.timeline), env.payload.timeline, c.sent)
  }

  /** `fetchListsMap`: the id-to-name map of the lists, empty when the call fails. */
  ghost function ListMapSpec(s: Settings, digest: string -> string, server: Server): map<string, string> {
    match CallSpec(s, "rtm.lists.getList", map[], digest, server).result
    case Failure(_) => map[]
    case Success(env) => ListMapOf(ListEntries(env.payload))
  }

  /** The tasks `fetchAndInsertTasks` builds for a filter: nothing when a call
      fails, when `rsp.tasks.list` is absent, or when a series has no task. */
  ghost function FetchedTasks(s: Settings, filter: string, digest: string -> string, server: Server): Option<seq<FormattedTask>> {
    var listMap := ListMapSpec(s, digest, server);
    match CallSpec(s, "rtm.tasks.getList", map["filter" := filter], digest, server).result
    case Failure(_) => None
    case Success(env) =>
      match TaskLists(env.payload)
      case None => None
      case Some(lists) =>
        match FormatAll(Placements(lists), listMap)
        case Failure(_) => None
        case Success(ts) => Some(ts)
  }

  /** The text `fetchAndInsertTasks` inserts: the fetched tasks, or those the
      user leaves ticked after `clicks` when the selection dialog is shown;
      nothing when no task is left. */
  ghost function ImportSpec(s: Settings, filter: string, showSelectionUI: bool, clicks: seq<(nat, bool)>,
                            digest: string -> string, server: Server): Option<string>
  {
    match FetchedTasks(s, filter, digest, server)
    case None => None
    case Some(ts) =>
      var chosen := Chosen(ts, showSelectionUI, clicks);
      if chosen == [] then None else Some(Block(chosen))
  }

  /** The tasks that reach the note: all of them, or the ticked ones when the
      selection dialog is shown. */
  function Chosen(ts: seq<FormattedTask>, showSelectionUI: bool, clicks: seq<(nat, bool)>): seq<FormattedTask> {
    if showSelectionUI then Filter(ts, Toggled(AllTicked(|ts|), clicks)) else ts
  }

  /** `{ timeline, name, parse: '1' }`. */
  function AddParams(timeline: string, name: string): map<string, string> {
    map["timeline" := timeline, "name" := name, "parse" := "1"]
  }

  /** `{ timeline, list_id, taskseries_id, task_id }`. */
  function CompleteParams(timeline: string, ref: TaskRef): map<string, string> {
    map["timeline" := timeline, "list_id" := ref.list, "taskseries_id" := ref.series, "task_id" := ref.task]
  }

  /** The ids of the task `rtm.tasks.add` created: the first list, its first
      series and that series' first task; nothing when one of them is missing. */
  function CreatedRef(p: Payload): (r: Option<TaskRef>)
    ensures r.Some? <==>
      && First(p.list).Some?
      && First(First(p.list).value.taskseries).Some?
      && First(First(First(p.list).value.taskseries).value.task).Some?
    ensures r.Some? ==>
      var list := Normalize(p.list)[0];
      var series := Normalize(list.taskseries)[0];
      r.value == TaskRef(Interpolate(list.id), series.id, Normalize(series.task)[0].id)
  {
    match First(p.list)
    case None => None
    case Some(list) =>
      match First(list.taskseries)
      case None => None
      case Some(series) =>
        match First(series.task)
        case None => None
        case Some(task) => Some(TaskRef(Interpolate(list.id), series.id, task.id))
  }

  /** `addTaskFromEditor` on `line` with remembered timeline `tl`. */
  ghost function AddSpec(s: Settings, tl: Option<string>, line: string, digest: string -> string, server: Server): LineEdit {
    var name := TaskNameOf(line);
    if name == "" then LineEdit(None, tl)
    else
      var step := TimelineSpec(s, tl, digest, server);
      match step.result
      case Failure(_) => LineEdit(None, step.timeline)
      case Success(token) =>
        match CallSpec(s, "rtm.tasks.add", AddParams(Interpolate(token), name), digest, server).result
        case Failure(_) => LineEdit(None, step.timeline)
        case Success(env) =>
          match CreatedRef(env.payload)
          case None => LineEdit(None, step.timeline)
          case Some(ref) => LineEdit(Some(AddedLine(name, ref)), step.timeline)
  }

  /** `completeTaskInEditor` on `line` with remembered timeline `tl`. */
  ghost function CompleteSpec(s: Settings, tl: Option<string>, line: string, digest: string -> string, server: Server): LineEdit {
    match CompletionTarget(line)
    case NoLink => LineEdit(None, tl)
    case InvalidList => LineEdit(None, tl)
    case Complete(ref) =>
      var step := TimelineSpec(s, tl, digest, server);
      match step.result
      case Failure(_) => LineEdit(None, step.timeline)
      case Success(token) =>
        match CallSpec(s, "rtm.tasks.complete", CompleteParams(Interpolate(token), ref), digest, server).result
        case Failure(_) => LineEdit(None, step.timeline)
        case Success(_) => LineEdit(Some(CompleteLine(line)), step.timeline)
  }

  /** Both the key and the secret are set and the user has authenticated. */
  predicate Authorized(s: Settings) {
    s.apiKey != "" && s.sharedSecret != "" && s.authToken != ""
  }

  class RtmPlugin {
    var settings: Settings
    var timeline: Option<string>

    /** The plugin as loaded by `loadSettings` from what `loadData` gave back,
        with no timeline yet. */
    constructor(data: Option<Stored>)
      ensures settings == LoadSettings(data) && timeline == None
    {
      settings := LoadSettings(data);
      timeline := None;
    }

    /** `checkAuth`: first the key and secret, then the token. */
    function CheckAuth(): (ok: bool)
      reads this
      ensures ok <==> Authorized(settings)
    {
      if settings.apiKey == "" || settings.sharedSecret == "" then false
      else if settings.authToken == "" then false
      else true
    }

    /** `callRtmApi`. */
    method CallRtmApi(apiMethod: string, params: map<string, string>, digest: string -> string, server: Server)
      returns (result: Result<Envelope, Error>, sent: Option<map<string, string>>)
      ensures Call(result, sent) == CallSpec(settings, apiMethod, params, digest, server)
    {
      var apiKey := settings.apiKey;
      var sharedSecret := settings.sharedSecret;
      if apiKey == "" || sharedSecret == "" {
        return Failure(MissingCredentials), None;
      }
      var apiParams := ApiParams(settings, apiMethod, params);
      var request := SignRequest(sharedSecret, apiParams, digest);
      result := CheckReply(server(request));
      sent := Some(request);
    }

    /** `getTimeline`: the timeline is asked for once and remembered. */
    method GetTimeline(digest: string -> string, server: Server)
      returns (result: Result<Option<string>, Error>, sent: Option<map<string, string>>)
      modifies this
      ensures settings == old(settings)
      ensures TimelineStep(result, timeline, sent) == TimelineSpec(settings, old(timeline), digest, server)
    {
      if Truthy(timeline) {
        return Success(timeline), None;
      }
      var res;
      res, sent := CallRtmApi("rtm.timelines.create", map[], digest, server);
      if res.Failure? {
        return Failure(res.error), sent;
      }
      timeline := res.value.payload.timeline;
      result := Success(timeline);
    }

    /** `fetchListsMap`: a failed call leaves the map empty. */
    method FetchListsMap(digest: string -> string, server: Server) returns (listMap: map<string, string>)
      ensures listMap == ListMapSpec(settings, digest, server)
    {
      var res, _ := CallRtmApi("rtm.lists.getList", map[], digest, server);
      if res.Failure? {
        return map[];
      }
      listMap := BuildListMap(ListEntries(res.value.payload));
    }

    /** `fetchAndInsertTasks`: `clicks` are the user's clicks in the selection
        dialog before the import button, when the dialog is shown. */
    method FetchAndInsertTasks(filter: string, showSelectionUI: bool, clicks: seq<(nat, bool)>,
                               digest: string -> string, server: Server)
      returns (inserted: Option<string>)
      ensures inserted == ImportSpec(settings, filter, showSelectionUI, clicks, digest, server)
    {
      var listMap := FetchListsMap(digest, server);
      var res, _ := CallRtmApi("rtm.tasks.getList", map["filter" := filter], digest, server);
      if res.Failure? {
        return None;
      }
      var lists := TaskLists(res.value.payload);
      if lists.None? {
        return None;
      }
      var parsed := BuildTasks(lists.value, listMap);
      if parsed.Failure? {
        return None;
      }
      assert FetchedTasks(settings, filter, digest, server) == Some(parsed.value);
      var chosen := parsed.value;
      if showSelectionUI {
        var modal := new TaskImportModal(parsed.value);
        modal.Click(clicks);
        chosen := modal.ImportSelected();
      }
      assert chosen == Chosen(parsed.value, showSelectionUI, clicks);
      inserted := InsertParsedTasks(chosen);
    }

    /** `addTaskFromEditor`: the line becomes a linked task line once the task exists remotely. */
    method AddTaskFromEditor(line: string, digest: string -> string, server: Server) returns (newLine: Option<string>)
      modifies this
      ensures settings == old(settings)
      ensures LineEdit(newLine, timeline) == AddSpec(settings, old(timeline), line, digest, server)
    {
      var taskName := TaskNameOf(line);
      if taskName == "" {
        return None;
      }
      var tl, _ := GetTimeline(digest, server);
      if tl.Failure? {
        return None;
      }
      var res, _ := CallRtmApi("rtm.tasks.add", AddParams(Interpolate(tl.value), taskName), digest, server);
      if res.Failure? {
        return None;
      }
      var ref := CreatedRef(res.value.payload);
      if ref.None? {
        return None;
      }
      newLine := Some(AddedLine(taskName, ref.value));
    }

    /** `completeTaskInEditor`: the linked task is completed remotely, then its box ticked. */
    method CompleteTaskInEditor(line: string, digest: string -> string, server: Server) returns (newLine: Option<string>)
      modifies this
      ensures settings == old(settings)
      ensures LineEdit(newLine, timeline) == CompleteSpec(settings, old(timeline), line, digest, server)
    {
      var target := CompletionTarget(line);
      if !target.Complete? {
        return None;
      }
      var tl, _ := GetTimeline(digest, server);
      if tl.Failure? {
        return None;
      }
      var res, _ := CallRtmApi("rtm.tasks.complete", CompleteParams(Interpolate(tl.value), target.ref), digest, server);
      if res.Failure? {
        return None;
      }
      newLine := Some(CompleteLine(line));
    }

    /** The add-task command: only when authorized. */
    method AddCommand(line: string, digest: string -> string, server: Server) returns (newLine: Option<string>)
      modifies this
      ensures settings == old(settings)
      ensures !Authorized(settings) ==> newLine.None? && timeline == old(timeline)
      ensures Authorized(settings) ==> LineEdit(newLine, timeline) == AddSpec(settings, old(timeline), line, digest, server)
    {
      if !CheckAuth() {
        return None;
      }
      newLine := AddTaskFromEditor(line, digest, server);
    }

    /** The complete-task command: only when authorized. */
    method CompleteCommand(line: string, digest: string -> string, server: Server) returns (newLine: Option<string>)
      modifies this
      ensures settings == old(settings)
      ensures !Authorized(settings) ==> newLine.None? && timeline == old(timeline)
      ensures Authorized(settings) ==> LineEdit(newLine, timeline) == CompleteSpec(settings, old(timeline), line, digest, server)
    {
      if !CheckAuth() {
        return None;
      }
      newLine := CompleteTaskInEditor(line, digest, server);
    }

    /** The download command: only when authorized. */
    method DownloadIncomplete(digest: string -> string, server: Server) returns (inserted: Option<string>)
      ensures !Authorized(settings) ==> inserted.None?
      ensures Authorized(settings) ==> inserted == ImportSpec(settings, IncompleteFilter, false, [], digest, server)
    {
      if !CheckAuth() {
        return None;
      }
      inserted := FetchAndInsertTasks(IncompleteFilter, false, [], digest, server);
    }

    /** The select-and-import command. */
    method SelectAndImport(clicks: seq<(nat, bool)>, digest: string -> string, server: Server) returns (inserted: Option<string>)
      ensures !Authorized(settings) ==> inserted.None?
      ensures Authorized(settings) ==> inserted == ImportSpec(settings, IncompleteFilter, true, clicks, digest, server)
    {
      if !CheckAuth() {
        return None;
      }
      inserted := FetchAndInsertTasks(IncompleteFilter, true, clicks, digest, server);
    }

    /** The custom-filter command, once the filter dialog has produced `filter`. */
    method DownloadWithFilter(filter: string, clicks: seq<(nat, bool)>, digest: string -> string, server: Server)
      returns (inserted: Option<string>)
      ensures !Authorized(settings) ==> inserted.None?
      ensures Authorized(settings) ==> inserted == ImportSpec(settings, filter, true, clicks, digest, server)
    {
      if !CheckAuth() {
        return None;
      }
      inserted := FetchAndInsertTasks(filter, true, clicks, digest, server);
    }
  }

  // ------------------------------------------------------------- properties

  /** A remembered timeline is returned as it is, and no request is made. */
  lemma TimelineMemo(s: Settings, tl: Option<string>, digest: string -> string, server: Server)
    requires Truthy(tl)
    ensures TimelineSpec(s, tl, digest, server) == TimelineStep(Success(tl), tl, None)
  {
  }

  /** The timeline changes only when none was remembered, and only on success. */
  lemma TimelineWrittenOnce(s: Settings, tl: Option<string>, digest: string -> string, server: Server)
    ensures var step := TimelineSpec(s, tl, digest, server);
      (step.timeline != tl ==> !Truthy(tl) && step.result.Success?)
      && (step.result.Failure? ==> step.timeline == tl)
      && (step.result.Success? ==> step.result.value == step.timeline)
  {
  }

  /** A token obtained once is reused: the next `getTimeline` sends nothing. */
  lemma TimelineReused(s: Settings, tl: Option<string>, digest: string -> string, server: Server,
                       digest': string -> string, server': Server)
    requires Truthy(TimelineSpec(s, tl, digest, server).timeline)
    ensures var t := TimelineSpec(s, tl, digest, server).timeline;
      TimelineSpec(s, t, digest', server') == TimelineStep(Success(t), t, None)
  {
  }

  /** With credentials set, every command's calls reach the service. */
  lemma AuthorizedCallsGoOut(s: Settings, apiMethod: string, params: map<string, string>,
                             digest: string -> string, server: Server)
    requires Authorized(s)
    ensures CallSpec(s, apiMethod, params, digest, server).sent.Some?
    ensures CallSpec(s, apiMethod, params, digest, server).result != Failure(MissingCredentials)
  {
  }

  /** A line without a name is left alone and nothing is sent. */
  lemma AddNeedsName(s: Settings, tl: Option<string>, line: string, digest: string -> string, server: Server)
    requires TaskNameOf(line) == ""
    ensures AddSpec(s, tl, line, digest, server) == LineEdit(None, tl)
  {
  }

  /** A line written back by the add command links to the created task. */
  lemma AddedLineLinks(s: Settings, tl: Option<string>, line: string, digest: string -> string, server: Server)
    requires AddSpec(s, tl, line, digest, server).line.Some?
    ensures exists ref: TaskRef ::
      && AddSpec(s, tl, line, digest, server).line.value == AddedLine(TaskNameOf(line), ref)
      && (WellFormed(ref) ==> Decode(AddSpec(s, tl, line, digest, server).line.value) == Some(ref))
  {
    var step := TimelineSpec(s, tl, digest, server);
    var env := CallSpec(s, "rtm.tasks.add", AddParams(Interpolate(step.result.value), TaskNameOf(line)), digest, server).result.value;
    var ref := CreatedRef(env.payload).value;
    if WellFormed(ref) {
      AddedLineRoundTrip(TaskNameOf(line), ref);
    }
  }

  /** Only a linked line whose list id is valid is completed, and then only its box changes. */
  lemma CompleteOnlyLinked(s: Settings, tl: Option<string>, line: string, digest: string -> string, server: Server)
    ensures var e := CompleteSpec(s, tl, line, digest, server);
      e.line.Some? ==> Decode(line).Some? && Decode(line).value.list != Missing && e.line.value == CompleteLine(line)
    ensures Decode(line).None? ==> CompleteSpec(s, tl, line, digest, server) == LineEdit(None, tl)
    ensures Decode(line).Some? && Decode(line).value.list == Missing ==> CompleteSpec(s, tl, line, digest, server) == LineEdit(None, tl)
  {
  }

  /** Completing a line the plugin wrote ticks it and keeps its link. */
  lemma CompleteWrittenLine(s: Settings, tl: Option<string>, t: FormattedTask, digest: string -> string, server: Server)
    requires WellFormed(t.rtmId)
    requires CompleteSpec(s, tl, TaskLine(t), digest, server).line.Some?
    ensures CompleteSpec(s, tl, TaskLine(t), digest, server).line.value == Checked + " " + IdTag(t.rtmId) + LineRest(t) + "\n"
    ensures Decode(CompleteSpec(s, tl, TaskLine(t), digest, server).line.value) == Some(t.rtmId)
  {
    CompleteTaskLine(t);
    CompletedTaskLineRoundTrip(t);
  }

  /** Showing the dialog and importing without a click imports every task. */
  lemma SelectionDefaultsToAll(s: Settings, filter: string, digest: string -> string, server: Server)
    ensures ImportSpec(s, filter, true, [], digest, server) == ImportSpec(s, filter, false, [], digest, server)
  {
    match FetchedTasks(s, filter, digest, server)
    case None =>
    case Some(ts) =>
      FilterKeepsAll(ts, AllTicked(|ts|));
  }

  /** The inserted block has one line per imported task, each linking to its task. */
  lemma ImportedLinesLink(s: Settings, filter: string, showSelectionUI: bool, clicks: seq<(nat, bool)>,
                          digest: string -> string, server: Server)
    requires ImportSpec(s, filter, showSelectionUI, clicks, digest, server).Some?
    ensures FetchedTasks(s, filter, digest, server).Some?
    ensures var ts := Chosen(FetchedTasks(s, filter, digest, server).value, showSelectionUI, clicks);
      && ts != []
      && ImportSpec(s, filter, showSelectionUI, clicks, digest, server).value == Block(ts)
      && ((forall i :: 0 <= i < |ts| ==> SingleLine(ts[i])) ==>
            && |SplitLines(Block(ts))| == |ts|
            && forall i :: 0 <= i < |ts| ==> Decode(SplitLines(Block(ts))[i]) == Some(ts[i].rtmId))
  {
    var ts := Chosen(FetchedTasks(s, filter, digest, server).value, showSelectionUI, clicks);
    if forall i :: 0 <= i < |ts| ==> SingleLine(ts[i]) {
      BlockRoundTrip(ts);
    }
  }

}
