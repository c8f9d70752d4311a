# Remember The Milk plugin for Obsidian, modelled in Dafny

This project models the logic of the Obsidian plugin that links a Markdown
note to a Remember The Milk (RTM) account. The plugin imports tasks as
checklist lines, adds the line under the cursor as a new task, and completes
the task a line links to. Only the logic is modelled: the editor, the dialogs'
rendering, notices and persistence are not. The modules are:

- `JsText` (`js_text.dfy`): the JavaScript string operations the plugin relies on.
  - `split('T')[0]`, `trim()`, `indexOf` and `replace` with a string pattern.
  - Truthiness of an optional field.
  - How an `undefined` value reads when it is interpolated into text.
  - The exact ECMAScript class behind `\s`.
- `Signature` (`signature.dfy`): the request-signing recipe.
  - The parameter names are sorted and each name and value is appended to the shared secret.
  - The result is hashed.
  - It is proved that the signed text depends only on the set of parameters, not on the order they were added in.
  - It is proved that the signed text changes when any value changes.
  - MD5 is a function parameter (`digest`).
- `RtmResponse` (`rtm_response.dfy`): the parsed replies the plugin reads.
  - The single-item-or-array normaliser and the list-id-to-name map of `fetchListsMap`.
- `TaskBuilder` (`task_builder.dfy`): the `FormattedTask` record built for each task series.
  - The fields are the list-id fallback to `MISSING`, the priority glyphs, the due date, the list name and the tags.
  - The nested loops of `fetchAndInsertTasks` produce these records.
- `LineCodec` (`line_codec.dfy`): the Markdown line format.
  - The encoder of `insertParsedTasks` is proved against a decoder that mirrors the regular expression of `completeTaskInEditor`.
  - The round trip: a written line or block decodes to each task's `(list, series, task)` ids.
  - The `- [ ]` to `- [x]` rewrite, which changes only the box.
  - The task-name extraction of `addTaskFromEditor`.
- `RtmApi` (`rtm_api.dfy`): one call of `callRtmApi`.
  - The credentials check, the parameters that are always added, the signed request, and the acceptance of the reply.
  - The service is a function from request parameters to a reply.
- `ImportModal` (`import_modal.dfy`): the selection dialog.
  - A boolean array that starts all ticked and is updated in place by the checkbox handler.
  - The filter that keeps the ticked tasks in order.
- `Plugin` (`plugin.dfy`): the `RtmPlugin` class.
  - Its `settings` and `timeline` fields, and each command as a method.
  - All five commands first check authorization; the methods that import, add or complete a line are proved equal to a specification function of the settings, the old timeline and the service.
  - Lemmas show:
    - the timeline memo;
    - that nothing is sent without credentials;
    - that an added line links to the created task;
    - that only a valid link is completed;
    - that the selection dialog defaults to importing everything.
- `AuthFlow` (`auth_flow.dfy`): the frob request, the signed permission page, and the token dialog that saves the token.

Cited lines are in `src/main.ts`.

## Model

| member | source | states |
|---|---|---|
| JsText.Interpolate | src/main.ts:241 | a present value interpolates as itself, an absent one as the text `undefined` |
| JsText.Truthy | src/main.ts:279 | a present, non-empty string is truthy; an absent or empty one is not |
| JsText.IsSpace | src/main.ts:225 | the ECMAScript WhiteSpace and LineTerminator characters that `trim` and `\s` use |
| JsText.IsWordChar | src/main.ts:252 | the characters of `[\w\d]`: ASCII letters, digits and `_` |
| JsText.BeforeFirst | src/main.ts:148 | the result is the longest prefix without `T`: it holds no `T` and is either all of the input or followed by a `T` |
| JsText.Trim | src/main.ts:225 | the result is a slice of the input with only whitespace on both sides, and neither end of the result is whitespace |
| JsText.TrimStart | src/main.ts:225 | a suffix of the input whose removed prefix is all whitespace and that starts with non-whitespace |
| JsText.TrimEnd | src/main.ts:225 | a prefix of the input whose removed suffix is all whitespace and that ends with non-whitespace |
| JsText.TrimIdempotent | src/main.ts:225 | trimming an already trimmed name changes nothing |
| JsText.IndexOf | src/main.ts:272 | the first occurrence of the pattern at or after the start, or none when there is no occurrence at all |
| JsText.ReplaceFirst | src/main.ts:272 | without an occurrence the text is unchanged; otherwise the first occurrence is replaced and the text before and after it is kept |
| Signature.BelowIrreflexive | src/main.ts:291 | the sort order of names never puts a name before itself |
| Signature.Below | src/main.ts:291 | the order `sort()` puts names in: character by character, a proper prefix first |
| Signature.BelowTransitive | src/main.ts:291 | the sort order of names is transitive |
| Signature.BelowAsymmetric | src/main.ts:291 | two names are never each before the other |
| Signature.BelowTotal | src/main.ts:291 | of two different names one sorts before the other |
| Signature.SortedUnique | src/main.ts:291 | two strictly sorted sequences of the same names are equal, so the sorted key list is unique |
| Signature.Insert | src/main.ts:291 | inserting a new name into a sorted sequence keeps it sorted and adds exactly that name |
| Signature.Canonical | src/main.ts:291 | the signing order is strictly sorted and holds exactly the parameter names |
| Signature.SortKeys | src/main.ts:291 | `Object.keys(o).sort()`: strictly sorted and exactly the given names |
| Signature.BuildSigningText | src/main.ts:292-293 | the loop builds the shared secret followed by every name and its value in sorted order |
| Signature.Signature | src/main.ts:294 | the signature is the digest of that signing text |
| Signature.SignRequest | src/main.ts:290-294 | the request is the signed parameters plus `api_sig`, which is computed before it is added and so is not itself signed |
| Signature.SigningTextAnyOrder | src/main.ts:291-293 | any strictly sorted enumeration of the names gives the same signing text, so insertion order does not matter |
| Signature.PairsAppend | src/main.ts:293 | the text of two runs of names is the concatenation of their texts |
| Signature.Pairs | src/main.ts:293 | each name of the given order followed by its value, one after the other |
| Signature.SigningText | src/main.ts:292-293 | the shared secret followed by the names and values in sorted order |
| Signature.SortedApart | src/main.ts:291 | in the sorted name list a name occurs at one position only |
| Signature.PairsChangeOne | src/main.ts:293 | changing the value of a name that occurs once changes the signing text |
| Signature.SigningTextSensitive | src/main.ts:293 | changing the value of one parameter changes the signed text |
| RtmResponse.NormalizeIdempotent | src/main.ts:109 | normalising an already normalised field changes nothing |
| RtmResponse.Normalize | src/main.ts:131 | `Array.isArray(x) ? x : [x]`: an array as it is, a single value as a one-element list |
| RtmResponse.First | src/main.ts:139 | `Array.isArray(x) ? x[0] : x`: present exactly when the normalised field is non-empty, and then its first element |
| RtmResponse.ListMapOf | src/main.ts:108-111 | every id in the list map and every name it maps to is non-empty |
| RtmResponse.ListMapHas | src/main.ts:108-111 | an id is in the map exactly when some entry has that id and a name |
| RtmResponse.ListMapLastWins | src/main.ts:110-111 | an id maps to the name of the last entry that defines it |
| RtmResponse.BuildListMap | src/main.ts:105-115 | the loop fills the map that `ListMapOf` describes |
| RtmResponse.ListEntries | src/main.ts:108-109 | the normalised `rsp.lists.list` when `rsp.lists` and its `list` are present, and no entries otherwise |
| RtmResponse.TaskLists | src/main.ts:125-131 | absent exactly when `rsp.tasks` or `rsp.tasks.list` is absent, and otherwise the normalised lists |
| TaskBuilder.ResolveListId | src/main.ts:141-143 | the list's id if truthy, else the series' `list_id` if truthy, else `MISSING`; never empty |
| TaskBuilder.PriorityDisplay | src/main.ts:152-158 | `1` gives 🔺, `2` gives 🔼 and `3` gives 🔽; anything else gives empty |
| TaskBuilder.PriorityDisplayInjective | src/main.ts:154-157 | different priority codes get different glyphs |
| TaskBuilder.DueDisplay | src/main.ts:146-150 | empty exactly when the raw due is absent or empty; otherwise the calendar glyph and the text before the first `T` |
| TaskBuilder.DueDisplayOfTimestamp | src/main.ts:147-149 | a timestamp `date T time` shows the date |
| TaskBuilder.ListNameDisplay | src/main.ts:161-163 | the mapped name when the id maps to a non-empty name, and empty otherwise |
| TaskBuilder.HasTags | src/main.ts:167 | `s.tags && s.tags.tag`: both present, and the tag not a lone empty string |
| TaskBuilder.Tags | src/main.ts:166-170 | the normalised tags in reply order when `s.tags.tag` is truthy, and none otherwise |
| TaskBuilder.Format | src/main.ts:137-181 | a series yields a record exactly when it has a task; otherwise the import fails |
| TaskBuilder.FormatFields | src/main.ts:172-181 | each field of the record is taken from the series, its first task, the resolved list id and the list map |
| TaskBuilder.Place | src/main.ts:135-137 | each series of a list is paired with that list's id, in order |
| TaskBuilder.Placements | src/main.ts:133-137 | every list in reply order, and within it each of its normalised series, each paired with the list's id |
| TaskBuilder.PlacementsContain | src/main.ts:133-137 | every series of every list is visited |
| TaskBuilder.FormatAll | src/main.ts:133-183 | building fails only as a malformed response |
| TaskBuilder.FormatAllSucceeds | src/main.ts:137-139 | building succeeds exactly when every series has a task |
| TaskBuilder.FormatAllItems | src/main.ts:172 | a successful build yields one record per series, in source order |
| TaskBuilder.BuildTasks | src/main.ts:130-183 | the nested loops give the records `FormatAll` describes, stopping at the first series without a task |
| LineCodec.Slug | src/main.ts:207 | the slug has no whitespace, `,` or `.`, is no longer than the name, and is empty only for an empty name |
| LineCodec.SlugOfPlain | src/main.ts:207 | a name without whitespace, `,` or `.` is its own slug |
| LineCodec.SkipSeparatorsRun | src/main.ts:207 | a maximal run of separators is removed whole |
| LineCodec.SkipSeparators | src/main.ts:207 | the result is a suffix after a removed run of separators, and does not start with a separator |
| LineCodec.SlugCollapsesRun | src/main.ts:207 | each maximal run of separators becomes one `_` and the characters around it are kept |
| LineCodec.ListTag | src/main.ts:205-209 | empty exactly when there is no list name; otherwise ` #` and the slug |
| LineCodec.BlockSnoc | src/main.ts:214 | one more task appends exactly its line to the block |
| LineCodec.TagsText | src/main.ts:211 | ` #` and the tag for each tag, in order |
| LineCodec.IdTag | src/main.ts:212 | the link `[🐮](rtm:L:S:T)` to the task |
| LineCodec.LineText | src/main.ts:214 | a task line: the unchecked box, the link and the name, markers and tags |
| LineCodec.TaskLine | src/main.ts:214 | a task line followed by its line break |
| LineCodec.Block | src/main.ts:204-215 | the lines of the tasks one after the other |
| LineCodec.InsertParsedTasks | src/main.ts:196-215 | nothing is inserted for no tasks; otherwise the block of one line per task, in order |
| LineCodec.SplitLinesCons | src/main.ts:214 | a line without a line break, followed by one, splits off first |
| LineCodec.LineTextSingleLine | src/main.ts:214 | a task whose fields and ids hold no line break is written on one line |
| LineCodec.SplitJoined | src/main.ts:214 | joined lines without their own line breaks split back into the same lines |
| LineCodec.BlockLines | src/main.ts:204-215 | the inserted block splits into exactly one line per task |
| LineCodec.WordEnd | src/main.ts:252 | the run of word characters at a position ends at the end of the text or at a non-word character |
| LineCodec.WordEndWord | src/main.ts:252 | everything before that end is a word character |
| LineCodec.WordEndExact | src/main.ts:252 | a run of word characters followed by a non-word character ends exactly there |
| LineCodec.GroupEnd | src/main.ts:252 | a found group ends inside the text, after its start, at its closing character |
| LineCodec.GroupEndWord | src/main.ts:252 | a found group is a non-empty run of word characters |
| LineCodec.MatchAtWellFormed | src/main.ts:252-253 | a match at a position has three non-empty word-character ids |
| LineCodec.MatchAt | src/main.ts:252 | the pattern anchored at one position: `(rtm:`, three greedy word groups separated by `:`, and `)` |
| LineCodec.OccursConcat | src/main.ts:252 | an occurrence of two joined texts is an occurrence of the first followed by one of the second |
| LineCodec.OccursRefTag | src/main.ts:252 | the reference tag occurs exactly when its seven pieces occur one after the other |
| LineCodec.MatchAtIsPattern | src/main.ts:252 | what the matcher finds is a reference tag at that position |
| LineCodec.PatternIsMatchAt | src/main.ts:252 | a reference tag with well-formed ids is what the matcher finds there |
| LineCodec.FindMatch | src/main.ts:253 | the leftmost match at or after a position, or none |
| LineCodec.Decode | src/main.ts:253-259 | none exactly when no position matches; otherwise the ids of the leftmost match |
| LineCodec.DecodeNone | src/main.ts:253-255 | the decoder finds nothing exactly when the line holds no reference tag |
| LineCodec.DecodeFirstTag | src/main.ts:253 | a reference tag with no `(` before it is the one decoded |
| LineCodec.DecodeAfter | src/main.ts:252-253 | a reference tag after text without `(` is the one decoded |
| LineCodec.TaskLineRoundTrip | src/main.ts:252-259 | the line `insertParsedTasks` writes for a task decodes to its task's ids when they are word-character runs |
| LineCodec.BlockRoundTrip | src/main.ts:252-259 | every line of an inserted block decodes to its own task's ids, when the ids are word-character runs and no field holds a line break |
| LineCodec.CompleteLineTicksBox | src/main.ts:272 | the length is kept, the first `- [ ]` becomes `- [x]`, and every other character is unchanged |
| LineCodec.CompleteLine | src/main.ts:272 | `replace` of the first `- [ ]` by `- [x]` |
| LineCodec.CompleteUnchecked | src/main.ts:272 | a line that starts with `- [ ]` gets `- [x]` and keeps the rest |
| LineCodec.CompleteTaskLine | src/main.ts:272 | ticking a line `insertParsedTasks` wrote changes only its box |
| LineCodec.CompletedTaskLineRoundTrip | src/main.ts:252-272 | a ticked written line still decodes to its task, when the ids are word-character runs |
| LineCodec.CompletionTarget | src/main.ts:253-261 | no link exactly when nothing decodes, and an invalid list exactly when the decoded list id is `MISSING` |
| LineCodec.CompletionTargetOfTaskLine | src/main.ts:253-261 | a written line is completed unless its list id is `MISSING`, when the ids are word-character runs |
| LineCodec.AddedLineRoundTrip | src/main.ts:240-241 | the line `addTaskFromEditor` writes for a new task decodes to the created ids, when they are word-character runs |
| LineCodec.AddedLine | src/main.ts:240-241 | the unchecked box, the link to the created task and the task name |
| LineCodec.TaskNameOf | src/main.ts:225 | the name is no longer than the line and has no whitespace at either end |
| LineCodec.StripCheckbox | src/main.ts:225 | a leading `[-*] [ ] ` or `[-*] [x] ` marker is removed, and nothing else |
| LineCodec.StripBullet | src/main.ts:225 | a leading `[-*] ` bullet is removed, and nothing else |
| LineCodec.TaskNameNoMarker | src/main.ts:225 | a line opening with neither marker is named by its trimmed text |
| LineCodec.TaskNameAfterCheckbox | src/main.ts:225 | after a `[-*] [ ] ` or `[-*] [x] ` marker, when the rest does not open with a bullet, the name is the trimmed rest |
| LineCodec.TaskNameAfterBullet | src/main.ts:225 | after a bare `[-*] ` bullet the name is the trimmed rest, even when that rest opens with another bullet |
| LineCodec.TaskNameCheckboxThenBullet | src/main.ts:225 | a checkbox marker followed by a bullet loses both, so `- [ ] - foo` is named `foo` |
| RtmApi.ApiParams | src/main.ts:290 | the caller's parameters plus `method`, `api_key`, `format=json` and `auth_token`, even an empty token; those four win, and the caller's other values are kept |
| RtmApi.LoadSettings | src/main.ts:305 | each stored setting wins over its default, an unstored one is `''`, and no stored data gives the defaults |
| RtmApi.LoadStored | src/main.ts:305-306 | settings that were saved load back unchanged |
| RtmApi.Store | src/main.ts:306 | `saveData(settings)`: every setting is stored |
| RtmApi.CheckReply | src/main.ts:297-302 | success exactly when a reply came with `stat` `ok`, returning it unchanged; otherwise a transport error or `API Error: ` and the message |
| RtmApi.Signed | src/main.ts:294 | the parameters plus `api_sig`, the digest of their signing text |
| RtmApi.CallSpec | src/main.ts:285-303 | without a key or a secret nothing is sent and the call fails; otherwise the merged parameters are signed, sent, and the reply checked |
| RtmApi.CallNeedsCredentials | src/main.ts:288 | no request goes out exactly when the key or the secret is empty, and the call then fails |
| RtmApi.SignedKeeps | src/main.ts:293-294 | signing adds `api_sig`, the digest of the sorted signing text, and keeps every other parameter |
| RtmApi.CallSigned | src/main.ts:290-294 | the request carries the merged parameters unchanged plus `api_sig`, the digest of their sorted signing text |
| RtmApi.CallResult | src/main.ts:296-302 | a call succeeds exactly when the sent request gets an `ok` reply, and returns that reply |
| RtmApi.CallSignatureCoversValues | src/main.ts:290-294 | two calls whose caller values differ are signed over different texts |
| RtmApi.AuthParamsKeys | src/main.ts:413-436 | the three auth parameter sets carry no token, and the token request is the frob request with another method and the frob |
| RtmApi.FrobParams | src/main.ts:413 | the frob request: `rtm.auth.getFrob`, the key and `format=json` |
| RtmApi.AuthParams | src/main.ts:419 | the page parameters: the key, `perms=delete` and the frob |
| RtmApi.TokenParams | src/main.ts:436 | the token request: `rtm.auth.getToken`, the key, `format=json` and the frob |
| RtmApi.AuthPageUrl | src/main.ts:423 | the permission page address with the key, `perms=delete`, the frob and the page signature |
| RtmApi.AuthSigningText | src/main.ts:419-422 | the page signature is over `api_key`, `frob`, `perms` in that order |
| ImportModal.KeptIndices | src/main.ts:362 | the ticked positions, in increasing order |
| ImportModal.Kept | src/main.ts:362 | `selected[i]`: a box inside the array that is ticked; a position past the end reads as unticked |
| ImportModal.Filter | src/main.ts:362 | the tasks whose box is ticked, in order; a position beyond the boxes counts as unticked |
| ImportModal.FilterSelects | src/main.ts:362 | the import keeps exactly the ticked tasks, in their original order |
| ImportModal.FilterKeepsAll | src/main.ts:362 | everything is imported exactly when every box is ticked |
| ImportModal.FilterShorter | src/main.ts:362 | the import never has more tasks than the dialog |
| ImportModal.AllTicked | src/main.ts:318 | every box starts ticked |
| ImportModal.ToggledLastClick | src/main.ts:341-344 | a box ends as the last click on it left it, or as it started |
| ImportModal.Toggled | src/main.ts:341-344 | the boxes after each click set its box, keeping their number |
| ImportModal.TaskImportModal.constructor | src/main.ts:315-320 | one box per task, all ticked |
| ImportModal.TaskImportModal.SetChecked | src/main.ts:341-344 | only the clicked box changes, to the clicked state |
| ImportModal.TaskImportModal.Click | src/main.ts:341-344 | after a series of clicks the boxes are as `Toggled` describes |
| ImportModal.TaskImportModal.ImportSelected | src/main.ts:361-363 | the imported tasks are the filter of the tasks by the boxes |
| Plugin.CreatedRef | src/main.ts:234-239 | ids present exactly when the first list, its first series and that series' first task exist; then those ids |
| Plugin.AddParams | src/main.ts:232 | `{ timeline, name, parse: '1' }` |
| Plugin.CompleteParams | src/main.ts:266-271 | `{ timeline, list_id, taskseries_id, task_id }` from the decoded ids |
| Plugin.TimelineSpec | src/main.ts:278-283 | a truthy remembered timeline is returned; otherwise `rtm.timelines.create` is called and its timeline remembered |
| Plugin.ListMapSpec | src/main.ts:104-116 | the list map of a successful `rtm.lists.getList`, and empty on failure |
| Plugin.FetchedTasks | src/main.ts:119-183 | the records built from `rtm.tasks.getList` with the list map, and none when `rtm.tasks.getList` fails, the lists are absent or a series has no task; a failed `rtm.lists.getList` only leaves the map empty |
| Plugin.Chosen | src/main.ts:185-191 | all fetched tasks, or the ticked ones when the dialog is shown |
| Plugin.ImportSpec | src/main.ts:185-194 | the block of the chosen tasks, and nothing when none is left |
| Plugin.AddSpec | src/main.ts:222-246 | nothing without a name, on a failed call, or when the reply lacks the created list, series or task; otherwise the added line of the created ids |
| Plugin.CompleteSpec | src/main.ts:249-276 | nothing without a valid link or on a failed call; otherwise the ticked line |
| Plugin.RtmPlugin.constructor | src/main.ts:33-37 | the plugin starts with the settings `loadSettings` makes of the stored data, and no timeline |
| Plugin.RtmPlugin.CheckAuth | src/main.ts:91-101 | true exactly when the key, the secret and the token are all non-empty |
| Plugin.RtmPlugin.CallRtmApi | src/main.ts:285-303 | the method does what `CallSpec` describes |
| Plugin.RtmPlugin.GetTimeline | src/main.ts:278-283 | the method does what `TimelineSpec` describes and leaves the settings alone |
| Plugin.RtmPlugin.FetchListsMap | src/main.ts:104-116 | the list map of a successful call, and empty when the call fails |
| Plugin.RtmPlugin.FetchAndInsertTasks | src/main.ts:119-194 | inserts the text `ImportSpec` describes, with or without the selection dialog |
| Plugin.RtmPlugin.AddTaskFromEditor | src/main.ts:222-246 | the written line and new timeline are those of `AddSpec` |
| Plugin.RtmPlugin.CompleteTaskInEditor | src/main.ts:249-276 | the written line and new timeline are those of `CompleteSpec` |
| Plugin.RtmPlugin.DownloadIncomplete | src/main.ts:41-48 | nothing without authorization; otherwise the import of `status:incomplete` without the dialog |
| Plugin.RtmPlugin.AddCommand | src/main.ts:72-79 | nothing and no change without authorization; otherwise the add of `AddSpec` |
| Plugin.RtmPlugin.CompleteCommand | src/main.ts:81-88 | nothing and no change without authorization; otherwise the completion of `CompleteSpec` |
| Plugin.RtmPlugin.SelectAndImport | src/main.ts:51-58 | nothing without authorization; otherwise the import of `status:incomplete` through the dialog |
| Plugin.RtmPlugin.DownloadWithFilter | src/main.ts:61-70 | nothing without authorization; otherwise the import of the entered filter through the dialog |
| Plugin.TimelineMemo | src/main.ts:279 | a remembered non-empty timeline is returned as it is and no request is sent |
| Plugin.TimelineWrittenOnce | src/main.ts:279-282 | the timeline changes only when none was remembered and the call succeeded, and a failure leaves it unchanged |
| Plugin.TimelineReused | src/main.ts:279-282 | once a non-empty timeline is obtained, the next `getTimeline` sends nothing |
| Plugin.AuthorizedCallsGoOut | src/main.ts:288 | with authorization every call sends its request |
| Plugin.AddNeedsName | src/main.ts:225-227 | a line without a name is left alone and nothing is sent |
| Plugin.AddedLineLinks | src/main.ts:241-243 | a written-back line is the added-task line of some ids and decodes to them when well formed |
| Plugin.CompleteOnlyLinked | src/main.ts:253-273 | only a linked line with a valid list id is rewritten, and only by ticking its box |
| Plugin.CompleteWrittenLine | src/main.ts:249-273 | completing a written line ticks its box and keeps its link, when the ids are word-character runs |
| Plugin.SelectionDefaultsToAll | src/main.ts:185-191 | the dialog with no click imports what the plain download imports |
| Plugin.ImportedLinesLink | src/main.ts:185-215 | inserted text is a non-empty block of the chosen tasks, and its lines each link to their own task when the ids are word-character runs and no field holds a line break |
| AuthFlow.TokenModal.FinishAuth | src/main.ts:433-447 | the token is saved exactly when the reply holds `rsp.auth`; nothing else changes |
| AuthFlow.TokenModal.constructor | src/main.ts:430 | the dialog holds the frob and the plugin it was opened for |
| AuthFlow.StartAuthProcess | src/main.ts:408-424 | the frob and page `StartAuthSpec` describes, and a token dialog exactly when a page is opened |
| AuthFlow.StartAuthSpec | src/main.ts:408-424 | nothing without a key and a secret or without a reply to the frob request; otherwise the frob from `rsp.frob` and the page signed over the page parameters |
| AuthFlow.TokenReply | src/main.ts:436-441 | the reply to the signed `rtm.auth.getToken` request for the dialog's frob |
| AuthFlow.Granted | src/main.ts:442 | the token reply came and holds `rsp.auth` |
| AuthFlow.FinishAuthSpec | src/main.ts:433-447 | the settings with the token of `rsp.auth` when granted, and unchanged otherwise |
| AuthFlow.StartAuthPage | src/main.ts:419-423 | the page carries the key, `perms=delete`, the frob and the digest of the sorted page parameters |
| AuthFlow.StartAuthNeedsKeys | src/main.ts:412-417 | no frob is requested without a key and a secret, and no page is opened without a reply |
| AuthFlow.FinishAuthOnlyToken | src/main.ts:442-443 | only the token changes, only on a granted reply, and a non-empty granted token with keys authorizes the plugin |

## Left out

- Network I/O (`requestUrl`) is a function parameter from request parameters to a reply.
  - An HTTP or transport failure is one `Unreachable` reply.
  - A reply always has `rsp`; a body without it is not modelled.
- The query-string encoding of `URLSearchParams` and the REST URL (`RTM_REST_URL`) are left out. A request is modelled by its parameter map.
- MD5 is the `digest` parameter over the signing text. Its output is not modelled.
- `window.open` is modelled as the URL it would open (`AuthStart.url`).
- The editor is modelled as a line in and a line or block out.
  - Cursor handling, `replaceSelection` and `setLine` are not modelled.
  - Notices, console logging, dialog rendering and HTML labels are not modelled.
  - The settings tab's text fields are not modelled. Persistence is modelled only as the value `loadData` gives back and what `saveData` stores (`RtmApi.LoadSettings`, `RtmApi.Store`).
- Asynchronous scheduling is not modelled; every command runs to completion in sequence. Two overlapping `getTimeline` calls could both create a timeline. That race is not modelled.
- The selection dialog being closed without pressing the import button, which inserts nothing, is not modelled. `FetchAndInsertTasks` assumes the button is pressed after the given clicks.
- The custom-filter dialog (`FilterModal`) is only its result: the filter string passed to `DownloadWithFilter`.
- Signature.Below: strings are sequences of Unicode code points. JavaScript sorts by UTF-16 code units, which differs only when keys mix characters above U+FFFF with ones in U+E000..U+FFFF.
- The list map is a Dafny `map`. JavaScript's `listMap[realListId]` would also find inherited object properties (say an id `constructor`); that is not modelled.
- A series' `id` and `name` and a task's `id` are always-present strings in the model.
- A `null` entry of `rsp.lists.list` reads like an entry with neither id nor name.
- `rsp.auth.token` is a present string in the model.
- Values that are not strings (numbers, nested objects) are not modelled; every parameter value is a string.
- An absent timeline is passed to later calls as the text `undefined`, as interpolation and `URLSearchParams` render it. The same holds for an absent frob and an absent list id in an added line.
- `\s` is modelled by the exact ECMAScript WhiteSpace and LineTerminator list, not as an abstract class.
- Two behaviours are modelled as the code has them.
  - `auth_token` is always sent, even when the token is empty (`RtmApi.ApiParams`).
  - A rejected reply without a message gives the error `API Error: undefined` (`RtmApi.CheckReply`).
- LineCodec.LineTextSingleLine: splitting a block into lines needs task fields and ids without line breaks (`BreakFree`); the round trip of the ids also needs them well formed (`SingleLine`). A name holding a line break would split its line, and that case is not analysed.
