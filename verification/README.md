# gsuid_core web console: request reshaping

This project models the request-reshaping logic of the gsuid_core web console
(`gsuid_core/web_app.py`). The console is a FastAPI application. Its handlers
take a posted form or query and turn it into writes to a store, sends through
chat bots, or chart payloads. The model lifts the logic out of the async
handlers and states it over strings, sequences and maps:

- **BatchPush**: `_batch_push`. The pushed text becomes a list of message
  segments. The comma-separated target spec becomes two dicts, `group_sends`
  and `user_sends`, from bot id to recipients. The wildcards `ALLUSER` and
  `ALLGROUP` expand from the stored rows. The dispatch loop then sends through
  every active bot that is also in the `push_bot` list.
  - Modules `MessageSegments`, `PushTargets` and `PushDispatch`.
  - Classes `SendMap` (one of the two dicts) and `Pusher` (the send log and
    the shared `msg` list).
- **setSV and setPlugins**: the form dict is rewritten in place. Its `pm` and
  `priority` fields become ints. The lists are split on `,`, and a lone `""`
  becomes `[]`. The plugin handler also splits `prefix`.
  - Module `ServiceForms`, with class `Form`.
- **setGsConfig and setCoreConfig**: every posted value is coerced by the kind
  of config it targets, then written. `log_level` and `log_output` are
  gathered into one `log` object.
  - Module `ConfigWriters`. Its output is the sequence of `set_config` writes.
- **Analytics**: `_get_data_analysis`, `_get_usergroup_analysis` and
  `get_history_data` turn a day-keyed map of counters into line, bar and pie
  data.
  - Module `Analytics`.
- **Helpers**:
  - The name `_upload_image` stores a file under (module `UploadNames`).
  - The log file and page that `get_history_logs` returns (module
    `HistoryLogs`).
  - Both take the clock reading as a parameter (module `Clock`).

Supporting modules:

- `PyStr` gives Python's `str.split`, `join`, `replace`, `startswith`,
  `endswith`, `removesuffix`, slicing and `int()`.
- `PyValues` gives the request-body values and the exceptions the handlers
  raise.
- `Seqs` gives the de-duplication that keeps first-seen order.
- `Wrappers` gives `Option` and `Result`.

Python dicts are ordered, so a dict the handlers iterate over is a sequence of
(key, value) pairs in insertion order. A raised exception is an `Err`, which
carries the `PyError` together with the key that caused it.

## Model

| member | source | states |
|---|---|---|
| MessageSegments.TextOfParagraph | gsuid_core/web_app.py:396-398 | a `<p>BODY</p>` tag yields the text segment `BODY\n` (the slice `[3:-4]` removes exactly the tags) |
| MessageSegments.TextOfShortTag | gsuid_core/web_app.py:398 | a serialised tag of at most 7 characters yields just `\n`, since Python's slice clamps |
| MessageSegments.ImageSourceOfDataUrl | gsuid_core/web_app.py:406 | for a data URL `HEADER,PAYLOAD` the image source is `base64://PAYLOAD` (the part after the last comma) |
| MessageSegments.ImageSourceWithoutComma | gsuid_core/web_app.py:406 | a source without a comma is taken whole after `base64://` |
| MessageSegments.TextSegment | gsuid_core/web_app.py:398 | `str(text)[3:-4] + '\n'` with Python's clamping slice |
| MessageSegments.ImageSource | gsuid_core/web_app.py:406 | `base64://` followed by the part of src after its last comma |
| MessageSegments.AttrValue | gsuid_core/web_app.py:402-404 | what `img.get` hands to `int()` for the width and the height: the attribute string, or None (which `int()` refuses) when the attribute is absent |
| MessageSegments.ImageSegments | gsuid_core/web_app.py:401-409 | one `<img>` gives an image segment and a size segment, exactly when src is present and width and height parse as ints. It raises AttributeError on a missing src, TypeError on a missing width or height, and ValueError on a non-integer one, checked in the source's order |
| MessageSegments.TextSegments | gsuid_core/web_app.py:396-398 | one text segment per paragraph, in order |
| MessageSegments.ImagesSegmentsSpec | gsuid_core/web_app.py:400-409 | the image loop succeeds exactly when every image is well formed. It then yields two segments per image, in order. Otherwise it fails with the error of the first bad image |
| MessageSegments.ImagesSegments | gsuid_core/web_app.py:400-409 | the images in order, two segments each, stopping at the first bad one |
| MessageSegments.Message | gsuid_core/web_app.py:395-409 | every text segment, then the image segments, or the image error |
| MessageSegments.MessageLayout | gsuid_core/web_app.py:395-409 | the message is every text segment followed by every image's source and size segments, so its length is the number of paragraphs plus twice the number of images |
| MessageSegments.BuildMessage | gsuid_core/web_app.py:395-409 | the appending loops build exactly the message described by MessageLayout |
| PushTargets.Insert | gsuid_core/web_app.py:419-424 | adding an id already present under its bot leaves the dict unchanged (never appended twice) |
| PushTargets.InsertAll | gsuid_core/web_app.py:419-424 | the records inserted one after another, in order, as the `ALLUSER` and `ALLGROUP` loops (and the explicit entries) do |
| PushTargets.InsertAllIsDedup | gsuid_core/web_app.py:416-456 | a dict built from records has the records' bots, de-duplicated in first-seen order. Each bot's list is that bot's ids, de-duplicated in first-seen order |
| PushTargets.InsertAllValid | gsuid_core/web_app.py:416-456 | every such dict has each bot once, a non-empty list per bot, and no recipient twice on a bot |
| PushTargets.InsertAllMembers | gsuid_core/web_app.py:416-456 | the dict holds `u` under bot `b` exactly when the record (b, u) was supplied |
| PushTargets.InsertAllAppend | gsuid_core/web_app.py:416-456 | inserting `a` then `b` equals inserting `a + b`, so the wildcard rows and the explicit entries fill one dict |
| PushTargets.ClassifyKinds | gsuid_core/web_app.py:438-456 | an entry is skipped exactly when it has no bar character. It raises IndexError exactly when the part before its first bar has no `:` |
| PushTargets.TargetKinds | gsuid_core/web_app.py:442-456 | the target before the bar is never skipped, and is malformed exactly when it has no `:` |
| PushTargets.ClassifyGroup | gsuid_core/web_app.py:441-449 | `g:ID` followed by a bar and `BOT` adds ID to `group_sends[BOT]` |
| PushTargets.ClassifyUser | gsuid_core/web_app.py:441-456 | `KIND:ID` followed by a bar and `BOT`, with any kind other than `g` adds ID to `user_sends[BOT]` |
| PushTargets.Classify | gsuid_core/web_app.py:439-442 | an entry without a bar character is skipped; otherwise its first two bar-separated fields are the target and the bot |
| PushTargets.ClassifyTarget | gsuid_core/web_app.py:443-456 | a `g:` target names a group, any other target a user; the id is the second `:`-field, whose absence raises IndexError |
| PushTargets.RemoveFirst | gsuid_core/web_app.py:425 | `list.remove(x)` drops the first occurrence of `x` and nothing else: the result is the list before it followed by the list after it |
| PushTargets.RemoveWildcardKeepsRecs | gsuid_core/web_app.py:425-440 | removing the first copy of a wildcard changes neither the explicit records nor whether the entries are well formed, because any further copy has no bar character and is skipped |
| PushTargets.WildcardsRemoved | gsuid_core/web_app.py:415-436 | after both removals `ALLGROUP` is still found when it was posted, and the explicit records are unchanged |
| PushTargets.EntriesLoop | gsuid_core/web_app.py:438-456 | the entries in order: a skipped one changes nothing, a malformed one raises IndexError, the others insert into their dict |
| PushTargets.EntriesLoopSpec | gsuid_core/web_app.py:438-456 | the entry loop raises IndexError exactly on a malformed entry. Otherwise it inserts the explicit group and user records into the two dicts, in order |
| PushTargets.Resolve | gsuid_core/web_app.py:411-456 | split the spec, expand `ALLUSER` then `ALLGROUP` from the stored rows (each removed once), then walk the remaining entries |
| PushTargets.ResolveSpec | gsuid_core/web_app.py:411-456 | resolution fails exactly when an entry is malformed. Otherwise each dict is built from the wildcard rows, when that wildcard is posted, followed by the explicit entries |
| PushTargets.ResolvedValid | gsuid_core/web_app.py:411-456 | both resolved dicts are duplicate-free, with non-empty lists, and with each bot once |
| PushTargets.SendMap.Add | gsuid_core/web_app.py:419-424 | one `if bot not in m ... append` step updates the dict as Insert does |
| PushTargets.SendMap.AddAll | gsuid_core/web_app.py:416-435 | the wildcard loop inserts every row, in order |
| PushTargets.ResolveTargets | gsuid_core/web_app.py:411-456 | the in-place construction computes exactly Resolve |
| PushTargets.WalkEntries | gsuid_core/web_app.py:438-456 | the loop over the remaining entries computes exactly the entry loop from the dicts as they stand, and on success returns the two dicts as it leaves them |
| PushDispatch.UuidJobs | gsuid_core/web_app.py:465-475 | one send per recipient of a bot, in list order |
| PushDispatch.MapJobs | gsuid_core/web_app.py:464-465 | the sends for one dict: bot by bot in key order, each bot's recipients in list order |
| PushDispatch.BotJobs | gsuid_core/web_app.py:462-465 | the sends through one bot: the whole group dict, then the whole user dict |
| PushDispatch.AllJobs | gsuid_core/web_app.py:459-465 | the sends in dispatch order: active bots in order, skipping those not in `push_bot`, groups before users |
| PushDispatch.Step | gsuid_core/web_app.py:466-475 | one send: a group send first appends its group segment, then the list as it stands is logged |
| PushDispatch.RunJobs | gsuid_core/web_app.py:458-475 | the sends one after the other from a starting log and message |
| PushDispatch.RunJobsIsSends | gsuid_core/web_app.py:458-475 | after any run of sends, the log is the sends with their message snapshots, and the message is the start plus one group segment per group send |
| PushDispatch.SendsMessage | gsuid_core/web_app.py:466-469 | send `k` carries the starting message plus the group segments of sends `0..k` |
| PushDispatch.SendsPrefix | gsuid_core/web_app.py:466-469 | the message is never shortened: each send's message is a prefix of every later one and of the final list |
| PushDispatch.MessageGrowth | gsuid_core/web_app.py:466-469 | each send's message is the previous one plus exactly one group segment for a group send, or nothing more for a direct send. The final list is the last send's message |
| PushDispatch.AllJobsMembers | gsuid_core/web_app.py:459-475 | a send is made exactly through an active bot that is in `push_bot`, to a recipient of the matching dict |
| PushDispatch.GroupsFirst | gsuid_core/web_app.py:458-475 | through any one bot, every group send comes before every direct send |
| PushDispatch.Pusher.SendOne | gsuid_core/web_app.py:466-475 | one send: a group send first appends its group segment, then the message as it stands is logged |
| PushDispatch.Pusher.SendList | gsuid_core/web_app.py:465-475 | the recipient loop performs the sends of UuidJobs in order |
| PushDispatch.Pusher.SendMap | gsuid_core/web_app.py:464-475 | the loop over one dict performs its sends bot by bot |
| PushDispatch.Pusher.SendThrough | gsuid_core/web_app.py:462-475 | for one bot, the group dict and then the user dict |
| PushDispatch.Pusher.Dispatch | gsuid_core/web_app.py:458-475 | the whole dispatch loop performs AllJobs in order |
| PushDispatch.BatchPush | gsuid_core/web_app.py:391-477 | the handler builds the message, resolves the targets and dispatches, or returns the first error |
| PushDispatch.BatchPushResult | gsuid_core/web_app.py:391-477 | build the message, resolve the targets, then run every send, or the first exception |
| PushDispatch.BatchPushErrors | gsuid_core/web_app.py:391-456 | the handler fails exactly on a bad image (the first one's error) or on a malformed target (IndexError), before any send |
| PushDispatch.DispatchOnlyAllowed | gsuid_core/web_app.py:459-461 | every send goes through an active bot that is also in `push_bot` |
| PushDispatch.DispatchCoverage | gsuid_core/web_app.py:458-475 | a (bot, kind, bot id, recipient) send happens exactly when the bot is active and allowed and the recipient is in the matching dict |
| PushDispatch.DispatchGroupsFirst | gsuid_core/web_app.py:458-475 | in the log, through one bot, no direct send precedes a group send |
| PushDispatch.BatchPushRouting | gsuid_core/web_app.py:411-475 | a successful push sends only through allowed active bots, and group sends come first per bot |
| PushDispatch.BatchPushCoverage | gsuid_core/web_app.py:411-475 | a successful push reaches (b, u) of a kind exactly when an allowed active bot sends, and (b, u) is a wildcard row or an explicit entry of that kind |
| PushDispatch.BatchPushMessages | gsuid_core/web_app.py:395-475 | a successful push's messages grow from the built message by one group segment per group send, and the final list is the last message sent |
| ServiceForms.ListField | gsuid_core/web_app.py:156-162 | a posted list is empty exactly when the string is empty, and no element holds a comma |
| ServiceForms.ListFieldJoin | gsuid_core/web_app.py:156-162 | joining the elements of any posted list string with `,` gives back the string; "" is stored as the empty list and comes back as "" |
| ServiceForms.ListFieldOfJoin | gsuid_core/web_app.py:156-162 | a list of comma-free names posted as their `,`-join comes back unchanged |
| ServiceForms.ApplyStep | gsuid_core/web_app.py:153-162 | one rewriting step adds no key and changes no key but its own |
| ServiceForms.StepOutcome | gsuid_core/web_app.py:153-162 | `int(data[key])` raises KeyError on a missing key and otherwise what `int()` raises, else stores the int. `.split(',')` raises KeyError on a missing key (the prefix split skips one) and AttributeError on a non-string, else stores the pieces. The empty check never raises and turns only `[""]` into `[]` |
| ServiceForms.RunSteps | gsuid_core/web_app.py:150-183 | the handler's steps in order, stopping at the first exception with the form as it then stands |
| ServiceForms.ServiceSteps | gsuid_core/web_app.py:153-162 | setSV's steps: pm and priority to int, both lists split, then each list's empty check |
| ServiceForms.PluginSteps | gsuid_core/web_app.py:171-182 | setPlugins' steps: the same, with the optional prefix split after the two ints |
| ServiceForms.ServiceRewrite | gsuid_core/web_app.py:150-163 | setSV succeeds exactly when pm and priority are integers and both lists are strings. It then stores pm and priority as ints and the lists through ListField. It changes no other key |
| ServiceForms.ServiceErrorOrder | gsuid_core/web_app.py:153-157 | a missing pm is reported before priority, and a non-string black list after both ints |
| ServiceForms.ListsTail | gsuid_core/web_app.py:156-162 | the split and empty checks succeed exactly when both lists are strings, and leave them as ListField reads them |
| ServiceForms.PrefixTail | gsuid_core/web_app.py:173-182 | a present prefix must be a string and is split on `,` with no empty check, before the lists |
| ServiceForms.PluginRewrite | gsuid_core/web_app.py:168-183 | setPlugins behaves as setSV and also splits a present prefix, so `""` becomes `[""]`. It touches no other key |
| ServiceForms.IntSteps | gsuid_core/web_app.py:153-154 | the pm then priority conversions: the first to fail stops the run, and otherwise both are ints |
| ServiceForms.Form.Perform | gsuid_core/web_app.py:153-162 | one in-place step: the form becomes the step's result, or stays as it was with the exception reported |
| ServiceForms.Form.Run | gsuid_core/web_app.py:153-182 | the in-place rewrite runs the steps until the first exception |
| ServiceForms.Form.SetService | gsuid_core/web_app.py:150-163 | an unregistered name leaves the form untouched. Otherwise the form is rewritten as RunSteps on setSV's steps |
| ServiceForms.Form.SetPlugin | gsuid_core/web_app.py:168-183 | the same for setPlugins' steps |
| ConfigWriters.ListStrValue | gsuid_core/web_app.py:194-196 | a list-of-strings config yields at least one element, and no element holds `,`, `:` or `：` |
| ConfigWriters.ListStrValueExample | gsuid_core/web_app.py:194-196 | `"a：b:c"` becomes `["a", "b", "c"]` |
| ConfigWriters.ListStrValueJoin | gsuid_core/web_app.py:194-196 | joining the elements with `,` gives the text with both colons turned into commas |
| ConfigWriters.GsConfigValue | gsuid_core/web_app.py:190-200 | a name the config set lacks raises KeyError. A list config needs posted text (AttributeError otherwise) and stores its ListStrValue pieces. An image config ignores the posted value and stores its default. Any other config stores the posted value unchanged |
| ConfigWriters.GsConfigWrites | gsuid_core/web_app.py:187-201 | the loop over the posted pairs: `params` skipped, each other pair written with its coerced value, stopping at the first exception |
| ConfigWriters.GsConfigSucceeds | gsuid_core/web_app.py:187-201 | setGsConfig raises nothing exactly when every posted key other than `params` names an entry of a known config set that accepts its value |
| ConfigWriters.GsConfigWritesSound | gsuid_core/web_app.py:189-201 | every write names a posted key other than `params` with its coerced value. On success every such key is written |
| ConfigWriters.GsConfigUnknownSet | gsuid_core/web_app.py:189-202 | an unknown config set writes nothing. It fails with KeyError exactly when a key other than `params` was posted |
| ConfigWriters.SetGsConfig | gsuid_core/web_app.py:189-202 | the loop makes exactly the writes of GsConfigWrites |
| ConfigWriters.CoreValue | gsuid_core/web_app.py:209-214 | a key whose default is a list, and `log_output`, is split on `,`: it needs posted text and raises AttributeError otherwise. Every other key keeps its posted value and never raises |
| ConfigWriters.LevelKeySplit | gsuid_core/web_app.py:216-218 | `log_level` splits into `log` and `level` |
| ConfigWriters.OutputKeySplit | gsuid_core/web_app.py:216-218 | `log_output` splits into `log` and `output` |
| ConfigWriters.LogStepResult | gsuid_core/web_app.py:216-222 | a log key sets `result['log'][sub]`, creating `result['log']` on first use |
| ConfigWriters.CoreStep | gsuid_core/web_app.py:209-223 | one posted pair: coerced, then written directly, or gathered into `result` when it is a log key |
| ConfigWriters.CoreLoop | gsuid_core/web_app.py:208-225 | the pairs in posted order; on an exception the writes made so far are kept, otherwise the gathered objects follow |
| ConfigWriters.Flush | gsuid_core/web_app.py:227-228 | each gathered `result` object is written under its key, in insertion order |
| ConfigWriters.CoreConfigWrites | gsuid_core/web_app.py:208-228 | the writes of setCoreConfig: the loop from an empty `result`, then the flush |
| ConfigWriters.CoreConfigSpec | gsuid_core/web_app.py:208-230 | setCoreConfig succeeds exactly when every value coerces. Its writes are then every non-log key in order, followed by one `log` object holding the log fields when a log key was posted |
| ConfigWriters.PlainWritesNoLogKey | gsuid_core/web_app.py:216-225 | no log key is ever written directly |
| ConfigWriters.GatherLogKey | gsuid_core/web_app.py:216-222 | the in-place `result` update for one log key |
| ConfigWriters.SetCoreConfig | gsuid_core/web_app.py:208-230 | the loop and the flush make exactly the writes of CoreConfigWrites |
| Analytics.DataAnalysis | gsuid_core/web_app.py:255-316 | an unknown bot id is reported before an unknown self id. Otherwise the x axis is the days in order, and the four line series have one point per day: sent, received, commands, images |
| Analytics.UserGroupAnalysis | gsuid_core/web_app.py:321-364 | the same checks. Otherwise two bar series give each day's number of users and of groups |
| Analytics.Selected | gsuid_core/web_app.py:526-533 | with a name, the named record; otherwise the first day of the week, or IndexError when there is none |
| Analytics.GroupSlices | gsuid_core/web_app.py:536-539 | one group pie slice per group, in order, named after the group and valued at the sum of its counts |
| Analytics.Slices | gsuid_core/web_app.py:546-547 | one command slice per key, in order, named after the key and valued at its total over the counted pairs |
| Analytics.CommandSlices | gsuid_core/web_app.py:540-547 | the command pie: the de-duplicated commands of every user, in first-seen order, each valued at its total |
| Analytics.GroupPieTotal | gsuid_core/web_app.py:536-539 | the group pie totals every group count |
| Analytics.CommandPieTotal | gsuid_core/web_app.py:540-547 | the command pie totals every user count: nothing is lost or counted twice |
| Analytics.TotalOverUsers | gsuid_core/web_app.py:540-544 | a command's slice is its count summed user by user |
| Analytics.CommandPieNames | gsuid_core/web_app.py:540-547 | the command pie names every command some user triggered, once each, in first-seen order |
| Analytics.CommandCounts | gsuid_core/web_app.py:535-544 | the `c_data` loop yields the commands in first-seen order, each with its total |
| Analytics.AddCounts | gsuid_core/web_app.py:541-544 | one user's commands added to `c_data` keep it the count of everything seen so far |
| Analytics.GroupPie | gsuid_core/web_app.py:536-539 | the group pie loop builds GroupSlices |
| Analytics.CommandPie | gsuid_core/web_app.py:546-547 | the command pie loop builds the slices of the counted commands |
| Analytics.LoadData | gsuid_core/web_app.py:520-610 | with no name the first day of the week is read, raising IndexError when there is none. Otherwise the named record is read. The reply is its group pie and command pie |
| UploadNames.UploadName | gsuid_core/web_app.py:105-118 | a requested name is kept before the dot. Without one, an uploaded file gets the timestamp, and otherwise the name is `image.jpg` |
| UploadNames.UploadExtension | gsuid_core/web_app.py:105-118 | the extension is the requested suffix, or `jpg` when none is given or no file was named |
| UploadNames.StampedName | gsuid_core/web_app.py:107-111 | without a requested name, the file is stored as 14 digits of time, one dot, and the uploaded file's extension |
| Clock.ParsePad | gsuid_core/web_app.py:111 | `int()` of a zero-padded field reads back the field |
| Clock.Stamp | gsuid_core/web_app.py:110 | `strftime("%Y%m%d%H%M%S")`: the six fields zero-padded to 4, 2, 2, 2, 2 and 2 digits |
| Clock.DateName | gsuid_core/web_app.py:622 | `strftime("%Y-%m-%d")`: year, month and day zero-padded and joined by `-` |
| Clock.StampShape | gsuid_core/web_app.py:111 | `%Y%m%d%H%M%S` is 14 digits and holds no dot |
| Clock.DateNameFields | gsuid_core/web_app.py:622 | `%Y-%m-%d` splits on `-` into year, month and day, which read back as the date |
| HistoryLogs.LogFile | gsuid_core/web_app.py:621-628 | the file read ends in `.log` and is today's date when none is given |
| HistoryLogs.LogFileNames | gsuid_core/web_app.py:624-628 | asking for `d` or `d.log` reads the same file, and the name is not doubled |
| HistoryLogs.Paginate | gsuid_core/web_app.py:629-642 | `count` is always the number of entries. With page or perPage 0, every entry is returned. With page and perPage both positive, at most perPage entries are returned |
| HistoryLogs.PageSlice | gsuid_core/web_app.py:630-633 | page `p` is the contiguous run from `(p-1)*perPage`, cut short at the end |
| HistoryLogs.PagesCover | gsuid_core/web_app.py:630-633 | pages 1 to k, one after the other, are the first `k*perPage` entries: none skipped or repeated |
| HistoryLogs.PagesEnd | gsuid_core/web_app.py:630-633 | pages past the end are empty |
| PyValues.PyInt | gsuid_core/web_app.py:153-154 | `int()` of an int is itself, of a bool 0 or 1, and of a float its truncation toward zero. Of a string it succeeds exactly when the string is a decimal integer, else ValueError. Of any other value it raises TypeError |
| PyValues.PyIntOfFloats | gsuid_core/web_app.py:153-154 | `int(3.0) == 3`, `int(2.5) == 2` and `int(-2.5) == -2` |
| PyStr.SplitJoin | gsuid_core/web_app.py:156-157 | splitting the `c`-join of `c`-free pieces gives back the pieces |
| PyStr.JoinSplit | gsuid_core/web_app.py:156-157 | joining the pieces of `s.split(c)` with `c` gives back `s` |
| PyStr.ReplaceRemoves | gsuid_core/web_app.py:195 | after `replace(a, b)` no `a` is left, when `a != b` |
| PyStr.ParseIntToStr | gsuid_core/web_app.py:153-154 | `int(str(i)) == i` |

## Left out

- Startup and shutdown hooks, task creation and `asyncio.gather` (lines
  54-88) are left out. They are concurrency and orchestration.
- Authentication decorators and FastAPI routing are left out.
- File I/O is left out:
  - writing the uploaded file and creating its directory;
  - reading images and PIL re-encoding;
  - the delayed delete task (lines 120-145, 480-509).
  The upload model stops at the file name.
- The server-sent log stream and the log-file parser (`read_log`,
  `HistoryLogData`) are not modelled. The parsed entries are an input
  sequence of `HistoryLogs.Paginate`.
- Plugin listing, install and update (lines 233-250, 367-386) are left out.
  They are network and git calls behind library functions.
- The `core_backup` plugin is left out. It only registers cron jobs that call
  routines not part of this model.
- BeautifulSoup parsing is not modelled. The serialised `<p>` tags and the
  `img` attribute values (`None` when absent) are inputs of
  `PushDispatch.BatchPush`.
- Missing keys in the BatchPush body (`push_text`, `push_tag`, `push_bot`)
  are not modelled. These fields are parameters, so the KeyError they would
  raise is not modelled.
- The ORM queries `get_all_user` and `get_all_group` are inputs: their rows,
  in order. So are the analytics store's day map, the registry of known bots,
  the named record of `get_history_data`, and the ordered ids of
  `gss.active_bot`.
- `target_send` never fails in the model. An exception raised by a bot would
  end the real loop early.
- PushDispatch.Send: each send records the message list as it stands at the
  call. The handler passes one shared list object, so a receiver that kept
  the reference would later see the appended group segments.
- `sv.set`, `plugin.set` and `set_config` are not modelled. The model's output
  is the rewritten form (`ServiceForms.Form`) or the sequence of writes
  (`ConfigWriters`).
- Chart styling constants (titles, tooltips, radii, label formats; lines
  286-313, 344-361, 549-603) are left out. They are fixed data.
- PyValues.PyInt: a JSON float is a real number in the model, so the
  `Infinity` and `NaN` that Python's JSON reader also accepts are not
  represented. `int()` raises OverflowError or ValueError on them.
- PyStr.ParseInt: Python's `int()` also accepts surrounding whitespace,
  underscores between digits and non-ASCII digits. The model accepts an
  optional sign followed by ASCII digits only.
- The clock is a parameter (`Clock.DateTime`). `strftime("%Y")` is modelled
  with a fixed 4-digit, zero-padded year. The padding of years below 1000
  differs between C libraries (glibc prints them unpadded), so for such years
  the model fixes one choice.
- Analytics.DayStats has a fixed shape. A day record that lacks `send`,
  `receive`, `command`, `image`, `group` or `user` would raise KeyError in
  the handler; the model does not cover that case.
- A target entry is malformed when the part before its first `|` has no `:`.
  The code splits that part on `:`, so a `:` after the `|` does not help.
