# Asphalt tank monitor: a verified model of its core

The monitor receives tank telemetry over MQTT and keeps it in two places.

- **The live tank table** (`app.py`). This is a fixed set of tanks with ids `1..MAX_TANKS`, mutated in place:
  - telemetry messages update readings and high limits;
  - an edge-triggered high-level latch raises an alarm on the rising edge only;
  - adjustment messages set each tank's error value by list position;
  - the error endpoint clamps a requested error to the tank's height and publishes every tank's error value.
- **The data manager** (`data_manager.py`). It keeps:
  - the latest standardised record of every tank, keyed by a tank-id string taken from the topic or the message;
  - a bounded, time-swept history per tank;
  - the newest 100 alerts;
  - normal/warning/alert classification against configurable thresholds.

A third part is **the MQTT client wrapper** (`mqtt/client.py`). It validates connection parameters and keeps the list of desired subscriptions across reconnects: unique topics, replaced in place. It re-issues those subscriptions when a connection comes up, and it tracks the network-loop flags and the reconnect delay.

The project has four modules:

- `Json.dfy`: decoded JSON values, and the Python conversions the ingestion code applies to them (`float()`, `int()`, `str()` of an integer, `isdigit()`).
- `Tanks.dfy`: the live tank table. It holds pure specification functions (field merge, latch, positional and by-id batches, adjustments, error clamp) and the class `TankTable`. Its methods mutate a `map<int, Tank>` and append to a ghost event log standing in for the pushes to browser clients. Each method is proved equal to its specification function.
- `Store.dfy`: the data manager.
  - It holds the pure parts: tank-id extraction, field aliases, classification, window queries, a stable newest-first alert sort, and the retention sweep.
  - It holds the class `DataManager`. Its fields are the record map, the key insertion order, the history map, the alert list and the configuration. A ghost log keeps every alert ever raised.
  - Methods with loops (`set_thresholds`, `_cleanup_expired_data`, `set_max_history_points`, `get_alerts`) keep their loops and are proved against specification functions.
- `Mqtt.dfy`: the class `MqttClient`.
  - The broker is not modelled. What it answers to a call is a parameter of the operation that makes the call.
  - Every call the wrapper makes on the paho client is appended to a ghost wire log.

Timestamps are whole seconds. The current time is a parameter, read once per operation. The source compares ISO-8601 strings; for timestamps of one fixed format this is the same as comparing the instants.

Where the code and its design notes disagree, the model follows the code. For example, in a positional telemetry list a non-object element raises inside the loop of `update_tank_data`. The exception aborts the rest of the batch and the table push that follows; it is not a per-element skip.

Nested use of the data manager's non-reentrant lock is modelled as its evidently intended sequential effect. `update_tank_data` sweeping its tank, `set_storage_days` sweeping all tanks, and `set_max_history_points` all take the lock again while holding it.

## Model

| member | source | states |
|---|---|---|
| Json.ToFloat | app.py:280-295 | `float()` of a JSON int or float is its value, of a bool 1.0 or 0.0; null, list and object raise; a string is read by ParseDecimal |
| Json.ToInt | app.py:274 | `int()` of a JSON int is itself, of a bool 1 or 0; null, list and object raise; a float is truncated toward zero, a string is read by ParseInteger |
| Json.ParseIntegerValue | app.py:274 | `int()` of a digit string is its decimal value, negated under a leading '-' |
| Json.ParseInteger | app.py:274 | `int(s)` succeeds exactly when s is an optional sign followed by one or more digits |
| Json.ParseDecimal | data_manager.py:203-222 | `float(s)` succeeds exactly when s is an optional sign followed by digits with at most one '.' and at least one digit |
| Json.DecimalSplit | data_manager.py:203-222 | cutting the text at its first '.' gives two digit runs, not both empty, exactly when it is digits with at most one '.' and at least one digit |
| Json.ParseDecimalDigits | data_manager.py:203-222 | `float()` of a plain digit string is its decimal value |
| Json.ParseDecimalPoint | data_manager.py:203-222 | `float()` of digits, a point and digits is the whole part plus the fraction digits over 10 to the power of their count |
| Json.ParseDecimalNegative | data_manager.py:203-222 | under a leading '-', `float()` yields the negation of that value |
| Json.Truncate | app.py:274 | `int()` of a float rounds toward zero, within one of the value, for either sign |
| Json.NatToString | data_manager.py:167-169 | `str(n)` is a non-empty digit string with no leading zero |
| Json.NatToStringRoundTrip | data_manager.py:167-169 | reading back the rendering of n gives n |
| Json.IntOfRenderedId | app.py:274 | `int(str(n))` of a rendered id is n |
| Json.IndexOf | data_manager.py:204 | the index found is within the string, and holds the character whenever it is not the end |
| Json.IndexOfFirst | data_manager.py:204 | no earlier position holds the character, so the index is that of its first occurrence, or the length when there is none |
| Tanks.InitializeTanks | app.py:69-84 | the table holds exactly ids 1..MAX_TANKS, each with zero readings and error, no alarm shown, and high limit = height × threshold share |
| Tanks.TankTable.constructor | app.py:69-87 | a fresh table is the initial table with an empty event log |
| Tanks.ReadFloat | app.py:279-297 | a field is absent exactly when its key is missing, and a value exactly when `float()` of it succeeds |
| Tanks.SetField | app.py:280-297 | assigning one reading changes only readings and the high limit of that tank |
| Tanks.Assign | app.py:279-297 | a guarded assignment changes nothing once a coercion has failed, and the merge stays complete exactly while no coercion fails |
| Tanks.MergeFields | app.py:279-297 | the merge changes only readings and the high limit, never identity, height, latch or error; it completes exactly when no present field fails `float()`, and then temperature, level and weight hold `float()` of the message's value where present and their old value where absent |
| Tanks.HighLimitRead | app.py:290-297 | the limit is absent exactly when neither `high_limit` nor `levelHighLimit` is present, and a value read comes from `high_limit` when present, else from `levelHighLimit` |
| Tanks.HighLimitPrecedence | app.py:290-297 | the high limit comes from `high_limit` if present, else from `levelHighLimit`, else stays unchanged |
| Tanks.MergeKeepsEarlierAssignments | app.py:279-305 | for every failure point: the merge completes exactly when no read fails, every field before the first failing one that the message carries holds its new value, and every other field keeps its old value |
| Tanks.Latch | app.py:307-320 | afterwards `alarm_shown == (level > high_limit)`; an alarm event is emitted only on the false-to-true transition |
| Tanks.TargetId | app.py:274 | a tank id is found only in an object |
| Tanks.UpdateOne | app.py:277-301 | one tank's update keeps its id, name, height and error, and emits at most one event |
| Tanks.ProcessTank | app.py:269-305 | only the addressed tank changes; an unreadable or unknown id changes nothing and emits nothing |
| Tanks.ProcessTankLatches | app.py:279-300 | after a message whose coercions all succeed, the latch equals `level > high_limit` of the merged tank |
| Tanks.AlarmOnRisingEdgeOnly | app.py:307-320 | an alarm is emitted exactly when the latch was off and the merged level exceeds the high limit |
| Tanks.Positional | app.py:245-254 | a positional batch never changes which tanks exist |
| Tanks.PositionalKeepsIdentity | app.py:245-254 | a positional batch never changes any tank's id, name, height or error value |
| Tanks.PositionalUnfold | app.py:248-254 | one step of the positional loop is element i applied to tank i+1, or the end of the batch |
| Tanks.PositionalIgnoresTail | app.py:250 | elements at index MAX_TANKS and beyond never matter |
| Tanks.PositionalSkipsAll | app.py:250 | past the last table position nothing is processed |
| Tanks.PositionalUntouched | app.py:248-254 | tanks outside the positions a batch covers are left as they were |
| Tanks.PositionalUpdatesByIndex | app.py:248-254 | in a batch that did not abort, every tank `id` in the covered positions is what element `id`−1, with its `id` overwritten, makes of it |
| Tanks.PositionalStopsAtNonObject | app.py:251-266 | a non-object element inside the table's positions aborts the batch, and no later element is applied |
| Tanks.ById | app.py:258-259 | a list of self-identified tanks never changes which tanks exist |
| Tanks.ByIdKeepsIdentity | app.py:258-259 | a list of self-identified tanks never changes any tank's id, name, height or error value |
| Tanks.ByIdUnfold | app.py:258-259 | one step of the by-id loop is ProcessTank of that element |
| Tanks.ByIdAppend | app.py:258-259 | processing a list by id is processing its two halves one after the other |
| Tanks.ByIdSkipsBadElement | app.py:274-305 | an element whose id cannot be read, or names no tank, does not disturb its siblings |
| Tanks.UpdateSpec | app.py:225-267 | `update_tank_data` never changes which tanks exist, whatever the payload's shape |
| Tanks.IsPositional | app.py:245 | a list taken as positional starts with an object whose own `id` would address no tank (it defaults to 0) |
| Tanks.UpdateSpecKeepsIdentity | app.py:225-267 | whatever the payload's shape (`{"tanks": X}` unwrapped recursively, single object, positional list, by-id list), `update_tank_data` never changes which tanks exist or any tank's id, name, height or error value |
| Tanks.UpdatePushesTable | app.py:261-262 | the table is pushed to clients after every update that did not abort |
| Tanks.Iterated | app.py:198-212 | `len()` and `enumerate()` succeed exactly on lists, strings and dicts; a list yields its elements, a string one item per character, a dict one per key |
| Tanks.AdjustmentFactor | app.py:207 | only an object yields a factor, and one without `adjustmentFactor` yields 0 |
| Tanks.AdjustItems | app.py:203-212 | an adjustments list never changes which tanks exist |
| Tanks.AdjustItemsOnlyErrors | app.py:203-212 | an adjustments list changes at most the `error` values |
| Tanks.AdjustSetsByIndex | app.py:203-212 | a completed adjustments list sets tank i+1's error to factor i (default 0) and leaves every other tank as it was |
| Tanks.AdjustSkipsAll | app.py:206 | past the last table position the adjustments list changes nothing |
| Tanks.AdjustSpec | app.py:191-223 | only an object with key `adjustments` is acted on; anything else changes nothing and emits nothing |
| Tanks.AdjustSpecOnlyErrors | app.py:191-223 | `update_tank_adjustments` changes at most the `error` values |
| Tanks.ClampError | app.py:613-617 | the stored error is the request pulled into [-height, height] |
| Tanks.AdjustSameErrors | app.py:203-212 | adjustment entries that repeat the table's own error values change nothing |
| Tanks.AdjustmentsMessage | app.py:625-632 | the published body has the single key `adjustments`, a list of MAX_TANKS entries, and entry i reads back as the error of tank i+1, 0 where the tank is missing |
| Tanks.PublishedAdjustmentsRoundTrip | app.py:626-633 | the adjustments message the error endpoint publishes, when received back, leaves the table as it was and only pushes it again |
| Tanks.OnMessageSpec | app.py:162-184 | a message on another topic changes nothing and is only echoed |
| Tanks.OnMessageKeepsTanks | app.py:162-184 | a message on any topic either keeps every tank's id, name, height and error value, or changes at most the error values |
| Tanks.TankTable.CheckAlarm | app.py:307-320 | the table and event log after `check_alarm` are those of Latch; an unknown id changes nothing |
| Tanks.TankTable.SetReading | app.py:279-297 | one guarded assignment stores the coerced value and reports whether the coercion succeeded |
| Tanks.TankTable.MergeReadings | app.py:279-297 | the four assignments in source order leave the tank as MergeFields says |
| Tanks.TankTable.ProcessTankData | app.py:269-305 | the table and events after `process_tank_data` are those of ProcessTank, and tanks keep their ids |
| Tanks.TankTable.UpdateTankData | app.py:225-267 | the table and events after `update_tank_data` are those of UpdateSpec |
| Tanks.TankTable.ProcessPositional | app.py:245-254 | the positional loop yields Positional's table, events and abort flag |
| Tanks.TankTable.ProcessEach | app.py:255-259 | the by-id loop yields ById's table and events |
| Tanks.TankTable.UpdateTankAdjustments | app.py:191-223 | the table and events after `update_tank_adjustments` are those of AdjustSpec |
| Tanks.TankTable.UpdateTankError | app.py:600-645 | the status code and table for `update_tank_error`: 500 when the body's error is unreadable, 404 for an unknown id with no change, otherwise the clamped error stored and, when online, the full adjustments message published |
| Tanks.TankTable.AdjustmentsToPublish | app.py:626-631 | the published body lists `adjustmentFactor` for tanks 1..MAX_TANKS in id order, 0.0 where a tank is missing |
| Tanks.TankTable.OnMqttMessage | app.py:145-189 | an undecodable payload changes nothing; otherwise the effect is OnMessageSpec's |
| Store.Filter | data_manager.py:372 | a comprehension filter never lengthens its list |
| Store.FilterSound | data_manager.py:372 | everything a filter keeps comes from its input and passes the test |
| Store.FilterKeeps | data_manager.py:372 | every input element that passes the test is kept |
| Store.FilterAppend | data_manager.py:420-425 | filtering distributes over concatenation, so kept elements stay in order |
| Store.FilterIdempotent | data_manager.py:638 | filtering twice with the same test is filtering once |
| Store.FilterSameLength | data_manager.py:641-643 | a filter that drops nothing returns its input, which is why the sweep may skip storing it |
| Store.LastN | data_manager.py:292-293 | the last n elements: a suffix of length min(n, length) |
| Store.LastNAppend | data_manager.py:289-293 | keeping the newest n after each append is keeping the newest n of everything appended |
| Store.TailSlice | data_manager.py:326-327 | Python's `h[-k:]`: the last k for k > 0, everything for k = 0, all but the first -k for k < 0 |
| Store.Split | data_manager.py:160 | `split('/')` yields at least one part |
| Store.SplitNoSeparator | data_manager.py:160 | no part contains '/' |
| Store.SplitJoin | data_manager.py:160 | joining the parts with '/' gives the topic back |
| Store.PyStr | data_manager.py:167-169 | `str()` renders a string as itself and a non-negative int as a digit string; only floats, lists and objects are left unrendered |
| Store.FirstTankSegment | data_manager.py:161-163 | the index found is the first segment that starts with `tank_` or is all digits |
| Store.ExtractTankId | data_manager.py:149-175 | a tank-naming topic segment always yields an id of that form; no id comes back only when the message id chosen cannot be rendered |
| Store.ExtractTankIdFirstSegment | data_manager.py:160-163 | the first topic segment that starts with `tank_` or is all digits is the id, whatever the message carries |
| Store.ExtractTankIdFallback | data_manager.py:166-175 | with no such segment, the id is the message's `tank_id`, else its `id`, else the last topic segment |
| Store.ReadField | data_manager.py:203-222 | a field is missing exactly when its key is absent, raises exactly when `float()` of the present value fails, and otherwise holds that value |
| Store.FirstField | data_manager.py:203-214 | the first alias present decides, even when its value is bad |
| Store.ExtractReadings | data_manager.py:203-222 | the parse aborts exactly when `float()` fails on a key the alias chain actually consults: `temperature` (or `temp` without it), `level` (or `height` without it), `liquid_level` only without both, `pressure`, `error` |
| Store.ReadingsAliases | data_manager.py:203-222 | temperature from `temperature` else `temp`; level from `level` else `height`; `liquid_level` read only when neither is present and never as level; `pressure` and `error` copied exactly when present |
| Store.TemperatureReasons | data_manager.py:241-246 | at most one temperature reason, present exactly when the temperature is outside its band |
| Store.LevelReasons | data_manager.py:248-253 | at most one level reason, present exactly when the level is outside its band |
| Store.Assess | data_manager.py:239-268 | `alert` iff temperature or level is out of band; `warning` iff only the error exceeds its threshold; `normal` iff there are no reasons |
| Store.Checked | data_manager.py:259-268 | the checked record keeps identity, time, readings and raw message, with status and reasons from Assess |
| Store.RaisedBy | data_manager.py:260-265 | a check raises exactly one alert when the status is not normal, none otherwise |
| Store.KeepSince | data_manager.py:638 | the sweep never lengthens a history |
| Store.KeepSinceExact | data_manager.py:638 | the sweep keeps exactly the entries at or after the cutoff, boundary included |
| Store.KeepSinceIdempotent | data_manager.py:638 | a second sweep with the same cutoff removes nothing more |
| Store.Window | data_manager.py:365-383 | a history query never returns more entries than are stored, nor more than a positive limit |
| Store.WindowExact | data_manager.py:371-376 | without a limit, an entry is returned exactly when it is stored and lies within [start, end] |
| Store.WindowLimit | data_manager.py:379-381 | a positive limit keeps the newest `limit` entries of the window, in stored order |
| Store.WindowIsSuffix | data_manager.py:379-381 | every entry a limited window returns is in the unlimited window |
| Store.InsertByTime | data_manager.py:428 | inserting into the sorted list adds one element |
| Store.InsertPermutes | data_manager.py:428 | inserting adds the element and nothing else |
| Store.InsertSorted | data_manager.py:428 | inserting into a newest-first list keeps it newest first |
| Store.SortNewestFirst | data_manager.py:428 | sorting keeps the number of alerts |
| Store.SortSorts | data_manager.py:428 | the sort result is newest first |
| Store.SortPermutes | data_manager.py:428 | the sort result is a permutation of its input |
| Store.NoneNewerThanHead | data_manager.py:428 | nothing in a newest-first list is newer than its head |
| Store.InsertKeepsTies | data_manager.py:428 | alerts sharing a timestamp stay in arrival order when one is inserted |
| Store.SortIsStable | data_manager.py:428 | alerts with equal timestamps keep their relative order, as Python's stable sort keeps them |
| Store.SelectAlerts | data_manager.py:416-430 | the selection is newest first and holds exactly the filtered alerts |
| Store.SelectAlertsExact | data_manager.py:420-425 | an alert is selected exactly when it is at or after the cutoff and, if a tank is named, belongs to it |
| Store.Standardize | data_manager.py:187-231 | parsing raises exactly when a coercion fails; the result is empty exactly when neither temperature nor level is set; a record carries the id, time, extracted readings and raw message |
| Store.Cutoff | data_manager.py:629 | the retention cutoff lies exactly `days` whole days before now: at now for 0 days, at least one day before it for more |
| Store.Sweep | data_manager.py:629-644 | the sweep keeps the same set of tanks |
| Store.SweepIdempotent | data_manager.py:629-644 | a second sweep with the same cutoff changes nothing |
| Store.SweepTouchesOnlyNamed | data_manager.py:633 | a sweep for one named tank leaves every other tank's history as it was |
| Store.SweepKeepsCap | data_manager.py:629-644 | the sweep never lengthens a history, so the history cap still holds |
| Store.HistoryAfterUpdate | data_manager.py:312-330 | an update adds the tank to the history map and keeps every other key |
| Store.FilterKeepsLast | data_manager.py:638 | filtering a list whose last element passes keeps that element last |
| Store.HistoryUpdateCapped | data_manager.py:323-330 | the tank's new history is the swept newest `max_history_points` of the old history plus the entry, and stays within the cap |
| Store.HistoryUpdateEndsWithEntry | data_manager.py:316-330 | the new entry ends the tank's history unless it is already older than the cutoff |
| Store.HistoryUpdateOthers | data_manager.py:309-330 | other tanks' histories are untouched by an update |
| Store.Ingest | data_manager.py:121-141 | a message reaches `update_tank_data` only if it is an object with a non-empty tank id and a parsed reading |
| Store.NonObjectIgnored | data_manager.py:121-147 | valid JSON that is not an object never updates anything |
| Store.ObjectWithReadingIngested | data_manager.py:128-141 | an object with a tank id and a usable temperature or level always gets through |
| Store.Overridden | data_manager.py:518-527 | each given threshold replaces its old value; each absent one is kept, threshold by threshold |
| Store.RaisedAll | data_manager.py:530-531 | a re-check of all records raises no more alerts than there are records |
| Store.RaisedAllSnoc | data_manager.py:530-531 | re-checking one more record appends that record's alerts |
| Store.RaisedAllCount | data_manager.py:530-531 | the re-check raises one alert per record out of the normal state and none for the normal ones |
| Store.SweptOnlyStep | data_manager.py:635-643 | one sweep step filters exactly one more tank |
| Store.SweptOnlyAbsent | data_manager.py:636 | naming a tank with no history changes nothing |
| Store.SweptOnlyComplete | data_manager.py:633-643 | once every selected tank is done, the loop's result is the sweep |
| Store.CappedOnlyStep | data_manager.py:710-713 | one cap step cuts exactly one more tank |
| Store.CappedAll | data_manager.py:710-713 | after cutting every tank, every history is within the cap |
| Store.RecheckedOnly | data_manager.py:530-531 | a re-check keeps the same set of tanks |
| Store.RecheckedOnlyStep | data_manager.py:530-531 | one re-check step updates exactly one more record |
| Store.ClampPoints | data_manager.py:699-702 | the cap is pulled into [100, 100000], unchanged inside that range |
| Store.FilterDistinct | data_manager.py:579-582 | removing a tank keeps the insertion order free of repetitions |
| Store.NewInPrefix | data_manager.py:530 | in an insertion order no key occurs before its own position |
| Store.DataManager.constructor | data_manager.py:23-64 | a fresh manager has no records, histories or alerts, the default thresholds and the given configuration |
| Store.DataManager.AddAlert | data_manager.py:270-293 | the kept alerts are the newest 100 of all alerts ever raised, the new one last |
| Store.DataManager.CheckAlerts | data_manager.py:233-268 | the returned record is Checked under the current thresholds, and exactly its RaisedBy alerts are appended |
| Store.DataManager.ParseTankData | data_manager.py:177-231 | the outcome is Standardize's, with a parsed record checked and its alerts raised |
| Store.DataManager.SweepTank | data_manager.py:636-643 | one tank's history is filtered and the others are untouched |
| Store.DataManager.CleanupExpired | data_manager.py:613-646 | the history map becomes Sweep of the old one with cutoff now − storage days |
| Store.DataManager.UpdateTankData | data_manager.py:297-335 | the tank's record is replaced, a new tank joins the insertion order, and the history map becomes HistoryAfterUpdate |
| Store.DataManager.ProcessMqttMessage | data_manager.py:111-147 | nothing changes exactly when Ingest rejects the message; otherwise the checked record is stored with its alerts and history entry, and a new tank id is appended to the insertion order |
| Store.DataManager.SetThresholds | data_manager.py:501-540 | thresholds become Overridden; every record is re-checked in insertion order, raising exactly RaisedAll |
| Store.DataManager.RecheckStored | data_manager.py:530-531 | every stored record is re-checked in insertion order, raising exactly RaisedAll, and the keys stay matched with the order |
| Store.DataManager.RecheckAll | data_manager.py:530-531 | the loop over distinct stored keys yields RecheckedOnly of those keys and appends exactly their RaisedAll |
| Store.DataManager.RecheckOne | data_manager.py:531 | one loop step: the next key's record is re-checked in place and its RaisedBy alerts appended |
| Store.DataManager.ClearHistory | data_manager.py:542-566 | a named tank's history is emptied if present; without a name every history is dropped |
| Store.DataManager.RemoveTank | data_manager.py:568-590 | the tank's record, order entry and history are gone, and everything else is kept |
| Store.DataManager.SetStorageDays | data_manager.py:648-671 | a positive value is stored, returned and swept with at once; otherwise nothing changes and the old value is returned |
| Store.DataManager.SetMaxHistoryPoints | data_manager.py:689-718 | the cap is ClampPoints of the request, and every history is cut to its newest that many entries |
| Store.DataManager.CapTank | data_manager.py:711-713 | one tank's history is cut to its newest n entries |
| Store.DataManager.GetTankData | data_manager.py:337-350 | a named tank yields its stored record, or nothing when it is unknown; without a name, the whole map of records |
| Store.DataManager.GetTankHistory | data_manager.py:352-383 | an unknown tank yields []; otherwise stored entries, no more than are stored |
| Store.DataManager.GetAlerts | data_manager.py:406-430 | the loop's result is SelectAlerts of the stored alerts |
| Mqtt.ToWire | mqtt/client.py:487-493 | a str or bytes payload goes out as given, a dict as `json.dumps`, anything else as `str()` |
| Mqtt.Topics | mqtt/client.py:592 | the status lists every subscription's topic, in order |
| Mqtt.FindTopic | mqtt/client.py:411-415 | the index found is that of the first entry for the topic |
| Mqtt.Without | mqtt/client.py:449-456 | the comprehension never lengthens the list |
| Mqtt.Upsert | mqtt/client.py:411-422 | subscribing grows the list by at most one entry and the new entry is in it |
| Mqtt.UpsertEffect | mqtt/client.py:410-422 | replace-or-append keeps topics unique, makes the new entry the only one for its topic, leaves other entries where they were, and grows the list only for a new topic |
| Mqtt.WithoutExact | mqtt/client.py:449-456 | the filtered list holds exactly the entries for other topics |
| Mqtt.WithoutIdempotent | mqtt/client.py:449-456 | unsubscribing twice is unsubscribing once |
| Mqtt.WithoutKeepsUnique | mqtt/client.py:449-456 | removing a topic keeps the topics unique |
| Mqtt.WithoutIgnoresReplaced | mqtt/client.py:413-456 | a replaced entry for the topic being removed leaves no trace |
| Mqtt.SubscribeThenUnsubscribe | mqtt/client.py:410-456 | unsubscribing after a subscribe leaves the list as unsubscribing alone would |
| Mqtt.Resubscriptions | mqtt/client.py:248-250 | one subscribe call per recorded entry |
| Mqtt.ResubscriptionsInOrder | mqtt/client.py:248-250 | call i re-subscribes entry i's topic with entry i's qos |
| Mqtt.MqttClient.constructor | mqtt/client.py:19-103 | a fresh client is disconnected, with no subscriptions, no loop and the initial reconnect delay |
| Mqtt.MqttClient.StartLoop | mqtt/client.py:512-555 | no client: false; already running: true with no change; `thread`: running unless loop start raised; `forever`: true, stopped once it returns; other types: false with no change |
| Mqtt.MqttClient.StopLoop | mqtt/client.py:557-577 | no client: false; not running: true with no change; otherwise stopped, or unchanged if the stop raised |
| Mqtt.MqttClient.Connect | mqtt/client.py:276-371 | already connected: true with no action; no client: re-initialise and false; empty URL or port outside 1..65535: false with no attempt; otherwise one connect call and a thread loop start, true unless the connect raised |
| Mqtt.MqttClient.Disconnect | mqtt/client.py:373-386 | only a connected client sends disconnect, and is marked disconnected unless the call raised |
| Mqtt.MqttClient.Subscribe | mqtt/client.py:388-431 | empty topic or offline: false with no change; otherwise one subscribe call, and on success the list becomes Upsert with the broker's mid |
| Mqtt.MqttClient.Unsubscribe | mqtt/client.py:433-464 | empty topic: false; offline: entries dropped at once and true; online: entries dropped only when the broker accepts |
| Mqtt.MqttClient.Publish | mqtt/client.py:466-506 | empty topic or offline: false with nothing sent; otherwise the converted payload is sent once |
| Mqtt.MqttClient.ResubscribeTopics | mqtt/client.py:242-256 | offline nothing is sent; otherwise exactly Resubscriptions of the list, in order |
| Mqtt.MqttClient.OnConnect | mqtt/client.py:162-192 | rc 0: connected, delay reset, and every entry re-subscribed when a client exists, nothing sent without one; otherwise disconnected with nothing sent |
| Mqtt.MqttClient.OnDisconnect | mqtt/client.py:194-197 | any rc marks the client disconnected and keeps the subscription list |
| Mqtt.MqttClient.ResetReconnectDelay | mqtt/client.py:652-655 | the current delay returns to the configured one |
| Mqtt.MqttClient.GetStatus | mqtt/client.py:581-599 | the status lists a topic exactly when some subscription has it, one per subscription |

## Left out

- Flask routes, templates and SocketIO handlers are not part of this model. The pushes to browser clients (`tank_data_update`, `alarm`, `mqtt_message`) are appended to a ghost event log instead.
- The paho network client is not modelled. Its answers are parameters: success or failure, a message id, whether a call raised. Callbacks arrive only as the OnConnect and OnDisconnect methods; user callbacks and `_on_message` logging are not modelled.
- TLS, WebSocket options, credentials and the module-level bootstrap of the client are left out: they configure paho only.
- JSON file persistence (`_load_history_data`, `_save_history_data`, the saved table and error files) is I/O and is left out, including the fire-and-forget save thread.
- Threads and `threading.Lock` are left out. The daily cleanup thread appears only as the sweep it performs.
- The non-reentrant lock taken twice (in `update_tank_data`, `set_storage_days` and `set_max_history_points`) would block at run time. The model gives the sequential effect those calls evidently intend.
- `get_tank_statistics`, `get_overall_status` and `get_all_tanks_summary` compute floating-point statistics and summaries; they are left out.
- Tanks.TankTable.UpdateTankError: `round(error, 3)` is Python float rounding and is not modelled; the request is taken as already rounded, and only the clamp is proved.
- Json.ParseDecimal: `float()` of a string is modelled for an optional sign, digits and at most one point. Exponents, blanks, `_` separators, `inf` and `nan` are treated as failures.
- Json.ParseInteger: `int()` of a string is modelled for an optional sign and ASCII digits. Blanks, `_` separators and non-ASCII digits are treated as failures, and `isdigit()` is restricted to ASCII the same way.
- Store.ExtractTankId: `str()` of a float, list or object id is not rendered. Such an id makes the model treat the message as rejected, where Python would store it under its printed form.
- Python floats are modelled as exact reals. `float()` of a decimal string gives the exact rational rather than the nearest double, so comparisons at the last bits can differ: a level of "90.0000000000000001" against a limit of 90.0 raises the alarm in the model but not in Python. JSON `NaN` and `Infinity` cannot be represented.
- Json.ToFloat: the double range is not modelled. `float()` of an int whose magnitude is at least 2^1024 - 2^970 raises OverflowError in Python, which aborts the merge at app.py:280-295 and drops the message at data_manager.py:203-222; the model converts every int exactly, so such payloads succeed in the model.
- Alert message texts are modelled as the list of reasons they are joined from (Store.Reason), not as formatted strings.
- ISO timestamps are whole seconds, and `datetime.now()` is a parameter. `start_time`/`end_time` of `get_tank_history` are optional integers, so an empty string, which Python treats as absent, is not separately modelled.
- Mqtt.MqttClient.StartLoop: the blocking `loop_forever` is modelled by its effect once it returns; message handling while it runs is not modelled.
- Exponential backoff of the reconnect delay is delegated to paho. The wrapper only resets the delay, which is modelled.
- Logging and the connect-error text table are left out.
- Mqtt.MqttClient.GetStatus: only the fields the model keeps (connection, topics, loop flags, current delay) are reported; the configuration echo is left out.
- `json.dumps` of a dict payload in `publish` is recorded as the dict itself (Mqtt.JsonDump) rather than rendered text. A value that cannot be serialised cannot arise from decoded JSON, so that failure branch is not modelled.
