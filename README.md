# PiFire bridge — a Dafny model

`PiFireBridge` (src/bridge.py) sits between a PiFire smoker controller and a
Qt/QML dashboard. It polls the controller's `/api/current` endpoint, mirrors
the reported state (mode, status, output pins, lid, smoke plus, p-mode,
startup and prime progress, units, grill temperature, set point, timers,
hopper, food probes) in its own attributes and raises a `<field>Changed`
signal for each attribute whose value changed. While history streaming is on,
it emits a synthetic temperature sample at most once per second. It turns
history responses into chart series. It also builds the control requests
behind the dashboard's buttons and resolves the controller's base URL from a
saved server configuration.

The model is split by concern:

| file | module | what it holds |
|---|---|---|
| payload.dfy | `Payload` | decoded JSON values and the Python operations applied to them: `dict.get`, truthiness, `int(float(x))`, `str(x)` |
| text.dfy | `Text` | string helpers used by the source: `strip`, `startswith`, `capitalize`, decimal rendering, and `sorted` on keys (a method proved equal to a sorting specification) |
| signals.dfy | `Signals` | the mirrored state as a `Snapshot` record, the notification `Event`s and `Diff`, the changed fields in the order the reconciler visits them |
| reconcile.dfy | `Reconcile` | `Derive(data, details)`: the value every mirrored field takes after one payload; the notify-list scan and the probe-list construction as methods with loops |
| history.dfy | `History` | normalisation of history responses into series (nested loops) and the 1 Hz sampler |
| server.dfy | `Server` | base-URL resolution and the configuration file contents |
| commands.dfy | `Commands` | the HTTP requests the dashboard slots send |
| bridge.dfy | `Bridge` | the `PiFireBridge` class: its fields, the constructor, the response handler, the reconciler split into per-group methods, and the slots |

The bridge is a class whose methods update its fields in place. The
reconciler `ParseData` is proved against the specification function
`Derive`, and its notifications against `Diff(old mirror, new mirror)`. The
lemmas in `Reconcile` and `Signals` then state what those functions promise.
Network fetches, threads and the Qt event loop are not modelled: the result
object a fetch delivers to the handler, the current time and the
configuration file's contents are parameters. Every signal the bridge would
emit is returned as an `Event` list. An outgoing POST is returned as a
`Request` value.

## Model

| member | source | states |
|---|---|---|
| Bridge.PiFireBridge.constructor | src/bridge.py:42-101 | the mirror starts at the documented defaults; the selection and custom address come from the configuration file, or stay "pifire" and "192.168.1.100" when there is none; the base URL is resolved and the `Referer` header points at its events page; streaming is off, there are no hopper details and no history batch yet; the first status fetch is in flight |
| Bridge.PiFireBridge.LoadConfig | src/bridge.py:233-248 | the selection and address are read from the file (defaults "pifire" and "" for missing entries, unchanged when there is no file), then the base URL and `Referer` are re-resolved |
| Bridge.PiFireBridge.UpdateBaseUrl | src/bridge.py:264-281 | the base URL is the resolution of the selection and address, and only the `Referer` header changes, to `<base>/events/` |
| Bridge.PiFireBridge.SetServerConfig | src/bridge.py:224-231 | stores the selection and address, returns the saved file contents, re-resolves the URL and notifies the address, then the selection |
| Bridge.PiFireBridge.UpdateStatus | src/bridge.py:285-293 | a fetch starts exactly when none is in flight, and afterwards one is in flight |
| Bridge.PiFireBridge.ProcessResponse | src/bridge.py:328-450 | clears the busy flag. A streamed point is passed through with nothing else changed. A history batch is normalised, stored and notified. Any other result behaves as `ResultOutcome` says, leaving the history batch alone |
| Bridge.PiFireBridge.HandleStatusResult | src/bridge.py:400-450 | a success result is handled as a status payload; a mock result reconciles the built-in mock payload and notifies its differences; anything else sets the status to the `error` text (default "Unknown Error") and notifies it |
| Bridge.PiFireBridge.HandleHistory | src/bridge.py:338-398 | the stored history batch is the normalised series of the body, and exactly one notification carries it |
| Bridge.PiFireBridge.HandleSuccess | src/bridge.py:400-443 | without `data`, nothing changes. Otherwise the hopper details are replaced when `hopper_data` is truthy, a sample is emitted when one is due (stamped with the current time and the previously stored set point), the mirror becomes `Derive` of the payload, and the changed fields are notified after the sample |
| Bridge.PiFireBridge.StoreHopperDetails | src/bridge.py:405-410 | a truthy `hopper_data` replaces the details with its `hopper_level` (default 0) and `hopper_pellets` (default "Unknown"); otherwise they are kept |
| Bridge.PiFireBridge.SampleHistory | src/bridge.py:414-441 | a sample is emitted and the last-sample time moves to now exactly when streaming is on and a second has passed; the sample holds the grill reading, the stored set point and every food reading |
| Bridge.PiFireBridge.HandleError | src/bridge.py:447-450 | the status becomes the error text and is notified even when unchanged |
| Bridge.PiFireBridge.Sync | src/bridge.py:469-471 | one compare-assign-notify step: the field takes the new value, and a notification is appended exactly when the value differs |
| Bridge.PiFireBridge.ParseStatus | src/bridge.py:466-475 | mode and display mode take the payload's values (default "Unknown"), each notified when changed, mode first |
| Bridge.PiFireBridge.ParseExtended | src/bridge.py:478-500 | output pins, lid, smoke plus and `str(p_mode)` take the payload's values, each notified when changed; the repeated p-mode block never notifies twice |
| Bridge.PiFireBridge.ParseStartup | src/bridge.py:504-526 | start duration, startup progress and startup timestamp take their derived values, notified in source order |
| Bridge.PiFireBridge.ParsePrime | src/bridge.py:529-548 | prime duration, mode start time and prime progress take their derived values, notified in source order |
| Bridge.PiFireBridge.ParseTemperature | src/bridge.py:559-574 | units and the truncated grill temperature take their derived values, notified when changed |
| Bridge.PiFireBridge.ParseNotify | src/bridge.py:577-624 | the set point and timers take the values of the notify-list scan, notified when changed; the scan is returned for the hopper and probe steps |
| Bridge.PiFireBridge.ParseHopper | src/bridge.py:626-632 | the hopper becomes the scanned hopper item with the stored details laid over it, notified when changed |
| Bridge.PiFireBridge.ParseProbes | src/bridge.py:635-651 | the probe list becomes the rows built from the enabled food probes, notified when changed |
| Bridge.PiFireBridge.ParseState | src/bridge.py:452-548 | the status-node fields, mode through prime progress, take their derived values, with their notifications in source order |
| Bridge.PiFireBridge.ParseReadings | src/bridge.py:559-651 | the reading fields, units through probes, take their derived values, with their notifications in source order |
| Bridge.PiFireBridge.ParseData | src/bridge.py:452-651 | the mirror becomes `Derive(data, hopper details)`, and the notifications are exactly `Diff(old mirror, new mirror)` |
| Bridge.PiFireBridge.HandleMockData | src/bridge.py:653-681 | the mirror becomes `Derive` of the built-in mock payload, with the differences notified |
| Bridge.PiFireBridge.StartHistoryStream | src/bridge.py:779-782 | turns streaming on |
| Bridge.PiFireBridge.StopHistoryStream | src/bridge.py:785-787 | turns streaming off |
| Bridge.PiFireBridge.SendCommand | src/bridge.py:686-704 | returns the command request for the current base URL and headers |
| Bridge.PiFireBridge.SendPrime | src/bridge.py:707-723 | returns the prime request for the current base URL and headers |
| Bridge.PiFireBridge.ToggleSmokePlus | src/bridge.py:726-738 | returns the smoke-plus request for the current base URL and headers |
| Bridge.PiFireBridge.SetTargetTemp | src/bridge.py:792-807 | returns the hold-at-temperature request for the current base URL and headers |
| Bridge.PiFireBridge.SetPMode | src/bridge.py:741-776 | returns the settings POST, then the trigger POST unless the first raised |
| Bridge.PiFireBridge.FetchHistory | src/bridge.py:810-821 | returns the history refresh request for the current base URL and headers |
| Bridge.PiFireBridge.FetchDefaultHistory | src/bridge.py:809-821 | the slot called without an argument asks for the last "60" minutes |
| Bridge.PiFireBridge.ReparseQuiet | src/bridge.py:452-651 | reconciling the same payload twice in a row notifies nothing the second time |
| Bridge.PiFireBridge.ErrorAlwaysNotifies | src/bridge.py:447-450 | two identical error results notify the status both times |
| Bridge.HistoryResponseReopensPoll | src/bridge.py:285-338 | a history response clears the busy flag while the first status fetch is still in flight, so the next tick starts a second, overlapping fetch |
| Commands.ControlHeaders | src/bridge.py:698-700 | the control headers are the bridge headers with `Referer` set to `<base>/dash/` and the JSON content type added; every other header is kept |
| Commands.CommandRequest | src/bridge.py:686-704 | posts to `<base>/api/control`, with the control headers, a body of exactly `updated: true` and the capitalised `mode` |
| Commands.PrimeRequest | src/bridge.py:707-723 | posts to the control endpoint a body of exactly `updated`, `mode: "Prime"`, the `prime_amount` and the `next_mode` |
| Commands.SmokePlusRequest | src/bridge.py:726-738 | posts to the control endpoint a body of exactly `s_plus`, the negation of the state passed in |
| Commands.TargetTempRequest | src/bridge.py:792-807 | posts to the control endpoint a body of exactly `updated`, `mode: "Hold"` and `primary_setpoint` |
| Commands.PModeRequests | src/bridge.py:741-776 | one request when the settings POST raised, else two; the first goes to `<base>/api/settings`, the second to `<base>/api/control`; all carry the control headers |
| Commands.HistoryRequest | src/bridge.py:810-821 | posts `{num_mins: mins}` to `<base>/history/refresh`; the headers are the bridge headers with `Referer` `<base>/history/`, the JSON content type and `Origin` `<base>`, every other header kept |
| Commands.CycleCommandModes | src/bridge.py:686-695 | "startup", "shutdown" and "stop" send the modes "Startup", "Shutdown" and "Stop" |
| Commands.CookCommandModes | src/bridge.py:686-695 | "smoke", "hold" and "monitor" send "Smoke", "Hold" and "Monitor" |
| Commands.CommandCaseInsensitive | src/bridge.py:693 | commands that differ only in letter case send the same request, and capitalising a command first changes nothing |
| Commands.ControlRequestsShape | src/bridge.py:686-807 | every control request posts to `<base>/api/control` with the control headers; the smoke-plus request asks for the opposite of the state passed in, so the two states give different requests |
| Commands.PModeTriggerOnlyAfterSettings | src/bridge.py:741-776 | the settings write `{cycle_data: {PMode: p}}` always goes first; the trigger `{settings_update: true}` to the control endpoint is sent exactly when that write did not raise |
| History.NormalizeHistory | src/bridge.py:338-387 | the nested loops compute `Normalized(body)`, the series of the `chart_data` list |
| History.PointAt | src/bridge.py:372-385 | a raw entry is dropped exactly when it is a dict without `y`; a kept point has the entry's `y` (or the bare number) as y, and the index as x when `x` is missing or the entry is not a dict |
| History.PointsPrefix | src/bridge.py:371-385 | the points of a prefix of the raw list are a prefix of the points of the whole list: the loop only appends |
| History.PointsPosition | src/bridge.py:371-385 | a raw entry that yields a point yields it at the position given by the number of points before it |
| History.PointsNoneDropped | src/bridge.py:371-385 | when every raw entry yields a point, the points correspond one to one with the raw entries, in order |
| History.IndexCountsDropped | src/bridge.py:372-382 | dropped entries still advance the index used in place of a missing `x` |
| History.DictsMember | src/bridge.py:362-363 | the datasets kept are exactly the entries that are dicts |
| History.SeriesPerDataset | src/bridge.py:362-387 | every dict dataset gives one series, in order, named by its `label` or "Unknown", whose points are those of its `data` list; entries of any other kind give none |
| History.GrillChartExample | src/bridge.py:348-387 | a one-dataset chart whose second point lacks `x` normalises to one "Grill" series with that point at x = 1 |
| History.CollectTemps | src/bridge.py:422-435 | the loop builds `SampleTemps`: the grill reading, the set point and each food reading, truncated |
| History.SampleTemps | src/bridge.py:422-435 | the sample holds `Grill` when the raw `P` block has it, `SetPoint`, and every `F` key; each `F` key maps to its truncated reading, and `SetPoint` is the stored set point unless an `F` key of that name overwrites it |
| History.EmitTimesSpaced | src/bridge.py:415-418 | over any run of polls, emitted samples are at least a second apart and after the previous sample, and each is at a poll time |
| History.SamplerPacing | src/bridge.py:415-418 | polls 1.3 s apart each emit a sample; polls 0.3 s apart emit only the first |
| Payload.Trunc | src/bridge.py:570 | `int()` truncates toward zero: the result is within one of the input, and not beyond it away from zero |
| Payload.PyStr | src/bridge.py:493 | `str()` of a string is the string; of a number, a decimal that reads back to its truncated value |
| Reconcile.Progress | src/bridge.py:510-517 | the progress ratio lies in [0, 1]. It is 0 unless duration, start and device clock are all positive. Otherwise it is 0 before the start, 1 once the duration has elapsed, and the elapsed fraction in between |
| Reconcile.ProgressMonotone | src/bridge.py:514-517 | with the phase fixed, progress never decreases as the device clock advances |
| Reconcile.DeviceSeconds | src/bridge.py:511-512 | the device clock is never negative, and it is positive exactly when `current.TS` is |
| Reconcile.FirstSetPoint | src/bridge.py:580-587 | `current.PSP`, then `primary_setpoint`, then `set_point`, each used only when the earlier ones are 0 |
| Reconcile.ScanNotify | src/bridge.py:589-616 | the loop over the notify list computes the scan specification `ScanOf` |
| Reconcile.ScanSetPoint | src/bridge.py:597-600 | a zero set point is replaced by the first Grill probe item with a non-zero target; a non-zero one is kept |
| Reconcile.ScanTimers | src/bridge.py:611-612 | the timers are the timer items, in list order |
| Reconcile.ScanNoHopper | src/bridge.py:590-616 | without a hopper item the scanned hopper is empty |
| Reconcile.ScanLastHopper | src/bridge.py:615-616 | the scanned hopper is the last hopper item |
| Reconcile.ScanNoGrillTarget | src/bridge.py:603-608 | a "Grill" label never receives a probe target or name |
| Reconcile.ScanTargetKeys | src/bridge.py:603-606 | the target map's keys are exactly the labels of non-Grill probe items |
| Reconcile.ScanLastTarget | src/bridge.py:603-606 | a label's target is that of the last probe item carrying it |
| Reconcile.ScanLastName | src/bridge.py:603-608 | a label's name is that of the last named food probe item carrying it |
| Reconcile.ScanNames | src/bridge.py:607-608 | a name is recorded only for a label whose probe item has a `name` |
| Reconcile.HopperDetailsOf | src/bridge.py:407-410 | the details hold exactly `level` and `name`, from `hopper_level` (default 0) and `hopper_pellets` (default "Unknown") |
| Reconcile.Overlay | src/bridge.py:627-628 | `dict.update`: the keys are the union; a detail's value wins, other record entries are kept |
| Reconcile.HopperOverlayExample | src/bridge.py:626-628 | a hopper item at level 10 with "Hickory" pellets, under stored details of level 40 with "Oak", shows level 40 and "Oak" and keeps the item's other entries |
| Reconcile.BuildProbes | src/bridge.py:635-647 | the loop computes `ProbesOf`, the probe rows of the sorted food-probe keys |
| Reconcile.EnabledInMember | src/bridge.py:637-642 | the keys kept are exactly the listed keys whose probe is enabled |
| Reconcile.EnabledInSorted | src/bridge.py:637-642 | skipping disabled probes keeps the keys sorted |
| Reconcile.ProbesOverRows | src/bridge.py:636-647 | one row per enabled key, in order |
| Reconcile.NoneEnabled | src/bridge.py:639-642 | with no probe enabled there are no rows |
| Reconcile.ProbeRows | src/bridge.py:635-647 | the rows follow the enabled food-probe keys in strictly increasing order, one row per key, each named by the notify name or the key, with the notify target or 0 |
| Reconcile.MakeProbe | src/bridge.py:644-647 | a row has the truncated temperature of its key, the recorded name or else the key, and the recorded target or else 0 |
| Reconcile.Derive | src/bridge.py:452-651 | the value of every mirrored field after reconciling a payload; the Derive lemmas state what each field is |
| Reconcile.DeriveProgress | src/bridge.py:510-548 | both progress values lie in [0, 1] and are 0 unless duration, start and device clock are all positive |
| Reconcile.DeriveSetPoint | src/bridge.py:579-600 | the set point is the first non-zero of PSP, `primary_setpoint`, `set_point` and the Grill probe target |
| Reconcile.DeriveTimers | src/bridge.py:589-624 | the mirrored timers are the timer items of the notify list |
| Reconcile.DeriveHopper | src/bridge.py:615-632 | the mirrored hopper shows every stored detail. It is the details alone without a hopper item, else the last hopper item with the details over it |
| Reconcile.DeriveProbes | src/bridge.py:595-651 | the mirrored probes are the enabled food probes in sorted key order, with their truncated temperatures; a probe keyed "Grill" gets target 0 |
| Reconcile.DeriveProbeName | src/bridge.py:603-608 | the probe row of an enabled key shows the name of the last named food probe item labelled with that key |
| Reconcile.DeriveProbeDefaultName | src/bridge.py:646 | without a named food probe item labelled with its key, a probe row is named by the key |
| Reconcile.MockStatus | src/bridge.py:656-681 | the mock payload reads as mode and display mode "Startup", p-mode "4", grill 24, with no probe status |
| Reconcile.MockNotify | src/bridge.py:656-681 | the mock notify list is its four items, and its PSP gives set point 0 before the scan |
| Reconcile.MockScan | src/bridge.py:664-669 | scanning the mock list gives set point 110, the timer item, target 95 for Probe1 and the hopper item |
| Reconcile.NoProbeStatus | src/bridge.py:595-642 | without `probe_status` no probe is enabled, so the probe list is empty |
| Reconcile.MockDerived | src/bridge.py:653-681 | the mock payload reconciles to mode and status "Startup", p-mode "4", grill 24, set point 110, units "C", the one timer, the mock hopper under the stored details, and no probes |
| Server.ResolveBaseUrl | src/bridge.py:264-277 | every resolved base URL starts with "http" |
| Server.LoadedConfig | src/bridge.py:237-241 | no file keeps the current selection and address; a file supplies each present entry, and "pifire" and "" for missing ones |
| Server.CustomUrl | src/bridge.py:270-277 | a custom URL starts with "http", and a non-empty trimmed address is kept whole at its end |
| Server.CustomUrlTrimmed | src/bridge.py:271-277 | a custom URL built from a trimmed address has no edge whitespace |
| Server.ResolvedTrimmed | src/bridge.py:264-277 | no resolved base URL has edge whitespace |
| Server.ResolveIdempotent | src/bridge.py:264-277 | saving a resolved URL as a custom address resolves to the same URL |
| Server.BareAddressExample | src/bridge.py:275-276 | "10.0.0.7" resolves to "http://10.0.0.7" |
| Server.SchemeAddressExample | src/bridge.py:275-277 | "https://grill.lan" is kept as it is |
| Server.BlankAddressExample | src/bridge.py:271-273 | a blank address falls back to "http://pifire.local" |
| Server.ConfigRoundTrip | src/bridge.py:240-257 | reading back a saved configuration restores what was saved, whatever was current before |
| Server.EmptyConfigDefaults | src/bridge.py:240-241 | a configuration file with neither entry gives "pifire" and "", resolving to the default host |
| Signals.DiffMember | src/bridge.py:466-651 | a notification is sent for a field exactly when its old and new values differ, and carries the new value; the notifications follow the reconciler's field order |
| Signals.DiffEmptyIff | src/bridge.py:466-651 | a reconciliation notifies nothing exactly when the mirror is unchanged |
| Signals.DiffUnrolled | src/bridge.py:466-651 | the notifications are the per-field steps in the order mode, status, outpins, lid, smoke plus, p-mode, start duration, startup progress, start time, prime duration, mode start time, prime progress, units, grill, set point, timers, hopper, probes |
| Text.SortedOf | src/bridge.py:637 | the sorted key list has each key exactly once |
| Text.SortedOfSorted | src/bridge.py:637 | the sorted key list is strictly increasing in code-point order |
| Text.LeastKey | src/bridge.py:637 | the loop finds the least key of a non-empty set |
| Text.SortKeys | src/bridge.py:637 | the selection loop computes the sorted key list |
| Text.TrimLeftSpec | src/bridge.py:271 | leading strip removes only whitespace, and all of it |
| Text.TrimRightSpec | src/bridge.py:271 | trailing strip removes only whitespace, and all of it |
| Text.StripKeepsCore | src/bridge.py:271 | `strip()` returns an infix with no edge whitespace; everything cut off is whitespace |
| Text.StripFixed | src/bridge.py:271 | stripping a string without edge whitespace changes nothing |
| Text.Capitalize | src/bridge.py:693 | `capitalize()` keeps the length |
| Text.CapitalizeIdempotent | src/bridge.py:693 | capitalising twice is capitalising once |
| Text.CapitalizeIgnoresCase | src/bridge.py:693 | strings that differ only in letter case capitalise alike |
| Text.NatDigits | src/bridge.py:493 | the decimal form of a number is non-empty, all digits, without a leading zero |
| Text.NatDigitsRoundTrip | src/bridge.py:493 | reading the decimal digits back gives the number |
| Text.DecimalRoundTrip | src/bridge.py:493 | `str()` of an integer reads back to that integer |

## Left out

- Network and threads: `_fetch_task`, `_fetch_history_task` and `_send_post` (src/bridge.py:295-326, 823-842) perform HTTP on worker threads. The model takes the result object a fetch delivers as a parameter of `ProcessResponse`, and returns outgoing POSTs as `Request` values.
- Qt: the signal connections, the 100 ms `QTimer`, the `Property` getters and the `_poll_counter` attribute are not modelled. Emitted signals are returned as `Event` lists.
- Languages: `load_language`, `setLanguage` and `langData` read a translation file and do not touch the mirrored state, so they are not modelled.
- Logging: the `print` calls have no effect on the state and are not modelled.
- Files: the configuration file is a parameter of the constructor and of `LoadConfig`, with `None` standing for a missing or unreadable file. `save_config` is modelled by the map `SetServerConfig` returns. A write that fails is not modelled.
- Time: the clock is an integer number of milliseconds passed in. The source compares float seconds (`now - last >= 1.0`) and stamps samples with `int(now * 1000)`; sub-millisecond parts are not modelled.
- Bridge.PiFireBridge.constructor: `_history_data` is not set in `__init__` (src/bridge.py:42-101), so reading `historyData` before the first batch raises `AttributeError`. The model has `None` until then and does not model the exception.
- Wrong-type payloads: the model's `Get` returns the default when a node is not an object. Python raises `AttributeError` there and the handler stops with the mirror partly updated (src/bridge.py:454, 458, 595, 597, 599, 640). The model never stops halfway.
- Raised conversions: the model reads a value that cannot be converted as 0, but Python raises and the handler stops there. A `null` or non-numeric point at src/bridge.py:379-385 drops the whole history batch, while the model keeps the batch with a 0. A `null` food temperature at src/bridge.py:435 aborts the handler before `_parse_data`, while the model continues with 0.
- Numeric strings: `int(float("24.5"))` is 24 and `int("225")` is 225 in Python (src/bridge.py:428, 570, 581, 585, 600, 605, 644); `float(x)` parses strings at src/bridge.py:379-385. The model's `IntOf`, `Num` and `PointAt` read every string as 0.
- `int()` on a float at src/bridge.py:585-587: `int(status['primary_setpoint'])` truncates a float, as `Trunc` does; it raises on a string such as "225.5", which is not modelled.
- Payload.PyStr: `str()` of a JSON float prints a float such as "4.5" (src/bridge.py:493); the model prints the integer part "4". A list or dict is printed as "--" instead of its Python repr.
- Bool and number equality: Python treats `False == 0` and `True == 1.0` as equal, so a lid value changing from `0` to `False` notifies nothing (src/bridge.py:484). The model's `JBool(false)` and `JNum(0.0)` are distinct values, so the model notifies.
- Text.Capitalize: upper- and lower-cases ASCII letters only. Python's `str.capitalize` also handles non-ASCII letters and title-cases the first character.
- Aliasing: `new_hopper.update(...)` (src/bridge.py:628) mutates the notify item inside the payload dict in place, and `_hopper` then refers to that object. The model works on values, so this sharing is not modelled; no later read of the payload depends on it.
- `shutdown_duration` is read at src/bridge.py:551 and never used, and `_shutdown_progress` is never updated after construction. The model keeps `shutdownProgress` at 0.0.
- Reconcile.MockDerived: does not state the mock payload's `s_plus` and `lid_open_detected` values, because those clauses were too costly to prove; `HandleMockData` still states the whole mirror through `Derive`.
- The spelled-out behaviour follows the code where descriptions of the bridge differ from it. `setPMode` sends the trigger POST only when the settings POST did not raise (src/bridge.py:759-761). The synthetic sample carries the set point stored by the previous reconciliation, not the one in the payload being processed (src/bridge.py:432, 443).
