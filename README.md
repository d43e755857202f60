# KNX double-click detector — a verified model

This project models the core of the Home Assistant integration "KNX Dubbelklicksdetektor" (`knx_doubleclick`).

Each instance of the integration is a sensor, `KnxDoubleClickSensor`, which listens for `knx_event`s on the bus:

- An event carries a group address and a value. The sensor turns the value into an integer and compares address and value with its configuration.
- Every matching event sets the sensor's timestamp.
- When two matching events come within the configured window, that is a double-click. The sensor then loads a YAML list of actions from its own action file.
  - A list made only of plain service calls is run call by call.
  - Anything else is handed to Home Assistant's script engine, and so is a list whose direct calls failed.
  - An error while building a call's data (sensor.py:410-419, outside the `try`) ends the handler: the remaining calls are not made and no script runs.

The Dafny modules follow that structure:

| module | file | what it holds |
|---|---|---|
| `Wrappers` | wrappers.dfy | `Option` |
| `PyText` | pytext.dfy | the Python string built-ins the sensor uses: `str.strip`, `int(str)`, `str(int)`, `str.split(".", 1)` |
| `KnxConst` | const.dfy | the integration's constants: defaults, the control-flow keys, the default action text |
| `KnxEvents` | events.dfy | event values, `int()` coercion, the match and the double-click rule, one event (`Observe`) and a run of events (`Replay`) |
| `KnxActions` | actions.dfy | the loaded YAML, "no actions", the classifier, the service data of a call, the direct dispatcher, the script fallback |
| `KnxConfig` | config.dfy | merged settings, the sensor's name, the action file's name and path, when the listener runs |
| `KnxSensor` | sensor.dfy | `class Detector`: the sensor's fields, its set-up, listener start/stop, options update and event handling |

Representation choices:

- **Time.** Times are integer microseconds, the resolution of Python's `datetime`, and the current time is a parameter `now`. The window is an exact real number of seconds.
- **Imperative parts.** The parts of `sensor.py` that update state in place are methods:
  - the handler and the listener and options methods on the `Detector` class;
  - the classifier loop (`Classify`) and the service-data updates (`BuildServiceData`);
  - the direct-call loop (`RunDirect`, with `RunEntry` for one entry).
  
  Each is proved against a function (`Observe`, `AllSimple`, `ServiceData`, `DirectFrom`, `DispatchOf`), and the lemmas are stated about those functions.
- **Foreign code.** These are parameters:
  - the YAML parser (`safeLoad: string -> YamlDoc`);
  - the state of the action file (`FileRead`);
  - the outcome of each direct service call (`callOk: nat -> bool`, by list index);
  - whether the script compiles and whether its run succeeds;
  - Home Assistant's `slugify`.

Two behaviours of the code are worth noting:

- **No lower bound on the delta.** sensor.py:379 checks only `delta <= window`, so a delta below zero (a clock that went back) also fires. `BoundaryAndNegativeDeltaFire` states it.
- **`_async_options_updated` itself keeps the timestamp** (sensor.py:277-287). `OptionsUpdated` keeps `lastEventTime`, `nativeValue` and `lastDelta`. In the running integration the entry is also reloaded on every options update, which replaces the sensor (see "## Left out").

## Model

| member | source | states |
|---|---|---|
| PyText.StripEmptyIffBlank | sensor.py:198 | `not text.strip()` holds exactly when every character is Python whitespace |
| PyText.StripPadded | sensor.py:198 | `strip` removes exactly the surrounding whitespace of a text whose ends are not blank |
| PyText.ParseIntRoundTrip | sensor.py:334-337 | `int()` of the text of an integer of at most 4300 digits gives the integer back, also with whitespace that `int()` skips around it (all `str.isspace` characters but the information separators U+001C..U+001F) |
| PyText.IntTextShape | sensor.py:334-337 | the text of an integer is an optional minus sign and then the numeral of its magnitude, with no blank at either end |
| PyText.SplitAtFirstDot | sensor.py:422 | splitting fails (a `ValueError`) exactly when the text has no dot; otherwise the first part has no dot, and joining the parts with a dot gives the text back |
| PyText.SplitJoinRoundTrip | sensor.py:422 | splitting `domain + "." + service` gives back `domain` and `service` when `domain` has no dot |
| KnxConst.ControlFlowKeysAreThirteenNames | custom_components/knx_doubleclick/const.py:47-51 | the control-flow set holds exactly 13 pairwise distinct names |
| KnxConst.ServiceKeysAreNotControlFlow | custom_components/knx_doubleclick/const.py:47-51 | `service`, `data`, `target` and `entity_id` are not control-flow keys |
| KnxConst.DefaultsAreSane | custom_components/knx_doubleclick/const.py:17-19 | the default listen value is 1, the default window is 0.7 s and non-negative, and the default suffix is "Min Knapp" |
| KnxEvents.TruncateTowardZero | sensor.py:335-337 | `int()` of a float rounds toward zero: the result lies within 1 of the float, on the side of zero |
| KnxEvents.UnmatchedEventChangesNothing | sensor.py:302-351 | the event is ignored and the timing state is unchanged when any of these hold: the address differs; the integer value differs; the value cannot be made an integer; there is neither `value` nor `data` |
| KnxEvents.ValueTakesPrecedence | sensor.py:304-315 | `data` is read only when `value` is None, so a falsy `value` such as 0 is used as it is |
| KnxEvents.SingletonListUnwrapped | sensor.py:332-338 | a one-element list compares like its element; a list of any other length, and a nested list, is rejected |
| KnxEvents.PaddedNumeralParsed | sensor.py:337-347 | a string value is read as integer text with blanks around it ignored: " 1 " matches 1 |
| KnxEvents.WordRejected | sensor.py:337-347 | a string that is not integer text, such as "abc", is rejected |
| KnxEvents.SeparatorPadRejected | sensor.py:337-347 | a value padded with an information separator (U+001F), which `strip` would remove but `int()` does not skip, is rejected |
| KnxEvents.LongNumeralRejected | sensor.py:337-347 | a numeral of more than 4300 digits, leading zeros included, is rejected, as Python's `int()` refuses it: `"0" * k + "1"` never matches for `k >= 4300` |
| KnxEvents.MatchRebasesTimestamp | sensor.py:359-379 | a match sets timestamp and native value to `now`; the delta is `now - previous` when a previous match and a window exist, and None otherwise; the match fires exactly when `now - previous <= window`, with the delta as the fire's delta |
| KnxEvents.BoundaryAndNegativeDeltaFire | sensor.py:379 | a delta equal to the window fires, and so does a negative delta |
| KnxEvents.ReplayTracksLastMatch | sensor.py:359-379 | after a run of events the timestamp is that of the last matching event. Event `i` is ignored if it does not match. Otherwise it fires exactly when it lies within the window of the latest match before it |
| KnxEvents.FirstMatchNeverFires | sensor.py:366 | the first match of a fresh detector never fires |
| KnxEvents.ThreePressScenario | sensor.py:359-379 | presses at 0 s, 0.5 s and 2 s with a 0.7 s window give: no fire; a fire after 0.5 s; no fire, with the timestamp moved to 2 s |
| KnxActions.LoadActions | sensor.py:183-213 | returns a list exactly when the file was read, its text is not blank, it parses, and the document is a non-empty list; that list is returned unchanged. A missing or unreadable file, blank text, malformed YAML, null, an empty list or a non-list all give "no actions" |
| KnxActions.DefaultFileHasNoActions | custom_components/knx_doubleclick/const.py:25-36 | the default action text is comment-only, so a file holding it loads as "no actions" |
| KnxActions.FreshFileHasNoActions | sensor.py:82-89 | a newly created action file (the identifying header and then the default text) loads as "no actions" when title, entry id, file name and path have no line break |
| KnxActions.Classify | sensor.py:392-401 | the list is simple exactly when it is non-empty and every entry is a mapping with `service` and no control-flow key |
| KnxActions.ClassifierExamples | sensor.py:392-401 | `[{service: light.turn_on}]` is simple; an entry with `delay` makes a list complex |
| KnxActions.ServiceDataPrecedence | sensor.py:410-419 | for mapping or absent `data`: target keys override data keys; no key comes from elsewhere except `entity_id`; `entity_id` comes from a mapping target, else from data, else from a string target, else from the action's own `entity_id` |
| KnxActions.BuildServiceData | sensor.py:410-419 | the step-by-step copy and updates give `ServiceData`, including the error Python raises for a `data` that is neither a mapping nor a list, or a list that is then updated |
| KnxActions.StepOfMeaning | sensor.py:409-445 | one entry raises exactly when its service data cannot be built; it makes no call exactly when the data can be built but the service text has no dot; otherwise it calls the service named by the text before and after the first dot, with exactly that data and the call's outcome |
| KnxActions.RunEntry | sensor.py:409-445 | the entry's data preparation, split and call give the step `StepOf` describes, whose meaning `StepOfMeaning` states |
| KnxActions.RunDirect | sensor.py:403-450 | the direct loop makes the calls and reports the outcome that `DirectFrom` gives for the entries' steps |
| KnxActions.DirectCallCount | sensor.py:408-445 | a direct run never makes more calls than there are entries |
| KnxActions.DirectCallsInListOrder | sensor.py:408-445 | the `j`-th call is the one built from entry `j`: calls follow list order |
| KnxActions.DirectStopsAtFirstFailure | sensor.py:421-445 | a direct run reports success exactly when every entry's call succeeded; otherwise it stops at the first entry that did not succeed, and no later entry is called |
| KnxActions.NoActionsNothingRuns | sensor.py:388-493 | a fire with "no actions" makes no call and runs no script |
| KnxActions.ScriptFallbackRule | sensor.py:456-488 | direct calls are tried exactly for simple lists. The script is used exactly when the list is complex or a direct call failed, and it receives the whole list with the trigger variables. A failed compile runs nothing |
| KnxActions.RunActions | sensor.py:392-488 | classify, direct calls and fallback together produce the dispatch `DispatchOf` describes |
| KnxActions.TwoSimpleCallsScenario | sensor.py:405-456 | two simple calls that both succeed run directly: `data` is passed on, the entry without data gets `{}`, and no script runs |
| KnxConfig.OptionsOverrideData | sensor.py:172-176 | options override data key by key; data shows through where options lack a key; merging again changes nothing |
| KnxConfig.SensorNameFromDataOnly | sensor.py:178-179 | the name is "KNX Dubbelklick Lyssnare " plus the suffix from `data` (default "Min Knapp"), and options never change it |
| KnxConfig.FileStem | sensor.py:54-55 | the slugified text is the suffix, or the default when the suffix is absent or empty; it is never empty |
| KnxConfig.FileNameDeterminesEntry | sensor.py:56 | `<slug>--<id>.yaml` determines both slug and id when slugs hold no dash |
| KnxConfig.DistinctEntriesDistinctFiles | sensor.py:53-56 | entries with different ids never share an action file |
| KnxSensor.FireVarsDescribeTheFire | sensor.py:359-478 | the trigger variables of a fire describe it: the delta in seconds is within the window, the event time is the new timestamp and lies one delta after the previous one, address and value are the event's, and the suffix and entry name come from the entry |
| KnxSensor.Detector.constructor | sensor.py:114-133 | a new sensor: settings from the merged configuration, name from `data`, action file path from the entry, no timestamp or delta, not listening |
| KnxSensor.Detector.UpdateFromConfig | sensor.py:170-181 | address, value and window from the merged configuration; name from `data` |
| KnxSensor.Detector.StartListener | sensor.py:249-262 | after a (re)start the sensor listens exactly when its address is non-empty |
| KnxSensor.Detector.StopListener | sensor.py:265-270 | after a stop the sensor does not listen |
| KnxSensor.Detector.OptionsUpdated | sensor.py:273-287 | settings are re-read; the listener restarts exactly when the address or value changed (a window-only change keeps it as it was); timestamp, native value and delta are kept |
| KnxSensor.Detector.HandleEvent | sensor.py:290-495 | for a subscribed sensor (events reach it only through the listener, sensor.py:245-262): the timing state and verdict are those of `Observe`; a dispatch happens exactly on a fire; it is the dispatch of the loaded action file with the fire's trigger variables |

## Left out

- File-system work is not modelled: `async_setup_entry` (sensor.py:64-106), which creates the directory, writes a new action file and adds the entity. The text it writes is modelled (`NewActionsFileText`).
- Home Assistant plumbing is not modelled: `async_added_to_hass`, `async_will_remove_from_hass`, the bus subscription (modelled only as the `listening` flag), `async_write_ha_state`, the `name` and `native_value` properties, and logging.
- `extra_state_attributes` (sensor.py:153-167) is not modelled: it rounds to 3 decimals and formats times in the local time zone.
- Floating point: the window and `total_seconds()` are exact reals, so IEEE rounding near the window bound is not captured. NaN and infinite floats are not event values.
- The YAML parser is a parameter. That comment-only text parses to null or is rejected as malformed (PyYAML rejects non-printable characters even in comments) is a stated assumption (`LoadsCommentsAsNothing`), not a proof about a parser.
- KnxActions.TriggerVars: `event_time_local` (sensor.py:472) is left out, because the local time zone is not modelled. `event_time_utc` is the microsecond time, not its ISO text.
- Script semantics, `Script` compilation and the service registry are not modelled: outcomes are parameters. The script run's own success or failure is recorded only, because the code only logs it.
- Async interleaving is not modelled: the handler awaits file and service I/O, so handlers can overlap. Each event is one atomic step.
- The config flow and the `__init__.py` files are not part of this model: they hold UI forms, the entry registry and lifecycle wiring.
- KnxEvents.CoerceInt: `int()` of a string accepts ASCII digits only. Other Unicode decimal digits, which Python also accepts, give `None`. Bytes and other objects with `__int__` are not event values. The 4300-digit limit is Python's default; a limit changed with `sys.set_int_max_str_digits` or `PYTHONINTMAXSTRDIGITS` is not modelled.
- Options reload: the integration's update listener (custom_components/knx_doubleclick/__init__.py:41, 60-63) reloads the entry on every options update. The reload replaces the sensor with a new one that has no timestamp. The reload is not modelled; `OptionsUpdated` models only the sensor's own handler.
- KnxActions.ServiceText: `str()` of a list or mapping used as a `service` value is taken as the text of an empty one (`[]`, `{}`), which has no dot. The real text of a non-empty container could contain a dot.
- KnxActions.Yaml: mapping keys are strings, and a number, date or other non-string scalar is kept as the text `str()` gives it.
- KnxConfig.Settings: settings are typed as the configuration forms store them (a string address, an integer value, a real window). A key present with the value None is not told apart from an absent key. A configured value of another type is not modelled.
- KnxConfig.ActionsFilePath: `hass.config.path` is modelled as joining with `/`; `slugify` is a parameter. The no-dash property of slugs is an assumption (`SlugsHaveNoDash`), because Home Assistant's slug separator is `_`.
- KnxSensor.Detector.OptionsUpdated: Home Assistant stores the new options in the entry before calling the update listener. The model does both in one method.
