/**
 * The detector sensor itself: the state it keeps between bus events and the
 * operations that change it (set-up, starting and stopping the bus listener,
 * an options update, and the handling of one `knx_event`).
 *
 * The bus subscription is the `listening` flag. The clock, the action file's
 * state, the YAML parser and the outcomes of service calls and of the script
 * engine are parameters of the operations that use them.
 */
module KnxSensor {
  import opened Wrappers
  import opened KnxConst
  import opened KnxEvents
  import opened KnxActions
  import opened KnxConfig

  /** What one event did: its verdict and, for a fire, what was dispatched. */
  datatype Handled = Handled(verdict: Verdict, dispatch: Option<Dispatch>)

  /** The variables passed to a script run for a fire at `now` after `delta` microseconds. */
  function FireVars(e: ConfigEntry, ga: Option<string>, value: int, now: int, delta: int,
                    actionsFile: string): TriggerVars
  {
    TriggerVars(Domain, ga, value, now, DeltaSeconds(delta), NameSuffixOf(e), e.title, actionsFile)
  }

  /** The variables of a fire describe that fire: the delta in seconds is within
      the window, the event time is the new timestamp, and address and value are
      those of the event and of the criterion. */
  lemma FireVarsDescribeTheFire(e: ConfigEntry, t: KnxEvents.Timing, c: KnxEvents.Criterion,
                                ev: KnxEvent, now: int, actionsFile: string)
    requires Observe(t, c, ev, now).1.Fired?
    ensures c.value.Some? && c.window.Some?
    ensures var (t', verdict) := Observe(t, c, ev, now);
      var v := FireVars(e, c.ga, c.value.value, now, verdict.delta, actionsFile);
      && v.timeDifferenceSeconds <= c.window.value
      && t'.last == Some(v.eventTimeUtc) && t.last == Some(now - verdict.delta)
      && v.groupAddress == ev.destination && ComparableValue(ev) == Some(v.value)
      && v.nameSuffix == NameSuffixOf(e) && v.configEntryName == e.title
  {
  }

  class Detector {
    var entry: ConfigEntry
    const actionsFile: string
    var name: string
    var ga: Option<string>
    var val: Option<int>
    var window: Option<real>
    /** Time of the last matching event (us). */
    var lastEventTime: Option<int>
    /** The sensor's state: time of the last matching event (us). */
    var nativeValue: Option<int>
    /** Time between the last two matching events (us), when a window was set. */
    var lastDelta: Option<int>
    /** Whether the sensor is subscribed to `knx_event`. */
    var listening: bool

    function Timing(): KnxEvents.Timing
      reads this`lastEventTime, this`nativeValue, this`lastDelta
    {
      KnxEvents.Timing(lastEventTime, nativeValue, lastDelta)
    }

    function Criterion(): KnxEvents.Criterion
      reads this`ga, this`val, this`window
    {
      KnxEvents.Criterion(ga, val, window)
    }

    /** A new sensor for `e`: settings taken from the merged configuration, no
        click seen yet, not yet listening. */
    constructor (e: ConfigEntry, configDir: string, slugify: string -> string)
      ensures entry == e && actionsFile == ActionsFilePath(configDir, e, slugify)
      ensures ga == Combined(e).groupAddress && val == Combined(e).knxValue
      ensures window == Combined(e).windowSeconds && name == SensorName(e)
      ensures lastEventTime == None && nativeValue == None && lastDelta == None
      ensures !listening
    {
      entry := e;
      actionsFile := ActionsFilePath(configDir, e, slugify);
      name := SensorName(e);
      ga := None;
      val := None;
      window := None;
      lastEventTime := None;
      nativeValue := None;
      lastDelta := None;
      listening := false;
      new;
      UpdateFromConfig();
    }

    /** Re-reads address, value and window from the merged configuration and the
        name from `data`; nothing else changes. */
    method UpdateFromConfig()
      modifies this`ga, this`val, this`window, this`name
      ensures ga == Combined(entry).groupAddress && val == Combined(entry).knxValue
      ensures window == Combined(entry).windowSeconds && name == SensorName(entry)
    {
      var combined := Combined(entry);
      ga := combined.groupAddress;
      val := combined.knxValue;
      window := combined.windowSeconds;
      name := SensorName(entry);
    }

    /** Drops any subscription, then subscribes again only for a non-empty address. */
    method StartListener()
      modifies this`listening
      ensures listening == ListensFor(ga)
    {
      if listening {
        listening := false;
      }
      if ga.Some? && ga.value != "" {
        listening := true;
      }
    }

    method StopListener()
      modifies this`listening
      ensures !listening
    {
      if listening {
        listening := false;
      }
    }

    /** The entry now holds `newOptions`: the settings are re-read, and the listener
        is restarted exactly when the address or the value changed. The timing
        state is left as it was. */
    method OptionsUpdated(newOptions: Settings)
      modifies this`entry, this`ga, this`val, this`window, this`name, this`listening
      ensures entry == old(entry).(options := newOptions)
      ensures ga == Combined(entry).groupAddress && val == Combined(entry).knxValue
      ensures window == Combined(entry).windowSeconds && name == SensorName(entry)
      ensures (ga != old(ga) || val != old(val)) ==> listening == ListensFor(ga)
      ensures (ga == old(ga) && val == old(val)) ==> listening == old(listening)
      ensures lastEventTime == old(lastEventTime) && nativeValue == old(nativeValue)
      ensures lastDelta == old(lastDelta)
    {
      entry := entry.(options := newOptions);
      var oldGa := ga;
      var oldVal := val;
      UpdateFromConfig();
      if oldGa != ga || oldVal != val {
        StopListener();
        StartListener();
      }
    }

    /** Handles one `knx_event` at time `now`; only a subscribed sensor receives
        events. A match updates the timing state as `Observe` says; a fire loads
        the action file and dispatches its actions. */
    method HandleEvent(ev: KnxEvent, now: int, file: FileRead, safeLoad: string -> YamlDoc,
                       callOk: nat -> bool, compiles: bool, runOk: bool) returns (h: Handled)
      requires listening
      modifies this`lastEventTime, this`nativeValue, this`lastDelta
      ensures (Timing(), h.verdict) == Observe(old(Timing()), Criterion(), ev, now)
      ensures h.dispatch.Some? <==> h.verdict.Fired?
      ensures h.verdict.Fired? ==>
        h.dispatch.value == DispatchOf(LoadActions(file, safeLoad), callOk, compiles, runOk,
                                       FireVars(entry, ga, val.value, now, h.verdict.delta, actionsFile))
    {
      var raw := SelectRaw(ev);
      if raw.NoneV? {
        return Handled(Ignored, None);
      }
      var comparable := Normalise(raw);
      if comparable.None? {
        return Handled(Ignored, None);
      }
      if !(ev.destination == ga && Some(comparable.value) == val) {
        return Handled(Ignored, None);
      }
      var previous := lastEventTime;
      nativeValue := Some(now);
      lastEventTime := Some(now);
      lastDelta := None;
      if previous.Some? && window.Some? {
        var delta := now - previous.value;
        lastDelta := Some(delta);
        if DeltaSeconds(delta) <= window.value {
          var loaded := LoadActions(file, safeLoad);
          var vars := FireVars(entry, ga, comparable.value, now, delta, actionsFile);
          var d := RunActions(loaded, callOk, compiles, runOk, vars);
          return Handled(Fired(delta), Some(d));
        }
      }
      h := Handled(NotFired, None);
    }
  }
}
