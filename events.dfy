/**
 * Matching and timing of KNX bus events: how the sensor turns an event's raw
 * value into an integer, when an event matches the configured group address and
 * value, and when a match completes a double-click.
 *
 * Times are integer microseconds (the resolution of Python's `datetime`); the
 * window is a real number of seconds.
 */
module KnxEvents {
  import opened Wrappers
  import opened PyText

  /** The raw `value`/`data` of a bus event as Python sees it. A missing key is
      `NoneV`; a finite float is its exact value. */
  datatype RawValue =
    | NoneV
    | BoolV(b: bool)
    | IntV(i: int)
    | FloatV(r: real)
    | StrV(s: string)
    | ListV(items: seq<RawValue>)
    | OtherV   // a mapping, tuple or other object that `int()` rejects

  /** One `knx_event`: its `destination` (a group address, if present), `value` and `data`. */
  datatype KnxEvent = KnxEvent(destination: Option<string>, value: RawValue, data: RawValue)

  /** `int(x)` for a float: rounds toward zero. */
  function TruncateTowardZero(x: real): (n: int)
    ensures 0.0 <= x ==> 0 <= n && n as real <= x < n as real + 1.0
    ensures x < 0.0 ==> n <= 0 && n as real - 1.0 < x <= n as real
  {
    if x >= 0.0 then x.Floor else -((-x).Floor)
  }

  /** `int(v)`; `None` stands for the `ValueError`/`TypeError` it raises. */
  function CoerceInt(v: RawValue): Option<int> {
    match v
    case IntV(i) => Some(i)
    case BoolV(b) => Some(if b then 1 else 0)
    case FloatV(x) => Some(TruncateTowardZero(x))
    case StrV(s) => ParseInt(s)
    case _ => None
  }

  /** The value the sensor compares: a one-element list is unwrapped once, then `int()`. */
  function Normalise(v: RawValue): Option<int> {
    if v.ListV? && |v.items| == 1 then CoerceInt(v.items[0]) else CoerceInt(v)
  }

  /** `value`, or `data` only when `value` is `None`. */
  function SelectRaw(ev: KnxEvent): RawValue {
    if ev.value.NoneV? then ev.data else ev.value
  }

  /** The comparable integer of an event, or `None` when the event is ignored for
      lack of a usable value. */
  function ComparableValue(ev: KnxEvent): Option<int> {
    var raw := SelectRaw(ev);
    if raw.NoneV? then None else Normalise(raw)
  }

  /** What the sensor listens for: group address, value and window, each possibly unset. */
  datatype Criterion = Criterion(ga: Option<string>, value: Option<int>, window: Option<real>)

  predicate Matches(c: Criterion, ev: KnxEvent) {
    var v := ComparableValue(ev);
    v.Some? && ev.destination == c.ga && c.value == Some(v.value)
  }

  /** A microsecond count as seconds (`timedelta.total_seconds()`). */
  function DeltaSeconds(us: int): real {
    us as real / 1000000.0
  }

  /** A match at `now` fires when a previous match exists, a window is set and the
      time since the previous match is at most the window. No lower bound. */
  predicate Fires(previous: Option<int>, window: Option<real>, now: int) {
    previous.Some? && window.Some? && DeltaSeconds(now - previous.value) <= window.value
  }

  /** The detector's timing state: last match, exposed native value, last delta (us). */
  datatype Timing = Timing(last: Option<int>, native: Option<int>, delta: Option<int>)

  datatype Verdict = Ignored | NotFired | Fired(delta: int)

  /** One event handled at time `now`. */
  function Observe(t: Timing, c: Criterion, ev: KnxEvent, now: int): (Timing, Verdict) {
    if !Matches(c, ev) then (t, Ignored)
    else
      var delta := if t.last.Some? && c.window.Some? then Some(now - t.last.value) else None;
      (Timing(Some(now), Some(now), delta),
       if Fires(t.last, c.window, now) then Fired(now - t.last.value) else NotFired)
  }

  /** An event leaves the timing state alone when its address differs, its value
      differs, its value cannot be made an integer, or it has neither value nor data. */
  lemma UnmatchedEventChangesNothing(t: Timing, c: Criterion, ev: KnxEvent, now: int)
    requires
      || ev.destination != c.ga
      || (ComparableValue(ev).Some? && c.value != ComparableValue(ev))
      || Normalise(SelectRaw(ev)).None?
      || (ev.value.NoneV? && ev.data.NoneV?)
    ensures Observe(t, c, ev, now) == (t, Ignored)
  {
  }

  /** `value` wins over `data` even when it is falsy (0, False, an empty list). */
  lemma ValueTakesPrecedence(ev: KnxEvent)
    requires !ev.value.NoneV?
    ensures ComparableValue(ev) == Normalise(ev.value)
  {
  }

  /** `[N]` is treated like `N`; a list of any other length, and a list holding a
      list, is rejected. */
  lemma SingletonListUnwrapped(x: RawValue)
    requires !x.ListV?
    ensures Normalise(ListV([x])) == Normalise(x)
    ensures forall xs: seq<RawValue> :: |xs| != 1 ==> Normalise(ListV(xs)) == None
    ensures forall ys: seq<RawValue> :: Normalise(ListV([ListV(ys)])) == None
  {
  }

  /** A string is compared by its integer text, surrounding blanks ignored: " 1 " matches 1. */
  lemma PaddedNumeralParsed()
    ensures Normalise(StrV(" 1 ")) == Some(1)
  {
    ParseIntRoundTrip(1, " ", " ");
    assert IntToText(1) == "1";
    assert " " + "1" + " " == " 1 ";
  }

  /** A string that is not an integer's text is rejected. */
  lemma WordRejected()
    ensures Normalise(StrV("abc")) == None
  {
    StripPadded([], "abc", []);
    assert [] + "abc" + [] == "abc";
    assert !IsDigit("abc"[0]) && "abc"[0] != '_';
  }

  /** An information separator is whitespace to `strip` but not to `int()`, so a
      value padded with one is rejected. */
  lemma SeparatorPadRejected()
    ensures Normalise(StrV("\U{1f}1\U{1f}")) == None
  {
    assert IsInfoSeparator("\U{1f}1\U{1f}"[0]);
  }

  /** `int()` refuses a numeral of more than 4300 digits, leading zeros included,
      so `"0" * k + "1"` is rejected for every `k >= 4300`. */
  lemma LongNumeralRejected(k: nat)
    requires k >= MaxStrDigits
    ensures Normalise(StrV(seq(k, _ => '0') + "1")) == None
  {
    var s := seq(k, _ => '0') + "1";
    assert forall i :: 0 <= i < |s| ==> IsDigit(s[i]) by {
      assert forall i :: 0 <= i < k ==> s[i] == '0';
      assert s[k] == '1';
    }
    PlainNumeralParse(s);
  }

  /** Every match records `now` as both last match and native value, clears then
      recomputes the delta, and fires exactly under `Fires`. */
  lemma MatchRebasesTimestamp(t: Timing, c: Criterion, ev: KnxEvent, now: int)
    requires Matches(c, ev)
    ensures var (t', v) := Observe(t, c, ev, now);
      && t'.last == Some(now) && t'.native == Some(now)
      && (t.last.Some? && c.window.Some? ==> t'.delta == Some(now - t.last.value))
      && (t.last.None? || c.window.None? ==> t'.delta == None)
      && (v.Fired? <==> (t.last.Some? && c.window.Some? && DeltaSeconds(now - t.last.value) <= c.window.value))
      && (v.Fired? ==> v.delta == now - t.last.value)
      && !v.Ignored?
  {
  }

  /** The window bound is inclusive, and a delta below zero (a clock that went back)
      also fires: the code checks no lower bound. */
  lemma BoundaryAndNegativeDeltaFire(previous: int, now: int, w: real)
    requires 0.0 <= w && (DeltaSeconds(now - previous) == w || now < previous)
    ensures Fires(Some(previous), Some(w), now)
  {
  }

  /** A timestamped event. */
  datatype Stamped = Stamped(ev: KnxEvent, at: int)

  /** A run of events handled one after another. */
  function Replay(t: Timing, c: Criterion, evs: seq<Stamped>): (r: (Timing, seq<Verdict>))
    ensures |r.1| == |evs|
    decreases |evs|
  {
    if evs == [] then (t, [])
    else
      var (t0, vs) := Replay(t, c, evs[..|evs| - 1]);
      var (t1, v) := Observe(t0, c, evs[|evs| - 1].ev, evs[|evs| - 1].at);
      (t1, vs + [v])
  }

  /** The time of the last matching event of `evs`, or `start` when none matches. */
  function LastMatch(start: Option<int>, c: Criterion, evs: seq<Stamped>): Option<int>
    decreases |evs|
  {
    if evs == [] then start
    else if Matches(c, evs[|evs| - 1].ev) then Some(evs[|evs| - 1].at)
    else LastMatch(start, c, evs[..|evs| - 1])
  }

  /** Only the most recent match matters: after a run, the stored timestamp is that
      of the last matching event, and event `i` fires exactly when it matches and
      lies within the window of the latest match before it. */
  lemma {:induction false} ReplayTracksLastMatch(t: Timing, c: Criterion, evs: seq<Stamped>)
    ensures Replay(t, c, evs).0.last == LastMatch(t.last, c, evs)
    ensures forall i :: 0 <= i < |evs| ==>
      Replay(t, c, evs).1[i] ==
        if !Matches(c, evs[i].ev) then Ignored
        else if Fires(LastMatch(t.last, c, evs[..i]), c.window, evs[i].at)
        then Fired(evs[i].at - LastMatch(t.last, c, evs[..i]).value)
        else NotFired
    decreases |evs|
  {
    if evs != [] {
      var n := |evs| - 1;
      var front := evs[..n];
      ReplayTracksLastMatch(t, c, front);
      forall i | 0 <= i < n
        ensures front[i] == evs[i] && front[..i] == evs[..i]
      {
      }
      assert evs[..n] == front;
    }
  }

  /** A first match, with no earlier timestamp, never fires. */
  lemma {:induction false} FirstMatchNeverFires(c: Criterion, evs: seq<Stamped>, i: nat)
    requires i < |evs| && Matches(c, evs[i].ev)
    requires forall j :: 0 <= j < i ==> !Matches(c, evs[j].ev)
    ensures Replay(Timing(None, None, None), c, evs).1[i] == NotFired
  {
    ReplayTracksLastMatch(Timing(None, None, None), c, evs);
    NoMatchKeepsStart(None, c, evs[..i]);
  }

  lemma {:induction false} NoMatchKeepsStart(start: Option<int>, c: Criterion, evs: seq<Stamped>)
    requires forall j :: 0 <= j < |evs| ==> !Matches(c, evs[j].ev)
    ensures LastMatch(start, c, evs) == start
    decreases |evs|
  {
    if evs != [] {
      NoMatchKeepsStart(start, c, evs[..|evs| - 1]);
    }
  }

  /** Address 1/2/3, value 1, window 0.7 s: presses at 0 s, 0.5 s and 2 s give no
      fire, a fire with delta 0.5 s, and no fire (1.5 s > 0.7 s) that still
      rebases the timestamp to 2 s. */
  lemma ThreePressScenario()
    ensures var c := Criterion(Some("1/2/3"), Some(1), Some(0.7));
      var press := KnxEvent(Some("1/2/3"), IntV(1), NoneV);
      var evs := [Stamped(press, 0), Stamped(press, 500000), Stamped(press, 2000000)];
      Replay(Timing(None, None, None), c, evs) ==
        (Timing(Some(2000000), Some(2000000), Some(1500000)), [NotFired, Fired(500000), NotFired])
  {
    var c := Criterion(Some("1/2/3"), Some(1), Some(0.7));
    var press := KnxEvent(Some("1/2/3"), IntV(1), NoneV);
    var evs := [Stamped(press, 0), Stamped(press, 500000), Stamped(press, 2000000)];
    var t0 := Timing(None, None, None);
    assert Matches(c, press);
    var one := evs[..1];
    assert one[..0] == [] && one[0] == Stamped(press, 0);
    assert Replay(t0, c, []) == (t0, []);
    var r1 := Replay(t0, c, one);
    assert r1.0 == Timing(Some(0), Some(0), None);
    assert r1.1 == [] + [NotFired] == [NotFired];
    var two := evs[..2];
    assert two[..1] == one && two[1] == Stamped(press, 500000);
    assert DeltaSeconds(500000) == 0.5;
    var r2 := Replay(t0, c, two);
    assert r2.0 == Timing(Some(500000), Some(500000), Some(500000));
    assert r2.1 == [NotFired] + [Fired(500000)] == [NotFired, Fired(500000)];
    assert evs[..2] == two && evs[2] == Stamped(press, 2000000);
    assert DeltaSeconds(1500000) == 1.5;
    var r3 := Replay(t0, c, evs);
    assert r3.1 == [NotFired, Fired(500000)] + [NotFired] == [NotFired, Fired(500000), NotFired];
  }
}
