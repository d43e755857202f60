/** The integration's constants: defaults, the control-flow keys that make an
    action "complex", and the text a new action file starts with. */
module KnxConst {

  /** The integration's domain; also the `platform` reported to scripts. */
  const Domain: string := "knx_doubleclick"

  const DefaultKnxValue: int := 1
  /** The double-click window in seconds (0.7), taken as an exact real. */
  const DefaultWindowSeconds: real := 0.7
  const DefaultNameSuffix: string := "Min Knapp"

  /** The directory, under the configuration directory, holding the action files. */
  const ActionsDirBasename: string := "knx_doubleclick_actions"

  /** Keys whose presence makes an action more than a plain service call. */
  const ControlFlowKeys: seq<string> := [
    "condition", "delay", "repeat", "choose", "sequence",
    "wait_template", "wait_for_trigger", "event", "event_template",
    "variables", "stop", "parallel", "scene"
  ]

  /** `n` copies of `c`. */
  function Repeat(c: char, n: nat): (s: string)
    ensures |s| == n && forall i :: 0 <= i < n ==> s[i] == c
  {
    if n == 0 then [] else [c] + Repeat(c, n - 1)
  }

  /** The lines joined, each one followed by a line feed. */
  function Unlines(lines: seq<string>): string {
    if lines == [] then [] else lines[0] + "\n" + Unlines(lines[1..])
  }

  lemma {:induction false} UnlinesAppend(a: seq<string>, b: seq<string>)
    ensures Unlines(a + b) == Unlines(a) + Unlines(b)
    decreases |a|
  {
    if a != [] {
      assert (a + b)[1..] == a[1..] + b;
      UnlinesAppend(a[1..], b);
    } else {
      assert a + b == b;
    }
  }

  /** The default action text, line by line (long lines are written in pieces). */
  const DefaultActionsLines: seq<string> := [
    "#" + Repeat('-', 75),
    "# Åtgärder för KNX" + " Dubbelklicksdetektor",
    "#",
    "# Denna fil är kopplad till en" + " specifik instans av KNX" + " Dubbelklicksdetektor.",
    "# Lägg till dina önskade Home" + " Assistant-åtgärder i YAML-format" + " nedan.",
    "#" + Repeat('-', 75),
    "",
    "# Exempel: Tänd en switch",
    "# - service: switch.turn_on",
    "#   target:",
    "#     entity_id:" + " switch.min_switch_entitet"
  ]

  const DefaultActionsFileContent: string := Unlines(DefaultActionsLines)

  /** The control-flow set has exactly thirteen distinct names. */
  lemma ControlFlowKeysAreThirteenNames()
    ensures |ControlFlowKeys| == 13
    ensures forall i, j :: 0 <= i < j < |ControlFlowKeys| ==> ControlFlowKeys[i] != ControlFlowKeys[j]
  {
  }

  /** The keys of a plain service call are not control-flow keys. */
  lemma ServiceKeysAreNotControlFlow()
    ensures "service" !in ControlFlowKeys && "data" !in ControlFlowKeys
    ensures "target" !in ControlFlowKeys && "entity_id" !in ControlFlowKeys
  {
  }

  /** The defaults: listen for value 1, a non-negative 0.7 s window, suffix "Min Knapp". */
  lemma DefaultsAreSane()
    ensures DefaultKnxValue == 1
    ensures 0.0 <= DefaultWindowSeconds && DefaultWindowSeconds * 10.0 == 7.0
    ensures DefaultNameSuffix == "Min Knapp" && |DefaultNameSuffix| == 9
  {
  }
}
