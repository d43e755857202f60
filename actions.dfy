/**
 * What happens after a double-click: the action file is loaded and parsed, the
 * action list is classified as simple service calls or not, simple lists are run
 * call by call, and the script engine takes over for complex lists and after a
 * failed direct run.
 *
 * The YAML parser, the service registry and the script engine are not modelled:
 * the parser is a function parameter `safeLoad`, and the outcome of each service
 * call, of compiling the script and of running it are given as parameters.
 */
module KnxActions {
  import opened Wrappers
  import opened PyText
  import opened KnxConst

  /** A value produced by `yaml.safe_load`. Mapping keys are strings; a number,
      date or other non-string scalar is kept as the text `str()` gives it. */
  datatype Yaml =
    | YNull
    | YBool(b: bool)
    | YScalar(text: string)
    | YStr(s: string)
    | YList(items: seq<Yaml>)
    | YMap(fields: map<string, Yaml>)

  /** The result of `yaml.safe_load`: a document, or a `YAMLError`. */
  datatype YamlDoc = Malformed | Document(root: Yaml)

  /** Reading the action file: absent, unreadable, or its text. */
  datatype FileRead = Missing | ReadFailed | Contents(text: string)

  // ---------------------------------------------------------------- loading

  /** The action list of the file, or `None` for "no actions": a missing or
      unreadable file, blank text, malformed YAML, a null document, an empty list
      and any document that is not a list. */
  function LoadActions(file: FileRead, safeLoad: string -> YamlDoc): (r: Option<seq<Yaml>>)
    ensures r.Some? <==>
      && file.Contents? && !IsBlank(file.text)
      && safeLoad(file.text).Document? && safeLoad(file.text).root.YList?
      && safeLoad(file.text).root.items != []
    ensures r.Some? ==> r.value == safeLoad(file.text).root.items
  {
    match file
    case Missing => None
    case ReadFailed => None
    case Contents(text) =>
      StripEmptyIffBlank(text);
      if text == [] || Strip(text) == [] then None
      else
        match safeLoad(text)
        case Malformed => None
        case Document(YNull) => None
        case Document(YList(items)) => if items == [] then None else Some(items)
        case Document(_) => None
  }

  /** Characters that end a line in YAML. */
  predicate IsYamlBreak(c: char) {
    c == '\n' || c == '\r' || c == '\U{85}' || c == '\U{2028}' || c == '\U{2029}'
  }

  predicate NoBreak(s: string) {
    forall i :: 0 <= i < |s| ==> !IsYamlBreak(s[i])
  }

  /** Every line of `text` is empty, spaces, or spaces followed by a `#` comment;
      `inComment` says whether the current line is already inside a comment. */
  predicate CommentOnlyFrom(text: string, inComment: bool)
    decreases |text|
  {
    if text == [] then true
    else if IsYamlBreak(text[0]) then CommentOnlyFrom(text[1..], false)
    else if inComment then CommentOnlyFrom(text[1..], true)
    else if text[0] == ' ' then CommentOnlyFrom(text[1..], false)
    else if text[0] == '#' then CommentOnlyFrom(text[1..], true)
    else false
  }

  predicate CommentOnly(text: string) {
    CommentOnlyFrom(text, false)
  }

  /** The YAML fact the loader depends on: a stream of comments and blank lines
      holds no document, so `safe_load` returns `None` for it, or raises (a
      non-printable character is an error even inside a comment). */
  ghost predicate LoadsCommentsAsNothing(safeLoad: string -> YamlDoc) {
    forall text :: CommentOnly(text) ==> safeLoad(text) == Document(YNull) || safeLoad(text) == Malformed
  }

  predicate CommentLine(line: string) {
    NoBreak(line) && (line == [] || line[0] == '#')
  }

  lemma {:induction false} CommentRunsToLineEnd(s: string, rest: string)
    requires NoBreak(s)
    ensures CommentOnlyFrom(s + rest, true) == CommentOnlyFrom(rest, true)
    decreases |s|
  {
    if s == [] {
      assert s + rest == rest;
    } else {
      assert (s + rest)[0] == s[0] && (s + rest)[1..] == s[1..] + rest;
      CommentRunsToLineEnd(s[1..], rest);
    }
  }

  /** Text made of comment lines and empty lines is comment-only. */
  lemma {:induction false} CommentLinesAreCommentOnly(lines: seq<string>)
    requires forall i :: 0 <= i < |lines| ==> CommentLine(lines[i])
    ensures CommentOnly(Unlines(lines))
    decreases |lines|
  {
    if lines != [] {
      var l := lines[0];
      var rest := Unlines(lines[1..]);
      CommentLinesAreCommentOnly(lines[1..]);
      assert Unlines(lines) == l + ("\n" + rest);
      if l == [] {
        assert Unlines(lines) == "\n" + rest;
      } else {
        var t := Unlines(lines);
        assert t[0] == '#' && t[1..] == l[1..] + ("\n" + rest);
        CommentRunsToLineEnd(l[1..], "\n" + rest);
      }
      assert ("\n" + rest)[1..] == rest;
    }
  }

  lemma NoBreakConcat(a: string, b: string)
    requires NoBreak(a) && NoBreak(b)
    ensures NoBreak(a + b)
  {
    assert forall i :: |a| <= i < |a + b| ==> (a + b)[i] == b[i - |a|];
  }

  /** A comment line followed by text without a line break is a comment line. */
  lemma CommentLineExtends(a: string, b: string)
    requires CommentLine(a) && a != [] && NoBreak(b)
    ensures CommentLine(a + b)
  {
    NoBreakConcat(a, b);
    assert (a + b)[0] == a[0];
  }

  lemma RuleLineIsComment()
    ensures CommentLine("#" + Repeat('-', 75))
  {
    CommentLineExtends("#", Repeat('-', 75));
  }

  lemma TitleLineIsComment()
    ensures CommentLine("# Åtgärder för KNX" + " Dubbelklicksdetektor")
  {
    CommentLineExtends("# Åtgärder för KNX", " Dubbelklicksdetektor");
  }

  lemma InstanceLineIsComment()
    ensures CommentLine("# Denna fil är kopplad till en" + " specifik instans av KNX" + " Dubbelklicksdetektor.")
  {
    CommentLineExtends("# Denna fil är kopplad till en", " specifik instans av KNX");
    CommentLineExtends("# Denna fil är kopplad till en" + " specifik instans av KNX", " Dubbelklicksdetektor.");
  }

  lemma InstructionLineIsComment()
    ensures CommentLine("# Lägg till dina önskade Home" + " Assistant-åtgärder i YAML-format" + " nedan.")
  {
    CommentLineExtends("# Lägg till dina önskade Home", " Assistant-åtgärder i YAML-format");
    CommentLineExtends("# Lägg till dina önskade Home" + " Assistant-åtgärder i YAML-format", " nedan.");
  }

  lemma ExampleTitleLinesAreComments()
    ensures CommentLine("#") && CommentLine("") && CommentLine("# Exempel: Tänd en switch")
  {
  }

  lemma ExampleCallLinesAreComments()
    ensures CommentLine("# - service: switch.turn_on") && CommentLine("#   target:")
    ensures CommentLine("#     entity_id:" + " switch.min_switch_entitet")
  {
    CommentLineExtends("#     entity_id:", " switch.min_switch_entitet");
  }

  lemma DefaultLinesAreComments()
    ensures forall i :: 0 <= i < |DefaultActionsLines| ==> CommentLine(DefaultActionsLines[i])
  {
    RuleLineIsComment();
    TitleLineIsComment();
    InstanceLineIsComment();
    InstructionLineIsComment();
    ExampleTitleLinesAreComments();
    ExampleCallLinesAreComments();
  }

  /** The default action text is only comments and blank lines, so a file holding
      it loads as "no actions". */
  lemma DefaultFileHasNoActions(safeLoad: string -> YamlDoc)
    requires LoadsCommentsAsNothing(safeLoad)
    ensures CommentOnly(DefaultActionsFileContent)
    ensures LoadActions(Contents(DefaultActionsFileContent), safeLoad) == None
  {
    DefaultLinesAreComments();
    CommentLinesAreCommentOnly(DefaultActionsLines);
  }

  /** The text a new action file is created with: a header naming the instance,
      then the default action text. */
  function NewActionsFileText(title: string, entryId: string, fileName: string, path: string): string {
    Unlines(HeaderLines(title, entryId, fileName, path)) + DefaultActionsFileContent
  }

  function HeaderLines(title: string, entryId: string, fileName: string, path: string): seq<string> {
    [ "# Åtgärdsfil för KNX" + " Dubbelklicksdetektor instans: '" + title + "'",
      "# Entry ID: " + entryId,
      "# Filnamn: " + fileName,
      "# Sökväg till denna fil: " + path,
      "# " + Repeat('-', 75),
      "" ]
  }

  lemma OpeningLineIsComment(title: string)
    requires NoBreak(title)
    ensures CommentLine("# Åtgärdsfil för KNX" + " Dubbelklicksdetektor instans: '" + title + "'")
  {
    var opening := "# Åtgärdsfil för KNX" + " Dubbelklicksdetektor instans: '";
    CommentLineExtends("# Åtgärdsfil för KNX", " Dubbelklicksdetektor instans: '");
    CommentLineExtends(opening, title);
    CommentLineExtends(opening + title, "'");
  }

  lemma FieldLinesAreComments(entryId: string, fileName: string, path: string)
    requires NoBreak(entryId) && NoBreak(fileName) && NoBreak(path)
    ensures CommentLine("# Entry ID: " + entryId) && CommentLine("# Filnamn: " + fileName)
    ensures CommentLine("# Sökväg till denna fil: " + path) && CommentLine("# " + Repeat('-', 75))
  {
    CommentLineExtends("# Entry ID: ", entryId);
    CommentLineExtends("# Filnamn: ", fileName);
    CommentLineExtends("# Sökväg till denna fil: ", path);
    CommentLineExtends("# ", Repeat('-', 75));
  }

  /** A freshly created action file loads as "no actions", provided the instance
      title, entry id, file name and path hold no line break. */
  lemma FreshFileHasNoActions(title: string, entryId: string, fileName: string, path: string,
                              safeLoad: string -> YamlDoc)
    requires NoBreak(title) && NoBreak(entryId) && NoBreak(fileName) && NoBreak(path)
    requires LoadsCommentsAsNothing(safeLoad)
    ensures LoadActions(Contents(NewActionsFileText(title, entryId, fileName, path)), safeLoad) == None
  {
    var head := HeaderLines(title, entryId, fileName, path);
    OpeningLineIsComment(title);
    FieldLinesAreComments(entryId, fileName, path);
    assert CommentLine("");
    DefaultLinesAreComments();
    var lines := head + DefaultActionsLines;
    assert forall i :: 0 <= i < |lines| ==> CommentLine(lines[i]) by {
      assert forall i :: 0 <= i < |head| ==> lines[i] == head[i];
      assert forall i :: |head| <= i < |lines| ==> lines[i] == DefaultActionsLines[i - |head|];
    }
    UnlinesAppend(head, DefaultActionsLines);
    CommentLinesAreCommentOnly(lines);
  }

  // ---------------------------------------------------------- classification

  predicate HasControlFlowKey(fields: map<string, Yaml>) {
    exists i :: 0 <= i < |ControlFlowKeys| && ControlFlowKeys[i] in fields
  }

  /** A plain service call: a mapping with `service` and no control-flow key. */
  predicate IsSimpleAction(a: Yaml) {
    a.YMap? && "service" in a.fields && !HasControlFlowKey(a.fields)
  }

  predicate AllSimple(actions: seq<Yaml>) {
    |actions| > 0 && forall i :: 0 <= i < |actions| ==> IsSimpleAction(actions[i])
  }

  /** Decides whether every entry is a plain service call, stopping at the first
      entry that is not. */
  method Classify(actions: seq<Yaml>) returns (simple: bool)
    ensures simple == AllSimple(actions)
  {
    simple := true;
    if |actions| == 0 {
      simple := false;
    } else {
      var i := 0;
      while i < |actions|
        invariant 0 <= i <= |actions|
        invariant simple
        invariant forall j :: 0 <= j < i ==> IsSimpleAction(actions[j])
      {
        if !IsSimpleAction(actions[i]) {
          simple := false;
          break;
        }
        i := i + 1;
      }
    }
  }

  /** `[{service: light.turn_on}]` is simple; any entry with `delay` makes a list complex. */
  lemma ClassifierExamples(extra: map<string, Yaml>)
    ensures AllSimple([YMap(map["service" := YStr("light.turn_on")])])
    ensures !AllSimple([YMap(extra["delay" := YScalar("5")])])
  {
    var m := map["service" := YStr("light.turn_on")];
    assert !HasControlFlowKey(m) by {
      forall i | 0 <= i < |ControlFlowKeys|
        ensures ControlFlowKeys[i] !in m
      {
        assert m.Keys == {"service"};
      }
    }
    assert ControlFlowKeys[1] == "delay";
    assert [YMap(extra["delay" := YScalar("5")])][0].fields == extra["delay" := YScalar("5")];
  }

  // ------------------------------------------------------------ direct calls

  /** One call to the service registry. */
  datatype ServiceCall = ServiceCall(domain: string, service: string, data: Yaml)

  /** `str(v)` of a `service` value. A list or mapping is given the text of an
      empty one. */
  function ServiceText(v: Yaml): string {
    match v
    case YStr(s) => s
    case YNull => "None"
    case YBool(b) => if b then "True" else "False"
    case YScalar(text) => text
    case YList(_) => "[]"
    case YMap(_) => "{}"
  }

  /** The `data` mapping of an action, or the empty mapping. */
  function DataFields(action: map<string, Yaml>): map<string, Yaml> {
    if "data" in action && action["data"].YMap? then action["data"].fields else map[]
  }

  /** The `target` of an action when it is a mapping, or the empty mapping. */
  function TargetFields(action: map<string, Yaml>): map<string, Yaml> {
    if "target" in action && action["target"].YMap? then action["target"].fields else map[]
  }

  /** The service data of one action: a copy of `data` (default `{}`), with a
      mapping `target` merged over it, then a string `target` and a top-level
      `entity_id` each stored as `entity_id` only when that key is still absent.
      `None` stands for the error Python raises before the call: a `data` that is
      not a mapping or a list has no `copy()`, and a list has no `update` and
      takes no string key. */
  function ServiceData(action: map<string, Yaml>): Option<Yaml> {
    var data := if "data" in action then action["data"] else YMap(map[]);
    var target := if "target" in action then action["target"] else YMap(map[]);
    match data
    case YMap(d) =>
      var merged :=
        if target.YMap? then d + target.fields
        else if target.YStr? && "entity_id" !in d then d["entity_id" := target]
        else d;
      Some(YMap(
        if "entity_id" in action && "entity_id" !in merged then merged["entity_id" := action["entity_id"]]
        else merged))
    case YList(xs) =>
      if target.YMap? then None
      else if target.YStr? && YStr("entity_id") !in xs then None
      else if "entity_id" in action && YStr("entity_id") !in xs then None
      else Some(data)
    case _ => None
  }

  /** How the service data of an action with mapping (or no) `data` is made up:
      target keys override data keys, no key comes from elsewhere except
      `entity_id`, and `entity_id` comes from a mapping target, else from data,
      else from a string target, else from the action's own `entity_id`. */
  lemma ServiceDataPrecedence(action: map<string, Yaml>)
    requires "data" !in action || action["data"].YMap?
    ensures ServiceData(action).Some? && ServiceData(action).value.YMap?
    ensures var out := ServiceData(action).value.fields;
      var d := DataFields(action);
      var t := TargetFields(action);
      var stringTarget := "target" in action && action["target"].YStr?;
      && (forall k :: k in t ==> k in out && out[k] == t[k])
      && (forall k :: k in d && k !in t ==> k in out && out[k] == d[k])
      && (forall k :: k in out ==> k in d || k in t || k == "entity_id")
      && ("entity_id" in out <==> "entity_id" in d || "entity_id" in t || stringTarget || "entity_id" in action)
      && ("entity_id" !in d && "entity_id" !in t && stringTarget ==> out["entity_id"] == action["target"])
      && ("entity_id" !in d && "entity_id" !in t && !stringTarget && "entity_id" in action ==>
            out["entity_id"] == action["entity_id"])
  {
  }

  /** Builds the service data of one action step by step, as the loop body does. */
  method BuildServiceData(action: map<string, Yaml>) returns (out: Option<Yaml>)
    ensures out == ServiceData(action)
  {
    var data := if "data" in action then action["data"] else YMap(map[]);
    var target := if "target" in action then action["target"] else YMap(map[]);
    if data.YMap? {
      var serviceData := data.fields;
      if target.YMap? {
        serviceData := serviceData + target.fields;
      } else if target.YStr? && "entity_id" !in serviceData {
        serviceData := serviceData["entity_id" := target];
      }
      if "entity_id" in action && "entity_id" !in serviceData {
        serviceData := serviceData["entity_id" := action["entity_id"]];
      }
      out := Some(YMap(serviceData));
    } else if data.YList? {
      var xs := data.items;
      if target.YMap? {
        out := None;
      } else if target.YStr? && YStr("entity_id") !in xs {
        out := None;
      } else if "entity_id" in action && YStr("entity_id") !in xs {
        out := None;
      } else {
        out := Some(data);
      }
    } else {
      out := None;
    }
  }

  predicate HasService(a: Yaml) {
    a.YMap? && "service" in a.fields
  }

  predicate AllHaveService(actions: seq<Yaml>) {
    forall i :: 0 <= i < |actions| ==> HasService(actions[i])
  }

  /** What one entry of a direct run does: raise before calling, stop for a
      service text with no dot (no call), or call and succeed or fail. */
  datatype EntryStep = Raises | NoDot | Called(call: ServiceCall, succeeded: bool)

  function StepOf(action: Yaml, succeeded: bool): EntryStep
    requires HasService(action)
  {
    var text := ServiceText(action.fields["service"]);
    match ServiceData(action.fields)
    case None => Raises
    case Some(data) =>
      match SplitAtFirstDot(text)
      case None => NoDot
      case Some((domain, service)) => Called(ServiceCall(domain, service, data), succeeded)
  }

  /** The step of every entry; `callOk(j)` is the outcome of entry `j`'s call. */
  function Steps(actions: seq<Yaml>, callOk: nat -> bool): (steps: seq<EntryStep>)
    requires AllHaveService(actions)
    ensures |steps| == |actions|
    ensures forall j :: 0 <= j < |actions| ==> steps[j] == StepOf(actions[j], callOk(j))
  {
    seq(|actions|, j requires 0 <= j < |actions| && AllHaveService(actions) => StepOf(actions[j], callOk(j)))
  }

  predicate StepSucceeds(s: EntryStep) {
    s.Called? && s.succeeded
  }

  /** How a direct run ended: every call succeeded, or it stopped at `index`
      (a failed call or a service text without a dot), or the error raised while
      preparing entry `index` left the handler. */
  datatype DirectStatus = AllSucceeded | FailedAt(index: nat) | RaisedAt(index: nat)

  /** The calls a direct run made, in order, and how it ended. */
  datatype DirectRun = DirectRun(calls: seq<ServiceCall>, status: DirectStatus)

  /** The direct run over the entries from `i` on, given each entry's step. */
  function DirectFrom(steps: seq<EntryStep>, i: nat): DirectRun
    requires i <= |steps|
    decreases |steps| - i
  {
    if i == |steps| then DirectRun([], AllSucceeded)
    else
      match steps[i]
      case Raises => DirectRun([], RaisedAt(i))
      case NoDot => DirectRun([], FailedAt(i))
      case Called(call, ok) =>
        if !ok then DirectRun([call], FailedAt(i))
        else
          var rest := DirectFrom(steps, i + 1);
          DirectRun([call] + rest.calls, rest.status)
  }

  /** A direct run never makes more calls than there are entries left. */
  lemma {:induction false} DirectCallCount(steps: seq<EntryStep>, i: nat)
    requires i <= |steps|
    ensures i + |DirectFrom(steps, i).calls| <= |steps|
    decreases |steps| - i
  {
    if i < |steps| && StepSucceeds(steps[i]) {
      DirectCallCount(steps, i + 1);
    }
  }

  /** Calls are made strictly in list order: the `j`-th call is the one built from
      entry `i + j`. */
  lemma {:induction false} DirectCallsInListOrder(steps: seq<EntryStep>, i: nat, j: nat)
    requires i <= |steps| && j < |DirectFrom(steps, i).calls|
    ensures i + j < |steps| && steps[i + j].Called? && steps[i + j].call == DirectFrom(steps, i).calls[j]
    decreases |steps| - i
  {
    DirectCallCount(steps, i);
    if j > 0 {
      DirectCallsInListOrder(steps, i + 1, j - 1);
      assert (i + 1) + (j - 1) == i + j;
    }
  }

  /** A direct run stops at the first entry that does not succeed, and later
      entries are never called; it reports success exactly when every entry's
      call succeeded. */
  lemma {:induction false} DirectStopsAtFirstFailure(steps: seq<EntryStep>, i: nat)
    requires i <= |steps|
    ensures var r := DirectFrom(steps, i);
      && (r.status.AllSucceeded? <==> forall j :: i <= j < |steps| ==> StepSucceeds(steps[j]))
      && (r.status.AllSucceeded? ==> i + |r.calls| == |steps|)
      && (!r.status.AllSucceeded? ==>
            var k := r.status.index;
            && i <= k < |steps|
            && (forall j :: i <= j < k ==> StepSucceeds(steps[j]))
            && !StepSucceeds(steps[k])
            && (r.status.RaisedAt? <==> steps[k].Raises?)
            && i + |r.calls| == k + (if steps[k].Called? then 1 else 0))
    decreases |steps| - i
  {
    if i < |steps| && StepSucceeds(steps[i]) {
      DirectStopsAtFirstFailure(steps, i + 1);
    }
  }

  /** A step that does not succeed ends the run: at most that entry's call is
      made, and the status names the entry. */
  lemma DirectFromStops(steps: seq<EntryStep>, i: nat, before: seq<ServiceCall>)
    requires i < |steps| && !StepSucceeds(steps[i])
    ensures DirectFrom(steps, i).calls == (if steps[i].Called? then [steps[i].call] else [])
    ensures before + DirectFrom(steps, i).calls == (if steps[i].Called? then before + [steps[i].call] else before)
    ensures DirectFrom(steps, i).status == (if steps[i].Raises? then RaisedAt(i) else FailedAt(i))
  {
    if !steps[i].Called? {
      assert before + [] == before;
    }
  }

  /** A step that succeeds adds its call and leaves the rest to the next entry. */
  lemma DirectFromContinues(steps: seq<EntryStep>, i: nat, before: seq<ServiceCall>)
    requires i < |steps| && StepSucceeds(steps[i])
    ensures DirectFrom(steps, i).calls == [steps[i].call] + DirectFrom(steps, i + 1).calls
    ensures before + DirectFrom(steps, i).calls == (before + [steps[i].call]) + DirectFrom(steps, i + 1).calls
    ensures DirectFrom(steps, i).status == DirectFrom(steps, i + 1).status
  {
  }

  /** An entry raises exactly when its data cannot be built, makes no call exactly
      when its data can be built but its service text has no dot, and otherwise
      calls the service named by the text around the first dot with that data. */
  lemma StepOfMeaning(action: Yaml, succeeded: bool)
    requires HasService(action)
    ensures var step := StepOf(action, succeeded);
      var text := ServiceText(action.fields["service"]);
      && (step.Raises? <==> ServiceData(action.fields).None?)
      && (step.NoDot? <==> ServiceData(action.fields).Some? && '.' !in text)
      && (step.Called? ==>
            && Some(step.call.data) == ServiceData(action.fields)
            && '.' !in step.call.domain && step.call.domain + "." + step.call.service == text
            && step.succeeded == succeeded)
  {
  }

  /** One entry of a direct run: build its service data, split its service text
      at the first dot and call the service, whose outcome is `succeeded`. */
  method RunEntry(action: Yaml, succeeded: bool) returns (step: EntryStep)
    requires HasService(action)
    ensures step == StepOf(action, succeeded)
  {
    var text := ServiceText(action.fields["service"]);
    var data := BuildServiceData(action.fields);
    if data.None? {
      return Raises;
    }
    var split := SplitAtFirstDot(text);
    if split.None? {
      return NoDot;
    }
    step := Called(ServiceCall(split.value.0, split.value.1, data.value), succeeded);
  }

  /** Runs the actions one by one until one fails. */
  method RunDirect(actions: seq<Yaml>, callOk: nat -> bool) returns (run: DirectRun)
    requires AllHaveService(actions)
    ensures run == DirectFrom(Steps(actions, callOk), 0)
  {
    ghost var steps := Steps(actions, callOk);
    ghost var target := DirectFrom(steps, 0);
    var calls: seq<ServiceCall> := [];
    var status := AllSucceeded;
    var i := 0;
    while i < |actions|
      invariant 0 <= i <= |actions|
      invariant calls + DirectFrom(steps, i).calls == target.calls
      invariant DirectFrom(steps, i).status == target.status
      invariant status == AllSucceeded
    {
      var step := RunEntry(actions[i], callOk(i));
      assert step == steps[i];
      ghost var before := calls;
      if !(step.Called? && step.succeeded) {
        if step.Called? {
          calls := calls + [step.call];
        }
        status := if step.Raises? then RaisedAt(i) else FailedAt(i);
        DirectFromStops(steps, i, before);
        break;
      }
      calls := calls + [step.call];
      DirectFromContinues(steps, i, before);
      i := i + 1;
    }
    if status.AllSucceeded? {
      assert calls + [] == calls;
    }
    run := DirectRun(calls, status);
  }

  // -------------------------------------------------------- script fallback

  /** The script engine runs when the list is not empty and it is not the case
      that the list is simple and every direct call succeeded. */
  predicate UsesScript(actions: seq<Yaml>, simple: bool, directOk: bool) {
    !(simple && directOk && actions != []) && actions != []
  }

  /** Compiling the list into a script: nothing for an empty list, and nothing when
      the engine rejects it. */
  function CompileScript(actions: seq<Yaml>, compiles: bool): Option<seq<Yaml>>
  {
    if actions == [] then None else if compiles then Some(actions) else None
  }

  /** The variables a script run receives. */
  datatype TriggerVars = TriggerVars(
    platform: string,
    groupAddress: Option<string>,
    value: int,
    eventTimeUtc: int,
    timeDifferenceSeconds: real,
    nameSuffix: string,
    configEntryName: string,
    actionsFile: string)

  /** What became of the script engine: not used, compile failed, or a run of the
      given actions (its success or failure is only logged). */
  datatype ScriptUse = NoScript | CompileFailed | ScriptRan(actions: seq<Yaml>, vars: TriggerVars, ok: bool)

  /** What a fire did with the loaded actions. */
  datatype Dispatch = NothingToRun | Ran(simple: bool, direct: Option<DirectRun>, script: ScriptUse)

  /** The whole dispatch for the loaded actions. */
  function DispatchOf(loaded: Option<seq<Yaml>>, callOk: nat -> bool, compiles: bool, runOk: bool,
                      vars: TriggerVars): Dispatch
  {
    if loaded.None? || loaded.value == [] then NothingToRun
    else
      var actions := loaded.value;
      var simple := AllSimple(actions);
      var direct := if simple then Some(DirectFrom(Steps(actions, callOk), 0)) else None;
      if direct.Some? && direct.value.status.RaisedAt? then Ran(simple, direct, NoScript)
      else
        var directOk := direct.Some? && direct.value.status.AllSucceeded?;
        var script :=
          if !UsesScript(actions, simple, directOk) then NoScript
          else match CompileScript(actions, compiles)
            case None => CompileFailed
            case Some(unit) => ScriptRan(unit, vars, runOk);
        Ran(simple, direct, script)
  }

  /** "No actions" means no call and no script. */
  lemma NoActionsNothingRuns(loaded: Option<seq<Yaml>>, callOk: nat -> bool, compiles: bool, runOk: bool,
                             vars: TriggerVars)
    requires loaded.None? || loaded.value == []
    ensures DispatchOf(loaded, callOk, compiles, runOk, vars) == NothingToRun
  {
  }

  /** Direct calls are tried exactly for simple lists; the script gets the whole
      list (a prefix that already succeeded included) exactly when the list is
      complex or a direct call failed, unless preparing a call raised. */
  lemma ScriptFallbackRule(actions: seq<Yaml>, callOk: nat -> bool, compiles: bool, runOk: bool,
                           vars: TriggerVars)
    requires actions != []
    ensures var d := DispatchOf(Some(actions), callOk, compiles, runOk, vars);
      && d.Ran?
      && (d.direct.Some? <==> AllSimple(actions))
      && (d.script != NoScript <==>
            (!AllSimple(actions) || DirectFrom(Steps(actions, callOk), 0).status.FailedAt?))
      && (d.script != NoScript ==>
            (compiles ==> d.script == ScriptRan(actions, vars, runOk)) && (!compiles ==> d.script == CompileFailed))
  {
  }

  /** Carries out the dispatch: classify, try the direct calls for a simple list,
      and fall back on the script engine. */
  method RunActions(loaded: Option<seq<Yaml>>, callOk: nat -> bool, compiles: bool, runOk: bool,
                    vars: TriggerVars) returns (d: Dispatch)
    ensures d == DispatchOf(loaded, callOk, compiles, runOk, vars)
  {
    if loaded.None? || loaded.value == [] {
      return NothingToRun;
    }
    var actions := loaded.value;
    var simple := Classify(actions);
    var directOk := false;
    var direct: Option<DirectRun> := None;
    if simple {
      directOk := true;
      var run := RunDirect(actions, callOk);
      direct := Some(run);
      if run.status.RaisedAt? {
        return Ran(simple, direct, NoScript);
      }
      directOk := run.status.AllSucceeded?;
    }
    var script := NoScript;
    if UsesScript(actions, simple, directOk) {
      var unit := CompileScript(actions, compiles);
      if unit.Some? {
        script := ScriptRan(unit.value, vars, runOk);
      } else {
        script := CompileFailed;
      }
    }
    d := Ran(simple, direct, script);
  }

  /** `{service: a.b, data: {x: 1}}` */
  function ExampleCallWithData(): Yaml {
    YMap(map["service" := YStr("a.b"), "data" := YMap(map["x" := YScalar("1")])])
  }

  /** `{service: c.d}` */
  function ExamplePlainCall(): Yaml {
    YMap(map["service" := YStr("c.d")])
  }

  lemma ExampleCallsAreSimple()
    ensures AllSimple([ExampleCallWithData(), ExamplePlainCall()])
  {
    var a := ExampleCallWithData();
    var c := ExamplePlainCall();
    forall m: map<string, Yaml> | m == a.fields || m == c.fields
      ensures !HasControlFlowKey(m)
    {
      forall i | 0 <= i < |ControlFlowKeys|
        ensures ControlFlowKeys[i] !in m
      {
        assert m.Keys <= {"service", "data"};
      }
    }
  }

  lemma ExampleCallWithDataStep()
    ensures StepOf(ExampleCallWithData(), true) == Called(ServiceCall("a", "b", YMap(map["x" := YScalar("1")])), true)
  {
    var a := ExampleCallWithData();
    var x := map["x" := YScalar("1")];
    assert "target" !in a.fields && "entity_id" !in a.fields && a.fields["data"] == YMap(x);
    assert x + map[] == x;
    assert ServiceData(a.fields) == Some(YMap(x));
    SplitJoinRoundTrip("a", "b");
    assert "a" + "." + "b" == "a.b";
  }

  lemma ExamplePlainCallStep()
    ensures StepOf(ExamplePlainCall(), true) == Called(ServiceCall("c", "d", YMap(map[])), true)
  {
    var c := ExamplePlainCall();
    assert "target" !in c.fields && "entity_id" !in c.fields && "data" !in c.fields;
    var empty: map<string, Yaml> := map[];
    assert empty + empty == empty;
    assert ServiceData(c.fields) == Some(YMap(map[]));
    SplitJoinRoundTrip("c", "d");
    assert "c" + "." + "d" == "c.d";
  }

  /** Two simple actions whose calls both succeed run directly, with `data`
      passed on and `{}` for the entry without it, and the script is not used. */
  lemma TwoSimpleCallsScenario(callOk: nat -> bool, compiles: bool, runOk: bool, vars: TriggerVars)
    requires callOk(0) && callOk(1)
    ensures DispatchOf(Some([ExampleCallWithData(), ExamplePlainCall()]), callOk, compiles, runOk, vars) ==
      Ran(true, Some(DirectRun([ServiceCall("a", "b", YMap(map["x" := YScalar("1")])),
                                ServiceCall("c", "d", YMap(map[]))], AllSucceeded)), NoScript)
  {
    var actions := [ExampleCallWithData(), ExamplePlainCall()];
    var ok := callOk;
    ExampleCallsAreSimple();
    ExampleCallWithDataStep();
    ExamplePlainCallStep();
    var steps := Steps(actions, ok);
    assert steps[0] == StepOf(actions[0], true) && steps[1] == StepOf(actions[1], true);
    assert DirectFrom(steps, 2) == DirectRun([], AllSucceeded);
    assert DirectFrom(steps, 1) == DirectRun([ServiceCall("c", "d", YMap(map[]))], AllSucceeded);
    var expected := DirectRun([ServiceCall("a", "b", YMap(map["x" := YScalar("1")])),
                               ServiceCall("c", "d", YMap(map[]))], AllSucceeded);
    assert DirectFrom(steps, 0) == expected;
    assert !UsesScript(actions, true, true);
  }
}
