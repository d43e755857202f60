/**
 * The configuration a detector instance reads: the settings stored in its config
 * entry (`data`, set up once, and `options`, edited later), the sensor's name and
 * the per-instance action file.
 */
module KnxConfig {
  import opened Wrappers
  import opened KnxConst

  /** The settings of one entry; `None` is a key that is absent (or holds `None`). */
  datatype Settings = Settings(
    groupAddress: Option<string>,
    knxValue: Option<int>,
    windowSeconds: Option<real>,
    nameSuffix: Option<string>)

  /** A config entry: its id, its title and its two settings dictionaries. */
  datatype ConfigEntry = ConfigEntry(entryId: string, title: string, data: Settings, options: Settings)

  /** The value of one key after `{**under, **over}`. */
  function Prefer<T>(over: Option<T>, under: Option<T>): Option<T> {
    if over.Some? then over else under
  }

  /** The merged configuration: each key of `options` overrides the same key of `data`. */
  function Combined(e: ConfigEntry): Settings {
    Settings(
      Prefer(e.options.groupAddress, e.data.groupAddress),
      Prefer(e.options.knxValue, e.data.knxValue),
      Prefer(e.options.windowSeconds, e.data.windowSeconds),
      Prefer(e.options.nameSuffix, e.data.nameSuffix))
  }

  /** Options win wherever they hold a key; `data` shows through elsewhere, and
      merging the options in again changes nothing. */
  lemma OptionsOverrideData(e: ConfigEntry)
    ensures var s := Combined(e);
      && (e.options.groupAddress.Some? ==> s.groupAddress == e.options.groupAddress)
      && (e.options.groupAddress.None? ==> s.groupAddress == e.data.groupAddress)
      && (e.options.knxValue.Some? ==> s.knxValue == e.options.knxValue)
      && (e.options.knxValue.None? ==> s.knxValue == e.data.knxValue)
      && (e.options.windowSeconds.Some? ==> s.windowSeconds == e.options.windowSeconds)
      && (e.options.windowSeconds.None? ==> s.windowSeconds == e.data.windowSeconds)
    ensures Combined(e.(data := Combined(e))) == Combined(e)
    ensures Combined(e.(options := Settings(None, None, None, None))) == e.data
  {
  }

  /** The name suffix: read from `data` only, defaulting to "Min Knapp" when absent. */
  function NameSuffixOf(e: ConfigEntry): string {
    e.data.nameSuffix.GetOr(DefaultNameSuffix)
  }

  /** The sensor's name. */
  function SensorName(e: ConfigEntry): string {
    "KNX Dubbelklick Lyssnare " + NameSuffixOf(e)
  }

  /** The name carries the suffix from `data` (or the default), and editing the
      options never renames the sensor. */
  lemma SensorNameFromDataOnly(e: ConfigEntry, options: Settings)
    ensures SensorName(e) == "KNX Dubbelklick Lyssnare " + (if e.data.nameSuffix.Some? then e.data.nameSuffix.value else "Min Knapp")
    ensures SensorName(e.(options := options)) == SensorName(e)
  {
  }

  /** The listener is started only for a non-empty group address. */
  predicate ListensFor(ga: Option<string>) {
    ga.Some? && ga.value != ""
  }

  /** The text slugified for the file name: the name suffix, or the default when
      the suffix is absent or empty. */
  function FileStem(e: ConfigEntry): (stem: string)
    ensures stem != []
    ensures e.data.nameSuffix.Some? && e.data.nameSuffix.value != [] ==> stem == e.data.nameSuffix.value
    ensures !(e.data.nameSuffix.Some? && e.data.nameSuffix.value != []) ==> stem == DefaultNameSuffix
  {
    if e.data.nameSuffix.Some? && e.data.nameSuffix.value != [] then e.data.nameSuffix.value
    else DefaultNameSuffix
  }

  /** The action file's name: `<slug>--<entry id>.yaml`. */
  function ActionsFileName(e: ConfigEntry, slugify: string -> string): string {
    slugify(FileStem(e)) + "--" + e.entryId + ".yaml"
  }

  /** The action file's path under the configuration directory. */
  function ActionsFilePath(configDir: string, e: ConfigEntry, slugify: string -> string): string {
    configDir + "/" + ActionsDirBasename + "/" + ActionsFileName(e, slugify)
  }

  /** The slug function uses `_` as its separator, so no slug holds a dash. */
  ghost predicate SlugsHaveNoDash(slugify: string -> string) {
    forall s :: '-' !in slugify(s)
  }

  /** The position of the first dash, or the length when there is none. */
  function FirstDash(s: string): (k: nat)
    ensures k <= |s|
    ensures k < |s| ==> s[k] == '-'
    ensures forall i :: 0 <= i < k ==> s[i] != '-'
  {
    if s == [] then 0 else if s[0] == '-' then 0 else 1 + FirstDash(s[1..])
  }

  lemma {:induction false} FirstDashAfterSlug(slug: string, rest: string)
    requires '-' !in slug
    ensures FirstDash(slug + "-" + rest) == |slug|
    decreases |slug|
  {
    var s := slug + "-" + rest;
    if slug == [] {
      assert s[0] == '-';
    } else {
      assert s[0] == slug[0] && slug[0] in slug;
      assert s[1..] == slug[1..] + "-" + rest;
      FirstDashAfterSlug(slug[1..], rest);
    }
  }

  /** A file name determines its slug and its entry id, so entries with different
      ids never share an action file. */
  lemma FileNameDeterminesEntry(slug1: string, id1: string, slug2: string, id2: string)
    requires '-' !in slug1 && '-' !in slug2
    requires slug1 + "--" + id1 + ".yaml" == slug2 + "--" + id2 + ".yaml"
    ensures slug1 == slug2 && id1 == id2
  {
    var s := slug1 + "--" + id1 + ".yaml";
    assert s == slug1 + "-" + ("-" + id1 + ".yaml");
    assert s == slug2 + "-" + ("-" + id2 + ".yaml");
    FirstDashAfterSlug(slug1, "-" + id1 + ".yaml");
    FirstDashAfterSlug(slug2, "-" + id2 + ".yaml");
    assert slug1 == s[..|slug1|] == slug2;
    assert id1 == s[|slug1| + 2..|s| - 5] == id2;
  }

  /** Two entries with different ids get different action files. */
  lemma DistinctEntriesDistinctFiles(e1: ConfigEntry, e2: ConfigEntry, slugify: string -> string)
    requires SlugsHaveNoDash(slugify)
    requires e1.entryId != e2.entryId
    ensures ActionsFileName(e1, slugify) != ActionsFileName(e2, slugify)
  {
    if ActionsFileName(e1, slugify) == ActionsFileName(e2, slugify) {
      FileNameDeterminesEntry(slugify(FileStem(e1)), e1.entryId, slugify(FileStem(e2)), e2.entryId);
    }
  }
}
