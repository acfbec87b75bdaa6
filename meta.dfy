/**
 * The version check shared by the cogs (`vexutils/meta.py`): the current and
 * the latest version sets, their reconciliation on three independent axes
 * (the cog, the bundled utils, Red), the info report built from it, and the
 * background freshness check.
 *
 * Network replies, the `commit.json` side file and the running Red version are
 * inputs: a reply that could not be fetched or decoded is `None`.
 */
module Meta {
  import opened Wrappers
  import opened Versions
  import opened Text

  /** What made fetching or reading versions raise. */
  datatype FetchError = NetworkError | FileError | KeyError | ParseError

  /** Python's `Vers`: one version per cog name, the utils commit prefix, Red's version. */
  datatype Vers = Vers(cogs: map<string, Version>, utils: string, red: Version)

  /** The decoded reply of the first-party versions API: `utils` plus one entry per cog. */
  type VersReply = map<string, string>

  /** The decoded reply of the package registry; only `info.version` is read. */
  type RegistryReply = map<string, map<string, string>>

  const UtilsKey := "utils"
  const UnknownText := "Unknown"
  const CommitPrefixLength: nat := 7

  // ---------------------------------------------------------------------------
  // Latest and current versions
  // ---------------------------------------------------------------------------

  /** `data.get("info", {}).get("version", "0.0.0")`. */
  function RedVersionText(registry: RegistryReply): (r: string)
    ensures "info" in registry && "version" in registry["info"] ==> r == registry["info"]["version"]
    ensures !("info" in registry && "version" in registry["info"]) ==> r == "0.0.0"
  {
    var info := if "info" in registry then registry["info"] else map[];
    if "version" in info then info["version"] else "0.0.0"
  }

  predicate AllParse(texts: map<string, string>, parse: Parser)
  {
    forall k | k in texts :: parse(texts[k]).Some?
  }

  /** The dict comprehension of `_get_latest_vers`: every entry parsed, or a parse error. */
  function ParseCogs(texts: map<string, string>, parse: Parser): (r: Option<map<string, Version>>)
    ensures r.Some? <==> AllParse(texts, parse)
    ensures r.Some? ==> r.value.Keys == texts.Keys
    ensures r.Some? ==> forall k | k in texts :: parse(texts[k]) == Some(r.value[k])
  {
    if AllParse(texts, parse) then Some(map k | k in texts :: parse(texts[k]).value) else None
  }

  /**
   * The latest versions, or the first error `_get_latest_vers` raises: the
   * API request, the `utils` key, the registry request, Red's version, then
   * the cog versions.
   */
  function LatestVers(api: Option<VersReply>, registry: Option<RegistryReply>, parse: Parser)
    : (r: Result<Vers, FetchError>)
    ensures r.Ok? <==>
      && api.Some? && UtilsKey in api.value
      && registry.Some? && parse(RedVersionText(registry.value)).Some?
      && AllParse(api.value - {UtilsKey}, parse)
    ensures api.None? ==> r == Err(NetworkError)
    ensures api.Some? && UtilsKey !in api.value ==> r == Err(KeyError)
    ensures api.Some? && UtilsKey in api.value && registry.None? ==> r == Err(NetworkError)
    ensures r.Ok? ==> r.value.utils == Take(api.value[UtilsKey], CommitPrefixLength)
    ensures r.Ok? ==> r.value.cogs.Keys == api.value.Keys - {UtilsKey}
    ensures r.Ok? ==> forall k | k in r.value.cogs :: parse(api.value[k]) == Some(r.value.cogs[k])
    ensures r.Ok? ==> parse(RedVersionText(registry.value)) == Some(r.value.red)
  {
    if api.None? then Err(NetworkError)
    else if UtilsKey !in api.value then Err(KeyError)
    else if registry.None? then Err(NetworkError)
    else
      var red := parse(RedVersionText(registry.value));
      var cogs := ParseCogs(api.value - {UtilsKey}, parse);
      if red.None? || cogs.None? then Err(ParseError)
      else Ok(Vers(cogs.value, Take(api.value[UtilsKey], CommitPrefixLength), red.value))
  }

  /** `_get_latest_vers`, which pops `utils` off the decoded reply before parsing the rest. */
  method GetLatestVers(api: Option<VersReply>, registry: Option<RegistryReply>, parse: Parser)
    returns (r: Result<Vers, FetchError>)
    ensures r == LatestVers(api, registry, parse)
  {
    if api.None? {
      return Err(NetworkError);
    }
    var data := api.value;
    if UtilsKey !in data {
      return Err(KeyError);
    }
    var latestUtils := Take(data[UtilsKey], CommitPrefixLength);
    data := data - {UtilsKey};
    var latestCogs := data;
    if registry.None? {
      return Err(NetworkError);
    }
    var latestRed := parse(RedVersionText(registry.value));
    if latestRed.None? {
      return Err(ParseError);
    }
    var cogs := ParseCogs(latestCogs, parse);
    if cogs.None? {
      return Err(ParseError);
    }
    r := Ok(Vers(cogs.value, latestUtils, latestRed.value));
  }

  /**
   * `_get_current_vers`: the caller's cog version under its lower-cased name,
   * the commit prefix recorded in `commit.json` and the running Red version.
   * A missing side file or an unparsable cog version raises.
   */
  function CurrentVers(cogVersion: string, qualifiedName: string, commitFile: Option<map<string, string>>,
                       parse: Parser, runningRed: Version): (r: Result<Vers, FetchError>)
    ensures commitFile.None? ==> r == Err(FileError)
    ensures commitFile.Some? ==> (r.Ok? <==> parse(cogVersion).Some?)
    ensures r.Err? ==> r.error in {FileError, ParseError}
    ensures r.Ok? ==> r.value.cogs.Keys == {Lower(qualifiedName)}
    ensures r.Ok? ==> Some(r.value.cogs[Lower(qualifiedName)]) == parse(cogVersion) && r.value.red == runningRed
    ensures r.Ok? && "latest_commit" !in commitFile.value ==> r.value.utils == UnknownText
    ensures r.Ok? && "latest_commit" in commitFile.value ==>
      r.value.utils == Take(commitFile.value["latest_commit"], CommitPrefixLength)
  {
    if commitFile.None? then Err(FileError)
    else
      var commit := if "latest_commit" in commitFile.value then commitFile.value["latest_commit"] else UnknownText;
      var cog := parse(cogVersion);
      if cog.None? then Err(ParseError)
      else Ok(Vers(map[Lower(qualifiedName) := cog.value], Take(commit, CommitPrefixLength), runningRed))
  }

  // ---------------------------------------------------------------------------
  // Reconciliation
  // ---------------------------------------------------------------------------

  /** The value of `cog_updated` and the others: `True`, `False` or the string "Unknown". */
  datatype Status = Known(upToDate: bool) | Unknown

  /** Python truthiness of a status: the non-empty string "Unknown" is truthy. */
  predicate Truthy(s: Status)
  {
    s.Unknown? || s.upToDate
  }

  /** The `latest` the report shows: fetched versions, or `UnknownVers({cog_name: "Unknown"})`. */
  datatype LatestView =
    | Fetched(vers: Vers)
    | UnknownVers(cogs: map<string, string>, utils: string, red: string)

  datatype Reconciled = Reconciled(cog: Status, utils: Status, red: Status, latest: LatestView)

  /**
   * The `try` block of `format_info`: compare the three axes, or fall back to
   * "Unknown" on all of them when fetching or a key lookup raised.
   */
  function Reconcile(current: Vers, latest: Result<Vers, FetchError>, cogName: string): (r: Reconciled)
    ensures r.cog.Known? <==> latest.Ok? && cogName in current.cogs && cogName in latest.value.cogs
    ensures r.utils.Known? == r.cog.Known? && r.red.Known? == r.cog.Known?
    ensures r.cog.Known? ==> (r.cog.upToDate <==> !Less(current.cogs[cogName], latest.value.cogs[cogName]))
    ensures r.utils.Known? ==> (r.utils.upToDate <==> current.utils == latest.value.utils)
    ensures r.red.Known? ==> (r.red.upToDate <==> !Less(current.red, latest.value.red))
    ensures r.cog.Known? ==> r.latest == Fetched(latest.value)
    ensures r.cog.Unknown? ==> r.latest == UnknownVers(map[cogName := UnknownText], UnknownText, UnknownText)
  {
    if latest.Ok? && cogName in current.cogs && cogName in latest.value.cogs then
      var l := latest.value;
      AtLeastIsNotLess(current.cogs[cogName], l.cogs[cogName]);
      AtLeastIsNotLess(current.red, l.red);
      Reconciled(
        Known(AtLeast(current.cogs[cogName], l.cogs[cogName])),
        Known(current.utils == l.utils),
        Known(AtLeast(current.red, l.red)),
        Fetched(l))
    else
      Reconciled(Unknown, Unknown, Unknown, UnknownVers(map[cogName := UnknownText], UnknownText, UnknownText))
  }

  /** An older current cog version is never up to date; a newer or equal one is. */
  lemma OlderCogIsOutOfDate(current: Vers, latest: Vers, cogName: string)
    requires cogName in current.cogs && cogName in latest.cogs
    ensures Less(current.cogs[cogName], latest.cogs[cogName]) ==> Reconcile(current, Ok(latest), cogName).cog == Known(false)
    ensures !Less(current.cogs[cogName], latest.cogs[cogName]) ==> Reconcile(current, Ok(latest), cogName).cog == Known(true)
  {
  }

  // ---------------------------------------------------------------------------
  // The version table and the update message
  // ---------------------------------------------------------------------------

  /** A table cell: text, a version, Python's `None`, or the green/red circle. */
  datatype Cell = TextCell(text: string) | Ver(version: Version) | NoneCell | Glyph(green: bool)

  type Row = seq<Cell>

  /** `GREEN_CIRCLE if status else RED_CIRCLE`. */
  function StatusGlyph(s: Status): (c: Cell)
    ensures c.Glyph? && (c.green <==> s != Known(false))
  {
    Glyph(Truthy(s))
  }

  /** `cogs.get(cog_name)` rendered in a cell. */
  function VersionCell(cogs: map<string, Version>, cogName: string): Cell
  {
    if cogName in cogs then Ver(cogs[cogName]) else NoneCell
  }

  function LatestCells(latest: LatestView, cogName: string): (cells: seq<Cell>)
    ensures |cells| == 3
  {
    match latest
    case Fetched(v) => [VersionCell(v.cogs, cogName), TextCell(v.utils), Ver(v.red)]
    case UnknownVers(cogs, utils, red) =>
      [if cogName in cogs then TextCell(cogs[cogName]) else NoneCell, TextCell(utils), TextCell(red)]
  }

  /** The `versions` table: one row per axis with label, current, latest and glyph. */
  function VersionRows(current: Vers, rec: Reconciled, cogName: string): (rows: seq<Row>)
    ensures |rows| == 3
    ensures forall i | 0 <= i < 3 :: |rows[i]| == 4
    ensures rows[0][0] == TextCell("This Cog") && rows[1][0] == TextCell("Bundled Utils") && rows[2][0] == TextCell("Red")
    ensures rows[0][1] == VersionCell(current.cogs, cogName) && rows[1][1] == TextCell(current.utils) && rows[2][1] == Ver(current.red)
    ensures rec.latest.Fetched? ==>
      && rows[0][2] == VersionCell(rec.latest.vers.cogs, cogName)
      && rows[1][2] == TextCell(rec.latest.vers.utils)
      && rows[2][2] == Ver(rec.latest.vers.red)
    ensures rec.latest.UnknownVers? ==>
      && rows[0][2] == (if cogName in rec.latest.cogs then TextCell(rec.latest.cogs[cogName]) else NoneCell)
      && rows[1][2] == TextCell(rec.latest.utils)
      && rows[2][2] == TextCell(rec.latest.red)
    ensures rows[0][3] == StatusGlyph(rec.cog) && rows[1][3] == StatusGlyph(rec.utils) && rows[2][3] == StatusGlyph(rec.red)
  {
    var latest := LatestCells(rec.latest, cogName);
    [
      [TextCell("This Cog"), VersionCell(current.cogs, cogName), latest[0], StatusGlyph(rec.cog)],
      [TextCell("Bundled Utils"), TextCell(current.utils), latest[1], StatusGlyph(rec.utils)],
      [TextCell("Red"), Ver(current.red), latest[2], StatusGlyph(rec.red)]
    ]
  }

  datatype Axis = CogAxis | UtilsAxis | RedAxis

  function StatusOf(rec: Reconciled, axis: Axis): Status
  {
    match axis
    case CogAxis => rec.cog
    case UtilsAxis => rec.utils
    case RedAxis => rec.red
  }

  /** The position of an axis in the report: cog, then utils, then Red. */
  function AxisRank(axis: Axis): nat
  {
    match axis
    case CogAxis => 0
    case UtilsAxis => 1
    case RedAxis => 2
  }

  /** The remediation line for an axis; `prefix` is the invoking context's clean prefix. */
  function Remedy(axis: Axis, prefix: string): string
  {
    match axis
    case CogAxis => "To update this cog, use the `" + prefix + "cog update` command.\n"
    case UtilsAxis => "To update the bundled utils, use the `" + prefix + "cog update` command.\n"
    case RedAxis => "To update Red, see https://docs.discord.red/en/stable/update_red.html\n"
  }

  /** The axes that get a remediation line, in report order. */
  function PendingAxes(rec: Reconciled): (r: seq<Axis>)
    ensures forall a :: a in r <==> !Truthy(StatusOf(rec, a))
    ensures forall i, j | 0 <= i < j < |r| :: AxisRank(r[i]) < AxisRank(r[j])
  {
    (if !Truthy(rec.cog) then [CogAxis] else [])
    + (if !Truthy(rec.utils) then [UtilsAxis] else [])
    + (if !Truthy(rec.red) then [RedAxis] else [])
  }

  /** `msg` followed by the remediation line of each of `axes`, in order. */
  function AppendRemedies(msg: string, axes: seq<Axis>, prefix: string): (r: string)
    ensures msg <= r
    ensures axes != [] ==> |r| > |msg|
  {
    if axes == [] then msg
    else AppendRemedies(msg, axes[..|axes| - 1], prefix) + Remedy(axes[|axes| - 1], prefix)
  }

  /** `update_msg`: a newline, then the remediation line of every pending axis. */
  function UpdateText(rec: Reconciled, prefix: string): (r: string)
    ensures "\n" <= r
    ensures r == "\n" <==> Truthy(rec.cog) && Truthy(rec.utils) && Truthy(rec.red)
  {
    AppendRemedies("\n", PendingAxes(rec), prefix)
  }

  /** Builds `update_msg` by appending, as `format_info` does. */
  method UpdateMessage(rec: Reconciled, prefix: string) returns (msg: string)
    ensures msg == UpdateText(rec, prefix)
  {
    msg := "\n";
    ghost var done: seq<Axis> := [];
    if !Truthy(rec.cog) {
      msg := msg + Remedy(CogAxis, prefix);
      done := done + [CogAxis];
    }
    assert msg == AppendRemedies("\n", done, prefix);
    if !Truthy(rec.utils) {
      assert (done + [UtilsAxis])[..|done|] == done;
      msg := msg + Remedy(UtilsAxis, prefix);
      done := done + [UtilsAxis];
    }
    assert msg == AppendRemedies("\n", done, prefix);
    if !Truthy(rec.red) {
      assert (done + [RedAxis])[..|done|] == done;
      msg := msg + Remedy(RedAxis, prefix);
      done := done + [RedAxis];
    }
    assert done == PendingAxes(rec);
  }

  /**
   * When reconciliation fell back to "Unknown" (the fetch failed, or the name
   * was missing from either side), every glyph is green, every latest cell
   * reads "Unknown" and no remediation line is added.
   */
  lemma FailureRendersUnknown(current: Vers, latest: Result<Vers, FetchError>, cogName: string, prefix: string)
    requires !(latest.Ok? && cogName in current.cogs && cogName in latest.value.cogs)
    ensures var rec := Reconcile(current, latest, cogName);
      && (forall i | 0 <= i < 3 :: VersionRows(current, rec, cogName)[i][3] == Glyph(true))
      && (forall i | 0 <= i < 3 :: VersionRows(current, rec, cogName)[i][2] == TextCell(UnknownText))
      && UpdateText(rec, prefix) == "\n"
  {
  }

  // ---------------------------------------------------------------------------
  // The loops and extras table
  // ---------------------------------------------------------------------------

  /** A `VexLoop` as far as the report reads it. */
  datatype VexLoop = VexLoop(friendlyName: string, integrity: bool)

  /** A value of the `extras` dict: `Union[str, bool]`. */
  datatype ExtraValue = Str(s: string) | Bool(b: bool)

  function LoopRow(l: VexLoop): (row: Row)
  {
    [TextCell(l.friendlyName), Glyph(l.integrity)]
  }

  function ExtraRow(key: string, value: ExtraValue): (row: Row)
  {
    [TextCell(key), match value case Bool(b) => Glyph(b) case Str(s) => TextCell(s)]
  }

  /** The extras in insertion order, as `extras.items()` yields them. */
  type Extras = seq<(string, ExtraValue)>

  /** The `data` rows: loops, a separator row when both kinds exist, then the extras. */
  function InfoRowsSpec(loops: seq<VexLoop>, extras: Extras): (rows: seq<Row>)
    ensures |rows| == |loops| + |extras| + (if loops != [] && extras != [] then 1 else 0)
    ensures forall i | 0 <= i < |loops| :: rows[i] == LoopRow(loops[i])
    ensures forall j | 0 <= j < |extras| :: rows[|rows| - |extras| + j] == ExtraRow(extras[j].0, extras[j].1)
    ensures forall i | 0 <= i < |rows| :: rows[i] == [] <==> loops != [] && extras != [] && i == |loops|
    ensures rows == [] <==> loops == [] && extras == []
  {
    seq(|loops|, i requires 0 <= i < |loops| => LoopRow(loops[i]))
    + (if loops != [] && extras != [] then [[]] else [])
    + seq(|extras|, j requires 0 <= j < |extras| => ExtraRow(extras[j].0, extras[j].1))
  }

  /** Fills `data` by appending, as `format_info` does. */
  method InfoRows(loops: seq<VexLoop>, extras: Extras) returns (data: seq<Row>)
    ensures data == InfoRowsSpec(loops, extras)
  {
    data := [];
    if loops != [] {
      for k := 0 to |loops|
        invariant |data| == k
        invariant forall i | 0 <= i < k :: data[i] == LoopRow(loops[i])
      {
        data := data + [LoopRow(loops[k])];
      }
    }
    if extras != [] {
      if data != [] {
        data := data + [[]];
      }
      var before := |data|;
      for k := 0 to |extras|
        invariant |data| == before + k
        invariant forall i | 0 <= i < |loops| :: data[i] == LoopRow(loops[i])
        invariant loops != [] ==> data[|loops|] == []
        invariant forall j | 0 <= j < k :: data[before + j] == ExtraRow(extras[j].0, extras[j].1)
      {
        data := data + [ExtraRow(extras[k].0, extras[k].1)];
      }
    }
  }

  /** A bool extra shows a glyph and a string extra shows verbatim, in insertion order. */
  lemma ExtrasExample()
    ensures InfoRowsSpec([], [("Auto-update", Bool(true)), ("Mode", Str("strict"))])
         == [[TextCell("Auto-update"), Glyph(true)], [TextCell("Mode"), TextCell("strict")]]
  {
  }

  // ---------------------------------------------------------------------------
  // format_info
  // ---------------------------------------------------------------------------

  /** The external inputs of one version check. */
  datatype Sources = Sources(
    commitFile: Option<map<string, string>>,
    api: Option<VersReply>,
    registry: Option<RegistryReply>,
    runningRed: Version)

  /**
   * The pieces of the info text: the header, the version table, the update
   * message and the second table, present only when it has rows.
   */
  datatype Report = Report(start: string, versions: seq<Row>, updateMsg: string, dataTable: Option<seq<Row>>)

  function Header(qualifiedName: string): string
  {
    qualifiedName + " by Vexed.\n<https://github.com/Vexed01/Vex-Cogs>\n\n"
  }

  /**
   * `format_info`. Reading the current versions happens outside the `try` and
   * raises; every failure of the latest versions is absorbed into "Unknown".
   */
  method FormatInfo(prefix: string, qualifiedName: string, cogVersion: string, extras: Extras,
                    loops: seq<VexLoop>, src: Sources, parse: Parser)
    returns (r: Result<Report, FetchError>)
    ensures var current := CurrentVers(cogVersion, qualifiedName, src.commitFile, parse, src.runningRed);
      current.Err? ==> r == Err(current.error)
    ensures var current := CurrentVers(cogVersion, qualifiedName, src.commitFile, parse, src.runningRed);
      current.Ok? ==>
        var cogName := Lower(qualifiedName);
        var rec := Reconcile(current.value, LatestVers(src.api, src.registry, parse), cogName);
        var rows := InfoRowsSpec(loops, extras);
        r == Ok(Report(Header(qualifiedName), VersionRows(current.value, rec, cogName), UpdateText(rec, prefix),
                       if rows == [] then None else Some(rows)))
  {
    var cogName := Lower(qualifiedName);
    var current := CurrentVers(cogVersion, qualifiedName, src.commitFile, parse, src.runningRed);
    if current.Err? {
      return Err(current.error);
    }
    var latest := GetLatestVers(src.api, src.registry, parse);
    var rec := Reconcile(current.value, latest, cogName);
    var versions := VersionRows(current.value, rec, cogName);
    var updateMsg := UpdateMessage(rec, prefix);
    var data := InfoRows(loops, extras);
    r := Ok(Report(Header(qualifiedName), versions, updateMsg, if data == [] then None else Some(data)));
  }

  /** The cog axis of a report on a fetched version set compares the lower-cased name. */
  lemma ReportCogAxis(prefix: string, qualifiedName: string, cogVersion: string, src: Sources, parse: Parser)
    requires CurrentVers(cogVersion, qualifiedName, src.commitFile, parse, src.runningRed).Ok?
    requires LatestVers(src.api, src.registry, parse).Ok?
    requires Lower(qualifiedName) in LatestVers(src.api, src.registry, parse).value.cogs
    ensures var current := CurrentVers(cogVersion, qualifiedName, src.commitFile, parse, src.runningRed).value;
      var latest := LatestVers(src.api, src.registry, parse);
      var rec := Reconcile(current, latest, Lower(qualifiedName));
      rec.cog == Known(!Less(parse(cogVersion).value, latest.value.cogs[Lower(qualifiedName)]))
  {
  }

  // ---------------------------------------------------------------------------
  // out_of_date_check
  // ---------------------------------------------------------------------------

  /** The log line `out_of_date_check` emits. */
  datatype CheckLog = StaleWarning | UpToDateDebug | FailureDebug

  /** The outcome of `out_of_date_check`, for the latest versions it obtained. */
  function OutOfDate(cogName: string, currentVersion: string, latest: Result<Vers, FetchError>, parse: Parser)
    : (log: CheckLog)
    ensures log == FailureDebug <==>
      !(latest.Ok? && parse(currentVersion).Some? && cogName in latest.value.cogs)
    ensures log == StaleWarning <==>
      latest.Ok? && parse(currentVersion).Some? && cogName in latest.value.cogs
      && Less(parse(currentVersion).value, latest.value.cogs[cogName])
  {
    if latest.Ok? && parse(currentVersion).Some? && cogName in latest.value.cogs then
      if Less(parse(currentVersion).value, latest.value.cogs[cogName]) then StaleWarning else UpToDateDebug
    else FailureDebug
  }

  /** `out_of_date_check`: never raises; the cog name is used as given, not lower-cased. */
  method OutOfDateCheck(cogName: string, currentVersion: string, api: Option<VersReply>,
                        registry: Option<RegistryReply>, parse: Parser)
    returns (log: CheckLog)
    ensures log == OutOfDate(cogName, currentVersion, LatestVers(api, registry, parse), parse)
  {
    var vers := GetLatestVers(api, registry, parse);
    if vers.Err? {
      return FailureDebug;
    }
    var current := parse(currentVersion);
    if current.None? || cogName !in vers.value.cogs {
      return FailureDebug;
    }
    if Less(current.value, vers.value.cogs[cogName]) {
      log := StaleWarning;
    } else {
      log := UpToDateDebug;
    }
  }

  /**
   * For a lower-case cog name, the background check warns exactly when the
   * report marks the cog axis as not up to date, and fails exactly when the
   * report falls back to "Unknown". The two make separate fetches; the lemma
   * assumes both received the same replies, those in `src`.
   */
  lemma BackgroundCheckAgreesWithReport(qualifiedName: string, cogVersion: string, src: Sources, parse: Parser)
    requires Lower(qualifiedName) == qualifiedName
    requires CurrentVers(cogVersion, qualifiedName, src.commitFile, parse, src.runningRed).Ok?
    ensures var current := CurrentVers(cogVersion, qualifiedName, src.commitFile, parse, src.runningRed).value;
      var latest := LatestVers(src.api, src.registry, parse);
      var rec := Reconcile(current, latest, qualifiedName);
      var log := OutOfDate(qualifiedName, cogVersion, latest, parse);
      && (log == StaleWarning <==> rec.cog == Known(false))
      && (log == FailureDebug <==> rec.cog == Unknown)
  {
  }
}
