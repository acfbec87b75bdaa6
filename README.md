# Vex-Cogs version check and status command, modelled in Dafny

This project models two pieces of decision logic from the Vex-Cogs plugins for
the Red Discord bot:

- **The version check** (`ghissues/vexutils/meta.py`). It reads the current
  versions: the cog's own version under its lower-cased name, the
  bundled-utils commit prefix from `commit.json`, and the running Red version.
  It also fetches the latest versions from the first-party API and from the
  package registry. It then reconciles the three axes independently:
  - the cog axis with `>=`;
  - the utils axis with exact string equality;
  - the Red axis with `>=`.

  Any failure while fetching or comparing turns all three into the tri-state
  value "Unknown". The report is then assembled: a version table with one
  glyph per axis, one remediation line per axis that is not up to date, and a
  second table of loop-health rows and extras.
  The background `out_of_date_check` calls the same `_get_latest_vers`, making
  its own fetch, and compares only the cog axis.
- **The `status` command** (`status/commands/status_com.py`). It runs a linear
  sequence of gates with early exits: cooldown, channel restriction, HTTP
  status. It then filters scheduled maintenance to the events that have
  already begun, prefers live incidents over maintenance, dispatches exactly
  one entry to the invoking channel, and summarises the others.

Files:
- `wrappers.dfy`: `Option` and `Result`.
- `text.dfy`: the Python string operations used, which are `str.lower`, slicing `s[:n]` and integer formatting.
- `versions.dfy`: Red's `VersionInfo`, modelled as a totally ordered version.
- `meta.dfy`: the version check.
- `status_com.dfy`: the status command.

Where the source builds a value step by step, the model has a method that does
the same and is proved equal to a specification function. This covers
`update_msg`, the `data` rows, the popped API reply and the summary text.
Lemmas then state the properties of those functions.

Inputs that come from the outside world are parameters:
- the decoded API reply, the decoded registry reply and the parsed
  `commit.json`, each `None` when it could not be obtained;
- the running Red version;
- the version parser;
- what the cooldown tracker, the restriction cache and `bot.get_channel` return;
- the HTTP status, the incident and scheduled lists that `process_json` returns;
- the current time.

Behaviour of the code worth noting:
- When reconciliation fails, every row shows the GREEN glyph, because the
  string "Unknown" is truthy. The status column never reads "Unknown"; the
  failure's "Unknown" strings appear in the latest column.
- The restriction gate never checks whether the invoking channel is one of
  the permitted channels. It stops whenever at least one restricted channel
  resolves to a text channel.
- The cooldown gate fires on any truthy remaining time, that is any non-zero
  value, not only a positive one.
- `_get_current_vers` runs outside the `try` of `format_info`. A missing
  `commit.json` or an unparsable current cog version therefore propagates as
  an error (`FormatInfo` returns `Err`). It does not become "Unknown".
- `out_of_date_check` looks the cog name up as given, without lower-casing it.

## Model

| member | source | states |
|---|---|---|
| `Text.Lower` | ghissues/vexutils/meta.py:80 | lower-casing keeps the length, maps each upper-case ASCII letter to its lower-case letter and leaves every other character alone |
| `Text.Take` | ghissues/vexutils/meta.py:187 | Python's `s[:n]` yields a prefix of `s` of length `min(n, len(s))` and never fails |
| `Text.NatToString` | status/commands/status_com.py:96 | the decimal rendering of a count is non-empty, all digits, and starts with `0` only for zero |
| `Text.NatToStringRoundTrip` | status/commands/status_com.py:96 | reading the rendered digits back gives the original count |
| `Versions.AtLeastIsNotLess` | ghissues/vexutils/meta.py:85-87 | `a >= b` holds exactly when `a < b` does not |
| `Versions.LessIsStrictTotalOrder` | ghissues/vexutils/meta.py:155 | version `<` is irreflexive, asymmetric, transitive and total on distinct versions |
| `Meta.RedVersionText` | ghissues/vexutils/meta.py:192 | the registry's `info.version` is used when present, otherwise `"0.0.0"` |
| `Meta.ParseCogs` | ghissues/vexutils/meta.py:194-196 | every cog entry is parsed under its own key, and a single unparsable entry makes the whole step fail |
| `Meta.LatestVers` | ghissues/vexutils/meta.py:182-198 | the latest set exists exactly when both replies arrived, `utils` is present and every version parses. Its utils value is the 7-character prefix of `utils`, its cogs are all other keys, and Red defaults to `0.0.0` |
| `Meta.GetLatestVers` | ghissues/vexutils/meta.py:182-198 | popping `utils` off the reply and parsing the rest yields exactly `LatestVers` |
| `Meta.CurrentVers` | ghissues/vexutils/meta.py:201-210 | a missing side file or an unparsable cog version is an error. Otherwise the only cog key is the lower-cased name, utils is `latest_commit[:7]` ("Unknown" when the key is absent), and Red is the running version |
| `Meta.Reconcile` | ghissues/vexutils/meta.py:80-91 | the cog and Red axes are up to date iff current is not older than latest, and the utils axis iff the strings are equal. If fetching failed or a key was missing, all three axes are "Unknown" together and `latest` is `UnknownVers({name: "Unknown"})` |
| `Meta.OlderCogIsOutOfDate` | ghissues/vexutils/meta.py:85 | an older current cog version reconciles to not up to date, and a newer or equal one to up to date |
| `Meta.StatusGlyph` | ghissues/vexutils/meta.py:99-111 | the glyph is green unless the axis is known to be out of date |
| `Meta.VersionRows` | ghissues/vexutils/meta.py:94-113 | the three rows carry the labels, the current values, the latest values built by `LatestCells` (`cogs.get(name)`, utils and Red of the fetched set, or the "Unknown" strings of `UnknownVers`) and each axis's glyph, in the order cog, utils, Red |
| `Meta.PendingAxes` | ghissues/vexutils/meta.py:114-122 | an axis gets a remediation line iff its status is falsy, and the lines come in the order cog, utils, Red |
| `Meta.AppendRemedies` | ghissues/vexutils/meta.py:115-122 | appending the remediation lines of some axes in order keeps the text built so far as a prefix, and any axis makes it longer |
| `Meta.UpdateText` | ghissues/vexutils/meta.py:114-122 | the update message always starts with a newline, and is that bare newline iff no axis is falsy |
| `Meta.UpdateMessage` | ghissues/vexutils/meta.py:114-122 | appending step by step yields a newline followed by the remediation line of each pending axis in order |
| `Meta.FailureRendersUnknown` | ghissues/vexutils/meta.py:80-122 | when reconciliation fell back to Unknown (a failed fetch, or the name missing from either side) every glyph is green, every latest cell reads "Unknown" and the update message is a bare newline |
| `Meta.InfoRowsSpec` | ghissues/vexutils/meta.py:124-138 | loop rows come first in order. An empty separator row sits at index `len(loops)` exactly when both loops and extras exist. Extras follow in insertion order as glyphs for bools and verbatim text for strings. The rows are empty iff there are no loops and no extras |
| `Meta.InfoRows` | ghissues/vexutils/meta.py:124-138 | filling `data` by appending in the two loops yields exactly `InfoRowsSpec` |
| `Meta.ExtrasExample` | ghissues/vexutils/meta.py:132-138 | `{"Auto-update": True, "Mode": "strict"}` renders as a green glyph and the literal `strict` |
| `Meta.FormatInfo` | ghissues/vexutils/meta.py:52-147 | an error reading the current versions propagates. Otherwise the report has the header, the reconciled version rows, the update message, and the second table only when it has rows |
| `Meta.ReportCogAxis` | ghissues/vexutils/meta.py:80-85 | with fetched versions, the report's cog axis compares the current version with the latest version of the lower-cased name |
| `Meta.OutOfDate` | ghissues/vexutils/meta.py:150-167 | the check warns iff every version was obtained and the current version is older. It logs a failure iff fetching, parsing or the name lookup failed, and otherwise reports up to date |
| `Meta.OutOfDateCheck` | ghissues/vexutils/meta.py:150-167 | the background check never raises and ends as `OutOfDate` says for the fetched latest versions |
| `Meta.BackgroundCheckAgreesWithReport` | ghissues/vexutils/meta.py:85-161 | for a lower-case name, the background check warns iff the report's cog axis is out of date, and fails iff that axis is "Unknown" |
| `StatusCom.Mentions` | status/commands/status_com.py:40-45 | the list is empty iff no restricted id resolves to a text channel, and it holds the mention of every id that does resolve to one |
| `StatusCom.Started` | status/commands/status_com.py:60-62 | every kept entry has a start time earlier than now, and the filter never grows the list |
| `StatusCom.StartedMembers` | status/commands/status_com.py:60-62 | an entry is kept iff it is scheduled and its start time is strictly earlier than now |
| `StatusCom.StartedAppend` | status/commands/status_com.py:60-62 | the filter distributes over concatenation, so relative order is preserved |
| `StatusCom.StartedEmpty` | status/commands/status_com.py:60-62 | the filtered list is empty iff no scheduled entry has begun |
| `StatusCom.AppendLines` | status/commands/status_com.py:97-98 | appending the entry lines keeps the text already there as a prefix |
| `StatusCom.SummaryText` | status/commands/status_com.py:93-108 | the summary is empty iff there are neither other incidents nor other maintenance events |
| `StatusCom.BuildSummary` | status/commands/status_com.py:93-106 | building the summary with `+=` inside the two loops yields exactly `SummaryText` |
| `StatusCom.Select` | status/commands/status_com.py:64-73 | nothing is selected iff both lists are empty. With live incidents the first is primary and the rest are the other incidents, with no other scheduled. Otherwise the first begun event is primary and the rest are the other scheduled |
| `StatusCom.StatusOutcome` | status/commands/status_com.py:31-109 | the gates are tried in order: cooldown iff the remaining time is truthy, restriction iff no cooldown and some mention resolves, fetch failure iff both gates pass and the status is not 200. "No incidents" only when nothing is live and nothing has begun |
| `StatusCom.Status` | status/commands/status_com.py:31-109 | the early-return command yields exactly `StatusOutcome` for its collaborators' values |
| `StatusCom.CooldownGate` | status/commands/status_com.py:31-35 | the command ends in the cooldown reply iff the remaining time is truthy, whatever the later inputs are |
| `StatusCom.RestrictionGate` | status/commands/status_com.py:37-48 | a restriction naming at least one text channel stops the command with those mentions, even in a permitted channel. One naming none continues as if unrestricted |
| `StatusCom.HttpGate` | status/commands/status_com.py:52-55 | past the gates, the command apologises iff the HTTP status is not 200 |
| `StatusCom.LiveIncidentsFirst` | status/commands/status_com.py:64-68 | live incidents win: the first is dispatched, and the summary is the count `len-1` line plus one line per other incident (none for a single incident). Maintenance is never mentioned |
| `StatusCom.ThreeLiveIncidents` | status/commands/status_com.py:64-98 | with incidents A, B, C, A is dispatched and the summary reads "2 other incidents are live at the moment:" then B and C, one per line |
| `StatusCom.StartedMaintenanceNext` | status/commands/status_com.py:69-71 | without live incidents, the first begun maintenance event is dispatched and the others are summarised without line breaks between them |
| `StatusCom.NothingLive` | status/commands/status_com.py:72-77 | with no live incident and no begun maintenance, the reply is exactly the fixed "no live incidents" message and nothing is dispatched |
| `StatusCom.DispatchShape` | status/commands/status_com.py:79-90 | A dispatch goes only to the invoking channel, with mode "all", no webhook, `dispatch` off and `force` on. A summary is sent only when non-empty. A dispatch happens iff the gates pass, the status is 200 and something is live |

## Left out

- HTTP requests, their 5 s and 3 s timeouts and JSON decoding (`meta.py:184-192`): the decoded replies are inputs, `None` when a request or decoding failed.
- The typing of JSON values: the API reply and `commit.json` are string-to-string maps and the registry reply a map of maps. A non-string value, which would raise in slicing or parsing, is not modelled.
- Reading `commit.json` from disk (`meta.py:202-203`): its parsed contents are an input.
- `cog_ver_lock` and `async with` (`meta.py:19`, `meta.py:153`): they only serialise concurrent fetches.
- `VersionInfo.from_str`: the parser is a parameter. Versions are (major, minor, micro) triples ordered lexicographically, without Red's release levels.
- `Text.Lower`: only ASCII letters are lower-cased, not the full Unicode case mapping of `str.lower`.
- `tabulate` and `box` rendering (`meta.py:140-145`): the model returns the rows and the update message, not the laid-out text.
- `format_help` (`meta.py:22-45`): it delegates to the host framework.
- Log output: `out_of_date_check`'s outcome is the log kind it would emit, and `format_info`'s warning log is not modelled.
- `ctx.send`, `trigger_typing`, `delete_after`, `humanize_timedelta`, `asyncio.sleep` (`status_com.py:91`): replies are `Outcome` values. The cooldown reply carries the service's friendly name and the remaining time instead of formatted text. The dispatch outcome holds the summary that is sent after it.
- `humanize_list`: the restriction reply carries the list of mentions. Its text is taken to be empty exactly when that list is empty.
- `bot.get_channel`: it is a map from channel id to the channel found.
- `datetime.now`: the current time is a parameter, and timestamps are integers.
- `process_json`, `SendUpdate`, `SendCache`, `ServiceConverter`, the cooldown tracker and the restriction cache: they are seen only through the values they return or are passed. An `IncidentData` is taken to be always truthy.
- Exceptions raised by `self.statusapi.summary` (`status_com.py:52`) or by a collaborator propagate to the host framework; the command model has no raising outcome. The `guild_only` and `cooldown(10, 120, user)` decorators (`status_com.py:18-19`) run before the command body and are not modelled.
- `StatusCom.Mentions`: its contract states membership, not order. Order follows from the definition, which keeps the order of the restricted ids.
