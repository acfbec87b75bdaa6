/**
 * The `status` command (`status/commands/status_com.py`): a cooldown gate,
 * a channel-restriction gate, the status-page fetch, the choice of the one
 * incident or maintenance event to dispatch, and the summary of the others.
 *
 * The cooldown tracker, the restriction cache, the channel lookup, the
 * status-page client and `process_json` are seen only through the values
 * they return, which are inputs here, as is the current time.
 */
module StatusCom {
  import opened Wrappers
  import opened Text

  /** The service the user asked for, as resolved by the service converter. */
  datatype Service = Service(name: string, friendly: string, id: string)

  /** An entry of `process_json`'s output; `scheduledFor` is a timestamp when set. */
  datatype Incident = Incident(title: string, link: string, scheduledFor: Option<int>, fields: seq<string>)

  /** What `bot.get_channel` found for a restricted channel id. */
  datatype Channel = TextChannel(mention: string) | OtherChannel

  /** `Update(to_send, to_send.fields)`. */
  datatype Update = Update(incident: Incident, fields: seq<string>)

  /** A per-channel delivery setting: `{"mode": ..., "webhook": ..., "edit_id": ...}`. */
  datatype DeliveryMode = DeliveryMode(mode: string, webhook: bool, editId: map<string, int>)

  /** How one invocation of the command ends. */
  datatype Outcome =
      /** The cooldown notice, deleted after `remaining` seconds. */
    | Cooldown(friendly: string, remaining: real)
      /** The list of channels where the service may be checked. */
    | Restricted(friendly: string, mentions: seq<string>)
    | FetchFailed(message: string)
    | NoIncidents(message: string)
      /** `SendUpdate(...).send(targets)`, then the summary message if there is one. */
    | Dispatch(update: Update, serviceName: string, targets: map<int, DeliveryMode>,
               dispatch: bool, force: bool, summary: Option<string>)

  const NoLiveIncidents := "\U{2705} There are currently no live incidents."

  function FetchFailedMessage(friendly: string): string
  {
    "Hmm, I can't get " + friendly + "'s status at the moment."
  }

  // ---------------------------------------------------------------------------
  // Gates
  // ---------------------------------------------------------------------------

  /** Truthiness of the remaining time the cooldown tracker returned. */
  predicate CooldownActive(remaining: Option<real>)
  {
    remaining.Some? && remaining.value != 0.0
  }

  predicate ResolvesToText(id: int, channels: map<int, Channel>)
  {
    id in channels && channels[id].TextChannel?
  }

  /** The mentions of the restricted channels that resolve to text channels, in order. */
  function Mentions(ids: seq<int>, channels: map<int, Channel>): (r: seq<string>)
    ensures |r| <= |ids|
    ensures r == [] <==> forall i | 0 <= i < |ids| :: !ResolvesToText(ids[i], channels)
    ensures forall id | id in ids && ResolvesToText(id, channels) :: channels[id].mention in r
    ensures forall m | m in r :: exists id | id in ids && ResolvesToText(id, channels) :: channels[id].mention == m
  {
    if ids == [] then []
    else
      var rest := Mentions(ids[1..], channels);
      assert forall id | id in ids[1..] :: id in ids;
      if ResolvesToText(ids[0], channels) then [channels[ids[0]].mention] + rest else rest
  }

  /** The channels the guild's restriction permits, or none when it has no restriction. */
  function PermittedMentions(restrictions: Option<seq<int>>, channels: map<int, Channel>): seq<string>
  {
    if restrictions.Some? && restrictions.value != [] then Mentions(restrictions.value, channels) else []
  }

  // ---------------------------------------------------------------------------
  // Scheduled maintenance filter
  // ---------------------------------------------------------------------------

  /** `i.scheduled_for and i.scheduled_for < now`. */
  predicate HasStarted(i: Incident, now: int)
  {
    i.scheduledFor.Some? && i.scheduledFor.value < now
  }

  /** The scheduled entries that have already begun, in their original order. */
  function Started(scheduled: seq<Incident>, now: int): (r: seq<Incident>)
    ensures |r| <= |scheduled|
    ensures forall i | i in r :: HasStarted(i, now)
  {
    if scheduled == [] then []
    else (if HasStarted(scheduled[0], now) then [scheduled[0]] else []) + Started(scheduled[1..], now)
  }

  /** The filter keeps exactly the entries that have begun. */
  lemma {:induction false} StartedMembers(scheduled: seq<Incident>, now: int, i: Incident)
    ensures i in Started(scheduled, now) <==> i in scheduled && HasStarted(i, now)
  {
    if scheduled != [] {
      StartedMembers(scheduled[1..], now, i);
      assert i in scheduled <==> i == scheduled[0] || i in scheduled[1..];
    }
  }

  /** The filter preserves relative order: it distributes over concatenation. */
  lemma {:induction false} StartedAppend(a: seq<Incident>, b: seq<Incident>, now: int)
    ensures Started(a + b, now) == Started(a, now) + Started(b, now)
  {
    if a != [] {
      assert (a + b)[1..] == a[1..] + b;
      StartedAppend(a[1..], b, now);
      var head := if HasStarted(a[0], now) then [a[0]] else [];
      calc {
        Started(a + b, now);
        head + Started(a[1..] + b, now);
        head + (Started(a[1..], now) + Started(b, now));
        (head + Started(a[1..], now)) + Started(b, now);
        Started(a, now) + Started(b, now);
      }
    } else {
      assert a + b == b;
    }
  }

  /** Nothing is kept exactly when no entry has begun. */
  lemma StartedEmpty(scheduled: seq<Incident>, now: int)
    ensures Started(scheduled, now) == [] <==> forall i | i in scheduled :: !HasStarted(i, now)
  {
    forall i | i in scheduled {
      StartedMembers(scheduled, now, i);
    }
    if Started(scheduled, now) != [] {
      StartedMembers(scheduled, now, Started(scheduled, now)[0]);
    }
  }

  // ---------------------------------------------------------------------------
  // Summary message
  // ---------------------------------------------------------------------------

  function Line(i: Incident): string
  {
    i.title + " (<" + i.link + ">)"
  }

  /** `msg` followed by one `title (<link>)` line per entry, each followed by `terminator`. */
  function AppendLines(msg: string, items: seq<Incident>, terminator: string): (r: string)
    ensures msg <= r
  {
    if items == [] then msg
    else AppendLines(msg, items[..|items| - 1], terminator) + Line(items[|items| - 1]) + terminator
  }

  function IncidentsHeader(n: nat): string
  {
    NatToString(n) + " other incidents are live at the moment:\n"
  }

  function ScheduledHeader(n: nat): string
  {
    "\n" + NatToString(n) + " other scheduled maintenance events are live at the moment:\n"
  }

  /** The count line and one newline-terminated line per other live incident. */
  function IncidentsPart(msg: string, others: seq<Incident>): string
  {
    if others == [] then msg else AppendLines(msg + IncidentsHeader(|others|), others, "\n")
  }

  /** The count line and one line per other maintenance event; these lines carry no newline. */
  function ScheduledPart(msg: string, others: seq<Incident>): string
  {
    if others == [] then msg else AppendLines(msg + ScheduledHeader(|others|), others, "")
  }

  /** The text sent after the dispatch: the incidents part, then the maintenance part. */
  function SummaryText(otherIncidents: seq<Incident>, otherScheduled: seq<Incident>): (r: string)
    ensures r == "" <==> otherIncidents == [] && otherScheduled == []
  {
    ScheduledPart(IncidentsPart("", otherIncidents), otherScheduled)
  }

  /** Builds the summary by appending inside loops, as the command does. */
  method BuildSummary(otherIncidents: seq<Incident>, otherScheduled: seq<Incident>) returns (msg: string)
    ensures msg == SummaryText(otherIncidents, otherScheduled)
  {
    msg := "";
    if otherIncidents != [] {
      msg := msg + IncidentsHeader(|otherIncidents|);
      ghost var base := msg;
      for k := 0 to |otherIncidents|
        invariant msg == AppendLines(base, otherIncidents[..k], "\n")
      {
        assert otherIncidents[..k + 1][..k] == otherIncidents[..k];
        msg := msg + Line(otherIncidents[k]) + "\n";
      }
      assert otherIncidents[..|otherIncidents|] == otherIncidents;
    }
    assert msg == IncidentsPart("", otherIncidents);
    if otherScheduled != [] {
      msg := msg + ScheduledHeader(|otherScheduled|);
      ghost var base := msg;
      for k := 0 to |otherScheduled|
        invariant msg == AppendLines(base, otherScheduled[..k], "")
      {
        assert otherScheduled[..k + 1][..k] == otherScheduled[..k];
        msg := msg + Line(otherScheduled[k]);
      }
      assert otherScheduled[..|otherScheduled|] == otherScheduled;
    }
  }

  // ---------------------------------------------------------------------------
  // The command
  // ---------------------------------------------------------------------------

  /** The entry to dispatch and the others to summarise. */
  datatype Selection = Selection(primary: Incident, otherIncidents: seq<Incident>, otherScheduled: seq<Incident>)

  /** Live incidents first; otherwise the maintenance events that have begun. */
  function Select(incidents: seq<Incident>, started: seq<Incident>): (r: Option<Selection>)
    ensures r.None? <==> incidents == [] && started == []
    ensures r.Some? && incidents != [] ==> [r.value.primary] + r.value.otherIncidents == incidents && r.value.otherScheduled == []
    ensures r.Some? && incidents == [] ==> [r.value.primary] + r.value.otherScheduled == started && r.value.otherIncidents == []
  {
    if incidents != [] then Some(Selection(incidents[0], incidents[1..], []))
    else if started != [] then Some(Selection(started[0], [], started[1..]))
    else None
  }

  /** Delivery to the invoking channel only, in mode "all", without a webhook. */
  function InvokerOnly(channelId: int): map<int, DeliveryMode>
  {
    map[channelId := DeliveryMode("all", false, map[])]
  }

  /** The dispatch of a selection, with the summary of the other entries when it is not empty. */
  function DispatchOf(sel: Selection, service: Service, channelId: int): Outcome
  {
    var msg := SummaryText(sel.otherIncidents, sel.otherScheduled);
    Dispatch(Update(sel.primary, sel.primary.fields), service.name, InvokerOnly(channelId), false, true,
             if msg == "" then None else Some(msg))
  }

  /** What follows the status-page fetch. */
  function AfterFetch(httpStatus: int, incidents: seq<Incident>, scheduled: seq<Incident>, now: int,
                      service: Service, channelId: int): Outcome
  {
    if httpStatus != 200 then FetchFailed(FetchFailedMessage(service.friendly))
    else
      match Select(incidents, Started(scheduled, now))
      case None => NoIncidents(NoLiveIncidents)
      case Some(sel) => DispatchOf(sel, service, channelId)
  }

  /** The result of one invocation for the values its collaborators return. */
  function StatusOutcome(cooldown: Option<real>, restrictions: Option<seq<int>>, channels: map<int, Channel>,
                         httpStatus: int, incidents: seq<Incident>, scheduled: seq<Incident>, now: int,
                         service: Service, channelId: int): (out: Outcome)
    ensures out.Cooldown? <==> CooldownActive(cooldown)
    ensures out.Restricted? <==> !CooldownActive(cooldown) && PermittedMentions(restrictions, channels) != []
    ensures out.FetchFailed? <==>
      !CooldownActive(cooldown) && PermittedMentions(restrictions, channels) == [] && httpStatus != 200
    ensures out.NoIncidents? ==> incidents == [] && forall i | i in scheduled :: !HasStarted(i, now)
  {
    if CooldownActive(cooldown) then Cooldown(service.friendly, cooldown.value)
    else if PermittedMentions(restrictions, channels) != [] then
      Restricted(service.friendly, PermittedMentions(restrictions, channels))
    else
      StartedEmpty(scheduled, now);
      AfterFetch(httpStatus, incidents, scheduled, now, service, channelId)
  }

  /** `StatusCom.status`: gates with early returns, selection, dispatch, summary. */
  method Status(cooldown: Option<real>, restrictions: Option<seq<int>>, channels: map<int, Channel>,
                httpStatus: int, incidents: seq<Incident>, scheduled: seq<Incident>, now: int,
                service: Service, channelId: int)
    returns (out: Outcome)
    ensures out == StatusOutcome(cooldown, restrictions, channels, httpStatus, incidents, scheduled, now,
                                 service, channelId)
  {
    if CooldownActive(cooldown) {
      return Cooldown(service.friendly, cooldown.value);
    }
    if restrictions.Some? && restrictions.value != [] {
      var mentions := Mentions(restrictions.value, channels);
      if mentions != [] {
        return Restricted(service.friendly, mentions);
      }
    }
    if httpStatus != 200 {
      return FetchFailed(FetchFailedMessage(service.friendly));
    }
    var started := Started(scheduled, now);
    var toSend: Option<Incident>;
    var otherIncidents, otherScheduled := [], [];
    if incidents != [] {
      toSend := Some(incidents[0]);
      otherIncidents := incidents[1..];
    } else if started != [] {
      toSend := Some(started[0]);
      otherScheduled := started[1..];
    } else {
      toSend := None;
    }
    if toSend.None? {
      return NoIncidents(NoLiveIncidents);
    }
    assert Select(incidents, started) == Some(Selection(toSend.value, otherIncidents, otherScheduled));
    var update := Update(toSend.value, toSend.value.fields);
    var msg := BuildSummary(otherIncidents, otherScheduled);
    assert AfterFetch(httpStatus, incidents, scheduled, now, service, channelId)
        == DispatchOf(Selection(toSend.value, otherIncidents, otherScheduled), service, channelId);
    out := Dispatch(update, service.name, InvokerOnly(channelId), false, true, if msg == "" then None else Some(msg));
  }

  // ---------------------------------------------------------------------------
  // Properties of the command
  // ---------------------------------------------------------------------------

  /** An active cooldown ends the command at once, whatever the later inputs are. */
  lemma CooldownGate(cooldown: Option<real>, restrictions: Option<seq<int>>, channels: map<int, Channel>,
                     httpStatus: int, incidents: seq<Incident>, scheduled: seq<Incident>, now: int,
                     service: Service, channelId: int)
    ensures var out := StatusOutcome(cooldown, restrictions, channels, httpStatus, incidents, scheduled, now,
                                     service, channelId);
      out.Cooldown? <==> CooldownActive(cooldown)
    ensures CooldownActive(cooldown) ==>
      StatusOutcome(cooldown, restrictions, channels, httpStatus, incidents, scheduled, now, service, channelId)
        == Cooldown(service.friendly, cooldown.value)
  {
  }

  /**
   * A restriction that names at least one text channel stops the command,
   * even when it is invoked in one of those channels; when none of the named
   * channels is a text channel, the command goes on as if unrestricted.
   */
  lemma RestrictionGate(cooldown: Option<real>, restrictions: Option<seq<int>>, channels: map<int, Channel>,
                        httpStatus: int, incidents: seq<Incident>, scheduled: seq<Incident>, now: int,
                        service: Service, channelId: int)
    requires !CooldownActive(cooldown)
    requires restrictions.Some?
    ensures (exists id | id in restrictions.value :: ResolvesToText(id, channels)) ==>
      StatusOutcome(cooldown, restrictions, channels, httpStatus, incidents, scheduled, now, service, channelId)
        == Restricted(service.friendly, Mentions(restrictions.value, channels))
    ensures (forall id | id in restrictions.value :: !ResolvesToText(id, channels)) ==>
      StatusOutcome(cooldown, restrictions, channels, httpStatus, incidents, scheduled, now, service, channelId)
        == StatusOutcome(cooldown, None, channels, httpStatus, incidents, scheduled, now, service, channelId)
  {
  }

  /** Past both gates, any HTTP status other than 200 ends the command with an apology. */
  lemma HttpGate(cooldown: Option<real>, restrictions: Option<seq<int>>, channels: map<int, Channel>,
                 httpStatus: int, incidents: seq<Incident>, scheduled: seq<Incident>, now: int,
                 service: Service, channelId: int)
    requires !CooldownActive(cooldown) && PermittedMentions(restrictions, channels) == []
    ensures var out := StatusOutcome(cooldown, restrictions, channels, httpStatus, incidents, scheduled, now,
                                     service, channelId);
      out.FetchFailed? <==> httpStatus != 200
    ensures httpStatus != 200 ==>
      StatusOutcome(cooldown, restrictions, channels, httpStatus, incidents, scheduled, now, service, channelId)
        == FetchFailed(FetchFailedMessage(service.friendly))
  {
  }

  /**
   * Live incidents take priority: the first is dispatched and the rest are
   * counted and listed; no maintenance event is mentioned.
   */
  lemma LiveIncidentsFirst(cooldown: Option<real>, restrictions: Option<seq<int>>, channels: map<int, Channel>,
                           incidents: seq<Incident>, scheduled: seq<Incident>, now: int,
                           service: Service, channelId: int)
    requires !CooldownActive(cooldown) && PermittedMentions(restrictions, channels) == []
    requires incidents != []
    ensures var out := StatusOutcome(cooldown, restrictions, channels, 200, incidents, scheduled, now,
                                     service, channelId);
      && out.Dispatch?
      && out.update == Update(incidents[0], incidents[0].fields)
      && out.summary == if |incidents| == 1 then None
                        else Some(AppendLines(IncidentsHeader(|incidents| - 1), incidents[1..], "\n"))
  {
    assert "" + IncidentsHeader(|incidents| - 1) == IncidentsHeader(|incidents| - 1);
  }

  /** With live incidents A, B and C, A is dispatched and B and C are listed under a count of two. */
  lemma ThreeLiveIncidents(a: Incident, b: Incident, c: Incident, scheduled: seq<Incident>, now: int,
                           service: Service, channelId: int)
    ensures var out := StatusOutcome(None, None, map[], 200, [a, b, c], scheduled, now, service, channelId);
      && out.Dispatch? && out.update.incident == a
      && out.summary == Some(IncidentsHeader(2) + Line(b) + "\n" + Line(c) + "\n")
      && IncidentsHeader(2) == NatToString(2) + " other incidents are live at the moment:\n"
      && NatToString(2) == "2"
  {
    var others := [a, b, c][1..];
    assert others == [b, c] && others[..1] == [b] && [b][..0] == [];
    var header := IncidentsHeader(2);
    assert NatToString(2) == "2";
    assert "" + header == header;
    assert AppendLines(header, [b], "\n") == header + Line(b) + "\n";
    assert AppendLines(header, [b, c], "\n") == header + Line(b) + "\n" + Line(c) + "\n";
  }

  /** Without live incidents, the first maintenance event that has begun is dispatched. */
  lemma StartedMaintenanceNext(cooldown: Option<real>, restrictions: Option<seq<int>>, channels: map<int, Channel>,
                               scheduled: seq<Incident>, now: int, service: Service, channelId: int)
    requires !CooldownActive(cooldown) && PermittedMentions(restrictions, channels) == []
    requires Started(scheduled, now) != []
    ensures var started := Started(scheduled, now);
      var out := StatusOutcome(cooldown, restrictions, channels, 200, [], scheduled, now, service, channelId);
      && out.Dispatch?
      && out.update.incident == started[0] && HasStarted(started[0], now)
      && out.summary == if |started| == 1 then None
                        else Some(AppendLines(ScheduledHeader(|started| - 1), started[1..], ""))
  {
    var started := Started(scheduled, now);
    assert "" + ScheduledHeader(|started| - 1) == ScheduledHeader(|started| - 1);
  }

  /** With nothing live and nothing begun, the reply is the fixed message and nothing is dispatched. */
  lemma NothingLive(cooldown: Option<real>, restrictions: Option<seq<int>>, channels: map<int, Channel>,
                    scheduled: seq<Incident>, now: int, service: Service, channelId: int)
    requires !CooldownActive(cooldown) && PermittedMentions(restrictions, channels) == []
    requires forall i | i in scheduled :: !HasStarted(i, now)
    ensures StatusOutcome(cooldown, restrictions, channels, 200, [], scheduled, now, service, channelId)
              == NoIncidents(NoLiveIncidents)
  {
    StartedEmpty(scheduled, now);
  }

  /**
   * A dispatch goes only to the invoking channel, in mode "all" without a
   * webhook, with broadcasting off and delivery forced; a summary, when sent,
   * is never empty.
   */
  lemma DispatchShape(cooldown: Option<real>, restrictions: Option<seq<int>>, channels: map<int, Channel>,
                      httpStatus: int, incidents: seq<Incident>, scheduled: seq<Incident>, now: int,
                      service: Service, channelId: int)
    ensures var out := StatusOutcome(cooldown, restrictions, channels, httpStatus, incidents, scheduled, now,
                                     service, channelId);
      out.Dispatch? ==>
        && out.targets.Keys == {channelId}
        && out.targets[channelId] == DeliveryMode("all", false, map[])
        && !out.dispatch && out.force
        && out.serviceName == service.name
        && out.update.fields == out.update.incident.fields
        && (out.summary.Some? ==> out.summary.value != "")
    ensures var out := StatusOutcome(cooldown, restrictions, channels, httpStatus, incidents, scheduled, now,
                                     service, channelId);
      out.Dispatch? <==>
        && !CooldownActive(cooldown) && PermittedMentions(restrictions, channels) == [] && httpStatus == 200
        && (incidents != [] || Started(scheduled, now) != [])
  {
  }
}
