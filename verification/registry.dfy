/** The action server's registry: each action's `name()` and the dispatch from a name to its run.
    The uniform gate ladder (moderation, then login, then required slot, then backend outcome) is
    stated here once for all handlers. */
module Registry {
  import opened Wrappers
  import opened Json
  import opened Conversation
  import opened Backend
  import opened Handlers

  datatype ActionKind =
    | GeneralKnowledgeFallbackAction
    | ExplainPollutantAction
    | GetEcoPointsAction
    | GetMyReportsAction
    | GetDailyMissionAction
    | GetLeaderboardTopAction
    | ReportSymptomAction
    | CreateHealthReportAction
    | SendConnectionRequestAction
    | HealthEffectsAction

  /** What the server registers: the ten actions and the symptom form's validator. */
  datatype Registered = Action(kind: ActionKind) | SymptomFormValidator

  function Name(e: Registered): string {
    match e
    case Action(GeneralKnowledgeFallbackAction) => "action_general_knowledge_fallback"
    case Action(ExplainPollutantAction) => "action_explain_pollutant"
    case Action(GetEcoPointsAction) => "action_get_eco_points"
    case Action(GetMyReportsAction) => "action_get_my_reports"
    case Action(GetDailyMissionAction) => "action_get_daily_mission"
    case Action(GetLeaderboardTopAction) => "action_get_leaderboard_top"
    case Action(ReportSymptomAction) => "action_report_symptom"
    case Action(CreateHealthReportAction) => "action_create_health_report"
    case Action(SendConnectionRequestAction) => "action_send_connection_request"
    case Action(HealthEffectsAction) => "action_health_effects"
    case SymptomFormValidator => "validate_symptom_form"
  }

  const Entries: seq<Registered> := [
    Action(GeneralKnowledgeFallbackAction), Action(ExplainPollutantAction),
    Action(GetEcoPointsAction), Action(GetMyReportsAction), Action(GetDailyMissionAction),
    Action(GetLeaderboardTopAction), Action(ReportSymptomAction), Action(CreateHealthReportAction),
    Action(SendConnectionRequestAction), Action(HealthEffectsAction), SymptomFormValidator
  ]

  /** Where `e` sits in the registry: every action class is registered. */
  function Position(e: Registered): (i: nat)
    ensures i < |Entries| && Entries[i] == e
  {
    match e
    case Action(GeneralKnowledgeFallbackAction) => 0
    case Action(ExplainPollutantAction) => 1
    case Action(GetEcoPointsAction) => 2
    case Action(GetMyReportsAction) => 3
    case Action(GetDailyMissionAction) => 4
    case Action(GetLeaderboardTopAction) => 5
    case Action(ReportSymptomAction) => 6
    case Action(CreateHealthReportAction) => 7
    case Action(SendConnectionRequestAction) => 8
    case Action(HealthEffectsAction) => 9
    case SymptomFormValidator => 10
  }

  /** No two registered entries share a name. */
  lemma NamesDistinct()
    ensures forall i, j :: 0 <= i < j < |Entries| ==> Name(Entries[i]) != Name(Entries[j])
  {
  }

  /** A name identifies its entry. */
  lemma NameInjective(a: Registered, b: Registered)
    requires Name(a) == Name(b)
    ensures a == b
  {
  }

  /** The first entry of `entries` registered under `name`. */
  function FindByName(entries: seq<Registered>, name: string): (r: Option<Registered>)
    ensures r.None? <==> forall i :: 0 <= i < |entries| ==> Name(entries[i]) != name
    ensures r.Some? ==> r.value in entries && Name(r.value) == name
  {
    if |entries| == 0 then None
    else if Name(entries[0]) == name then Some(entries[0])
    else
      var rest := FindByName(entries[1..], name);
      assert forall i :: 1 <= i < |entries| ==> entries[i] == entries[1..][i - 1];
      rest
  }

  /** A name that no registry entry carries is carried by nothing that could be registered. */
  lemma RegistryCoversNames(name: string)
    ensures (forall i :: 0 <= i < |Entries| ==> Name(Entries[i]) != name) ==> forall e :: Name(e) != name
  {
    if forall i :: 0 <= i < |Entries| ==> Name(Entries[i]) != name {
      forall e
        ensures Name(e) != name
      {
        var i := Position(e);
        assert Name(Entries[i]) != name;
      }
    }
  }

  /** The registry lookup the dialogue engine's call goes through. */
  function Lookup(name: string): (r: Option<Registered>)
    ensures r.Some? ==> Name(r.value) == name
    ensures r.None? <==> forall e :: Name(e) != name
  {
    RegistryCoversNames(name);
    FindByName(Entries, name)
  }

  /** Looking up a registered name finds exactly the entry registered under it. */
  lemma LookupName(e: Registered)
    ensures Lookup(Name(e)) == Some(e)
  {
    var r := Lookup(Name(e));
    NameInjective(r.value, e);
  }

  /** One run of an action, as the code is written: `ReportSymptomAction` raises once its login and
      slot checks pass (see `Handlers.ReportSymptomAsWritten`; the intended behaviour is
      `Handlers.ReportSymptom`). */
  function Run(kind: ActionKind, ctx: Context, env: Env): Outcome {
    match kind
    case GeneralKnowledgeFallbackAction => Done(GeneralKnowledgeFallback(ctx))
    case ExplainPollutantAction => ExplainPollutant(ctx)
    case GetEcoPointsAction => Done(GetEcoPoints(ctx, env))
    case GetMyReportsAction => Done(GetMyReports(ctx, env))
    case GetDailyMissionAction => Done(GetDailyMission(ctx, env))
    case GetLeaderboardTopAction => Done(GetLeaderboardTop(ctx, env))
    case ReportSymptomAction => ReportSymptomAsWritten(ctx)
    case CreateHealthReportAction => Done(CreateHealthReport(ctx, env))
    case SendConnectionRequestAction => Done(SendConnectionRequest(ctx, env))
    case HealthEffectsAction => Done(HealthEffects(ctx))
  }

  /** Running the action registered under `name`; `None` when no action is registered under it
      (an unknown name, or the form validator, which is not run as an action here). */
  function Invoke(name: string, ctx: Context, env: Env): (r: Option<Outcome>)
    ensures forall k :: Name(Action(k)) == name ==> r == Some(Run(k, ctx, env))
    ensures (forall k :: Name(Action(k)) != name) ==> r == None
  {
    forall k | Name(Action(k)) == name
      ensures Lookup(name) == Some(Action(k))
    {
      LookupName(Action(k));
    }
    match Lookup(name)
    case Some(Action(k)) => Some(Run(k, ctx, env))
    case Some(SymptomFormValidator) => None
    case None => None
  }

  // ---------------------------------------------------------------------------------------------
  // The gate ladder

  /** Handlers that check the latest text before anything else. */
  predicate Moderated(kind: ActionKind) {
    kind in {ExplainPollutantAction, GetEcoPointsAction, GetMyReportsAction, GetDailyMissionAction,
             GetLeaderboardTopAction, HealthEffectsAction}
  }

  /** Handlers that refuse to proceed without a login token. */
  predicate NeedsLogin(kind: ActionKind) {
    kind in {GetEcoPointsAction, GetMyReportsAction, GetDailyMissionAction,
             ReportSymptomAction, CreateHealthReportAction, SendConnectionRequestAction}
  }

  /** The form slot a handler consumes, if any. */
  function SlotOf(kind: ActionKind): Option<string> {
    match kind
    case ReportSymptomAction => Some(SymptomSlot)
    case CreateHealthReportAction => Some(LocationSlot)
    case SendConnectionRequestAction => Some(RecipientSlot)
    case _ => None
  }

  /** The events returned when the login gate refuses: the consumed slot, if any, is cleared. */
  function LoginRefusalEvents(kind: ActionKind): seq<Event> {
    match SlotOf(kind)
    case Some(slot) => ClearSlot(slot)
    case None => []
  }

  /** The turn is stopped by the moderation or the login gate. */
  predicate Gated(kind: ActionKind, ctx: Context) {
    (Moderated(kind) && Flagged(ctx)) || (NeedsLogin(kind) && !LoggedIn(ctx))
  }

  /** Moderation comes first: flagged text gets only the warning and a revert. */
  lemma ModerationShortCircuits(kind: ActionKind, ctx: Context, env: Env)
    requires Moderated(kind) && Flagged(ctx)
    ensures Run(kind, ctx, env) == Done(ModerationWarning())
  {
  }

  /** Then login: without a truthy token, only the login template, clearing the consumed slot. */
  lemma LoginGateRefuses(kind: ActionKind, ctx: Context, env: Env)
    requires NeedsLogin(kind) && !LoggedIn(ctx) && !(Moderated(kind) && Flagged(ctx))
    ensures Run(kind, ctx, env) == Done(NeedLogin(LoginRefusalEvents(kind)))
  {
  }

  /** A gated turn makes no backend call: its outcome is the same whatever the backend would say. */
  lemma GatedTurnsNeverCallBackend(kind: ActionKind, ctx: Context, env1: Env, env2: Env)
    requires Gated(kind, ctx)
    ensures Run(kind, ctx, env1) == Run(kind, ctx, env2)
    ensures Run(kind, ctx, env1).Done? && Run(kind, ctx, env1).reply.requests == []
  {
  }

  /** Then the slot: logged in but with the slot empty, one retry message, no events (the slot is
      not cleared) and no backend call. */
  lemma MissingSlotAsksAgain(kind: ActionKind, ctx: Context, env: Env)
    requires SlotOf(kind).Some? && LoggedIn(ctx) && !SlotFilled(ctx, SlotOf(kind).value)
    ensures Run(kind, ctx, env).Done?
    ensures var r := Run(kind, ctx, env).reply;
            OneLiteral(r) && r.events == [] && r.requests == []
  {
  }

  /** Past every gate, the report and connection handlers clear their slot and say exactly one
      literal message, whatever the backend answers. (The symptom report raises there instead; see
      `SymptomReportRaises`.) */
  lemma ConsumedSlotAlwaysCleared(kind: ActionKind, ctx: Context, env: Env)
    requires kind == CreateHealthReportAction || kind == SendConnectionRequestAction
    requires LoggedIn(ctx) && SlotFilled(ctx, SlotOf(kind).value)
    ensures Run(kind, ctx, env).Done?
    ensures var r := Run(kind, ctx, env).reply;
            OneLiteral(r) && r.events == ClearSlot(SlotOf(kind).value) && |r.requests| > 0
  {
  }

  /** As written, the symptom report raises `NameError` on every turn that passes its login and
      slot checks, before any request, message or event. */
  lemma SymptomReportRaises(ctx: Context, env: Env)
    requires LoggedIn(ctx) && SlotFilled(ctx, SymptomSlot)
    ensures Run(ReportSymptomAction, ctx, env) == Raised("NameError")
  {
  }

  /** Backend failures never escape. Exactly two turns raise: the explainer's with no text to
      scan, and the symptom report's past its checks. */
  lemma WhichTurnsRaise(kind: ActionKind, ctx: Context, env: Env)
    ensures Run(kind, ctx, env).Raised? <==>
      || (kind == ExplainPollutantAction && !Flagged(ctx) && ctx.text.None? && PollutantEntities(ctx) == [])
      || (kind == ReportSymptomAction && LoggedIn(ctx) && SlotFilled(ctx, SymptomSlot))
  {
  }

  /** Every request carries the user's bearer token, except the public leaderboard's, which
      carries none. */
  lemma RequestsCarryToken(kind: ActionKind, ctx: Context, env: Env)
    requires Run(kind, ctx, env).Done?
    ensures var reqs := Run(kind, ctx, env).reply.requests;
            forall i :: 0 <= i < |reqs| ==>
              if kind == GetLeaderboardTopAction then reqs[i].authorization.None?
              else LoggedIn(ctx) && reqs[i].authorization == Some(Bearer(ctx))
  {
  }

  /** The connection request is POSTed only after a search whose first hit has a truthy id, and
      is addressed to that id. */
  lemma ConnectionPostOnlyAfterSearch(ctx: Context, env: Env)
    ensures var reqs := SendConnectionRequest(ctx, env).requests;
            forall i :: 0 <= i < |reqs| && reqs[i].verb == POST ==>
              && i == 1 && reqs[0].verb == GET
              && FoundRecipient(env.userSearch)
              && reqs[1].path == "/connections/request/" + Render(env.userSearch.payload[0].id.value)
  {
  }
}
