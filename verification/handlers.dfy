/** The `run` logic of every action, with each backend call replaced by its outcome in `Env`.
    Each handler is a pure function of the turn snapshot and the environment; its `requests`
    record the calls the action would make, in order. */
module Handlers {
  import opened Wrappers
  import opened Strings
  import opened Json
  import opened Conversation
  import opened Backend
  import Pollutants

  /** The opening shared by the apologies for backend failures and by the user-not-found reply. */
  const SorryCouldNot := "Sorry, I couldn't "

  /** The reply holds exactly one literal-text message. */
  predicate OneLiteral(r: Reply) {
    |r.messages| == 1 && r.messages[0].Text?
  }

  // ---------------------------------------------------------------------------------------------
  // ActionGeneralKnowledgeFallback

  /** Always the out-of-scope template, and the user's utterance is reverted; no moderation,
      no login, no backend. */
  function GeneralKnowledgeFallback(ctx: Context): (r: Reply)
    ensures r.messages == [Template(OutOfScopeTemplate)]
    ensures r.events == [UserUtteranceReverted]
    ensures r.requests == []
  {
    Reply([Template(OutOfScopeTemplate)], [UserUtteranceReverted], [])
  }

  // ---------------------------------------------------------------------------------------------
  // ActionExplainPollutant

  const PollutantEntity := "pollutant"
  const ClarificationPrompt := "Which pollutant are you asking about? I know about CO, SO2, Ozone, PM2.5, PM10, etc."

  /** The pollutant entities of the latest message. */
  function PollutantEntities(ctx: Context): seq<string> {
    EntityValues(ctx.entities, PollutantEntity)
  }

  /** One message: the answer pieces for `queries`, separated by blank lines. */
  function Answer(queries: seq<string>): Reply {
    Reply([Text(Join(Pollutants.Pieces(queries), "\n\n"))], [], [])
  }

  /** Entities take precedence; without them the lower-cased text is scanned for known aliases.
      With no text to scan, the source's `None.lower()` raises. */
  function ExplainPollutant(ctx: Context): (o: Outcome)
    ensures Flagged(ctx) ==> o == Done(ModerationWarning())
    ensures !Flagged(ctx) && PollutantEntities(ctx) != [] ==> o == Done(Answer(PollutantEntities(ctx)))
    ensures !Flagged(ctx) && PollutantEntities(ctx) == [] && ctx.text.None? ==> o == Raised("AttributeError")
    ensures !Flagged(ctx) && PollutantEntities(ctx) == [] && ctx.text.Some? ==>
      var found := Pollutants.KeywordScan(ctx.text.value);
      && (found == [] ==> o == Done(Reply([Text(ClarificationPrompt)], [], [])))
      && (found != [] ==> o == Done(Answer(found)))
    ensures o.Done? ==> o.reply.requests == [] && |o.reply.messages| == 1
  {
    if Flagged(ctx) then Done(ModerationWarning())
    else
      var entities := PollutantEntities(ctx);
      if entities != [] then Done(Answer(entities))
      else match ctx.text
        case None => Raised("AttributeError")
        case Some(t) =>
          var found := Pollutants.KeywordScan(t);
          if found != [] then Done(Answer(found))
          else Done(Reply([Text(ClarificationPrompt)], [], []))
  }

  // ---------------------------------------------------------------------------------------------
  // ActionGetEcoPoints

  const EcoPointsApology := SorryCouldNot + "fetch your Eco-Points right now."

  function EcoPointsText(p: Profile): string {
    "You currently have " + Render(p.ecoPoints.GetOr(JInt(0))) + " Eco-Points!"
  }

  function GetEcoPoints(ctx: Context, env: Env): (r: Reply)
    ensures Flagged(ctx) ==> r == ModerationWarning()
    ensures !Flagged(ctx) && !LoggedIn(ctx) ==> r == NeedLogin([])
    ensures !Flagged(ctx) && LoggedIn(ctx) ==>
      && r.requests == [Request(GET, "/users/profile", Some(Bearer(ctx)), [])]
      && r.events == []
      && OneLiteral(r)
      && (env.profile.Err? <==> r.messages == [Text(EcoPointsApology)])
      && (env.profile.Ok? ==> r.messages == [Text(EcoPointsText(env.profile.payload))])
  {
    if Flagged(ctx) then ModerationWarning()
    else if !LoggedIn(ctx) then NeedLogin([])
    else
      var request := Request(GET, "/users/profile", Some(Bearer(ctx)), []);
      match env.profile
      case Ok(p) =>
        assert EcoPointsText(p)[0] == 'Y' && EcoPointsApology[0] == 'S';
        Reply([Text(EcoPointsText(p))], [], [request])
      case Err => Reply([Text(EcoPointsApology)], [], [request])
  }

  /** A profile without a points field shows a total of 0. */
  lemma EcoPointsDefaultZero()
    ensures EcoPointsText(Profile(None)) == "You currently have 0 Eco-Points!"
  {
    assert NatToString(0) == "0";
  }

  // ---------------------------------------------------------------------------------------------
  // ActionGetMyReports

  const MaxListedReports := 5
  const ReportsTitle := "Here are your recent reports:"
  const NoReportsText := "You haven't submitted any reports recently."
  const ReportsApology := SorryCouldNot + "fetch your reports right now."

  function ReportLine(row: ReportRow): string {
    "- Report ID: " + Render(row.id.GetOr(JStr("N/A")))
      + ", Location: " + Render(row.locationName.GetOr(JStr("N/A")))
  }

  /** One line per listed report: the first `MaxListedReports` of them, in backend order. */
  function ReportLines(rows: seq<ReportRow>): (lines: seq<string>)
    ensures |lines| <= MaxListedReports && |lines| <= |rows|
    ensures |rows| > 0 ==> |lines| > 0
  {
    var shown := Take(rows, MaxListedReports);
    seq(|shown|, i requires 0 <= i < |shown| => ReportLine(shown[i]))
  }

  function ReportsText(rows: seq<ReportRow>): string {
    if |rows| == 0 then NoReportsText else ReportsTitle + "\n" + Join(ReportLines(rows), "\n")
  }

  function GetMyReports(ctx: Context, env: Env): (r: Reply)
    ensures Flagged(ctx) ==> r == ModerationWarning()
    ensures !Flagged(ctx) && !LoggedIn(ctx) ==> r == NeedLogin([])
    ensures !Flagged(ctx) && LoggedIn(ctx) ==>
      && r.requests == [Request(GET, "/reports/mine", Some(Bearer(ctx)), [])]
      && r.events == []
      && OneLiteral(r)
      && (env.myReports.Err? <==> r.messages == [Text(ReportsApology)])
      && (env.myReports == Ok([]) <==> r.messages == [Text(NoReportsText)])
      && (env.myReports.Ok? && env.myReports.payload != [] ==>
            r.messages == [Text(ReportsText(env.myReports.payload))])
  {
    if Flagged(ctx) then ModerationWarning()
    else if !LoggedIn(ctx) then NeedLogin([])
    else
      var request := Request(GET, "/reports/mine", Some(Bearer(ctx)), []);
      match env.myReports
      case Ok(rows) =>
        assert ReportsApology[0] == 'S' && NoReportsText[0] == 'Y';
        assert rows != [] ==> ReportsText(rows)[0] == 'H';
        Reply([Text(ReportsText(rows))], [], [request])
      case Err => Reply([Text(ReportsApology)], [], [request])
  }

  /** The fields of a report that end up in its listing line render on one line. */
  predicate ReportRowSingleLine(row: ReportRow) {
    SingleLine(row.id.GetOr(JStr("N/A"))) && SingleLine(row.locationName.GetOr(JStr("N/A")))
  }

  /** The non-empty reports listing occupies one header line plus one line per shown report, so at
      most `MaxListedReports` report lines, as long as the shown reports' fields are single-line;
      reports past the fifth never reach the text, so their fields do not matter. */
  lemma ReportsListingLines(rows: seq<ReportRow>)
    requires |rows| > 0
    requires forall i :: 0 <= i < |rows| && i < MaxListedReports ==> ReportRowSingleLine(rows[i])
    ensures Count(ReportsText(rows), '\n') == |ReportLines(rows)|
    ensures |ReportLines(rows)| == if |rows| < MaxListedReports then |rows| else MaxListedReports
    ensures forall i :: 0 <= i < |ReportLines(rows)| ==> ReportLines(rows)[i] == ReportLine(rows[i])
  {
    var lines := ReportLines(rows);
    assert forall i :: 0 <= i < |lines| ==> '\n' !in lines[i];
    CountListing(ReportsTitle, lines);
  }

  /** Reports past the fifth never show. */
  lemma ReportsBeyondFifthIgnored(rows: seq<ReportRow>)
    requires |rows| >= MaxListedReports
    ensures ReportsText(rows) == ReportsText(rows[..MaxListedReports])
  {
    assert ReportLines(rows) == ReportLines(rows[..MaxListedReports]);
  }

  // ---------------------------------------------------------------------------------------------
  // ActionGetDailyMission

  const DefaultMission := "No mission assigned today."
  const MissionApology := SorryCouldNot + "fetch your daily mission right now."

  function MissionText(m: Mission): string {
    "Today's mission: " + Render(m.description.GetOr(JStr(DefaultMission)))
  }

  function GetDailyMission(ctx: Context, env: Env): (r: Reply)
    ensures Flagged(ctx) ==> r == ModerationWarning()
    ensures !Flagged(ctx) && !LoggedIn(ctx) ==> r == NeedLogin([])
    ensures !Flagged(ctx) && LoggedIn(ctx) ==>
      && r.requests == [Request(GET, "/missions/today", Some(Bearer(ctx)), [])]
      && r.events == []
      && OneLiteral(r)
      && (env.mission.Err? <==> r.messages == [Text(MissionApology)])
      && (env.mission.Ok? ==> r.messages == [Text(MissionText(env.mission.payload))])
  {
    if Flagged(ctx) then ModerationWarning()
    else if !LoggedIn(ctx) then NeedLogin([])
    else
      var request := Request(GET, "/missions/today", Some(Bearer(ctx)), []);
      match env.mission
      case Ok(m) =>
        assert MissionText(m)[0] == 'T' && MissionApology[0] == 'S';
        Reply([Text(MissionText(m))], [], [request])
      case Err => Reply([Text(MissionApology)], [], [request])
  }

  /** A mission without a description shows the default sentence. */
  lemma MissionDefault()
    ensures MissionText(Mission(None)) == "Today's mission: No mission assigned today."
  {
  }

  // ---------------------------------------------------------------------------------------------
  // ActionGetLeaderboardTop

  const MaxLeaders := 3
  const LeaderboardTitle := "Here are the current top contributors:"
  const EmptyLeaderboardText := "The leaderboard is currently empty."
  const LeaderboardApology := SorryCouldNot + "fetch the leaderboard right now."

  function LeaderLine(rank: nat, row: LeaderRow): string {
    "- " + NatToString(rank) + ". " + Render(row.username.GetOr(JStr("N/A")))
      + " (" + Render(row.ecoPoints.GetOr(JInt(0))) + " points)"
  }

  /** The first `MaxLeaders` entries, ranked 1, 2, ... in backend order. */
  function LeaderLines(rows: seq<LeaderRow>): (lines: seq<string>)
    ensures |lines| <= MaxLeaders && |lines| <= |rows|
    ensures |rows| > 0 ==> |lines| > 0
  {
    var shown := Take(rows, MaxLeaders);
    seq(|shown|, i requires 0 <= i < |shown| => LeaderLine(i + 1, shown[i]))
  }

  function LeaderboardText(rows: seq<LeaderRow>): string {
    if |rows| == 0 then EmptyLeaderboardText else LeaderboardTitle + "\n" + Join(LeaderLines(rows), "\n")
  }

  /** The leaderboard is public: no login gate and no Authorization header. */
  function GetLeaderboardTop(ctx: Context, env: Env): (r: Reply)
    ensures Flagged(ctx) ==> r == ModerationWarning()
    ensures !Flagged(ctx) ==>
      && r.requests == [Request(GET, "/users/leaderboard", None, [])]
      && r.events == []
      && OneLiteral(r)
      && (env.leaderboard.Err? <==> r.messages == [Text(LeaderboardApology)])
      && (env.leaderboard == Ok([]) <==> r.messages == [Text(EmptyLeaderboardText)])
      && (env.leaderboard.Ok? && env.leaderboard.payload != [] ==>
            r.messages == [Text(LeaderboardText(env.leaderboard.payload))])
  {
    if Flagged(ctx) then ModerationWarning()
    else
      var request := Request(GET, "/users/leaderboard", None, []);
      match env.leaderboard
      case Ok(rows) =>
        assert LeaderboardApology[0] == 'S' && EmptyLeaderboardText[0] == 'T';
        assert rows != [] ==> LeaderboardText(rows)[0] == 'H';
        Reply([Text(LeaderboardText(rows))], [], [request])
      case Err => Reply([Text(LeaderboardApology)], [], [request])
  }

  /** The fields of a leaderboard entry that end up in its line render on one line. */
  predicate LeaderRowSingleLine(row: LeaderRow) {
    SingleLine(row.username.GetOr(JStr("N/A"))) && SingleLine(row.ecoPoints.GetOr(JInt(0)))
  }

  /** A ranked line of an entry whose fields render on one line is itself one line. */
  lemma LeaderLineSingleLine(rank: nat, row: LeaderRow)
    requires LeaderRowSingleLine(row)
    ensures '\n' !in LeaderLine(rank, row)
  {
    var r := NatToString(rank);
    assert forall k :: 0 <= k < |r| ==> IsDigit(r[k]);
    assert '\n' !in r;
  }

  /** The non-empty leaderboard shows one header line plus at most `MaxLeaders` ranked lines; the
      entry in position `i` of the backend's list is shown with rank `i + 1`. Only the shown entries'
      fields need to be single-line. */
  lemma LeaderboardListingLines(rows: seq<LeaderRow>)
    requires |rows| > 0
    requires forall i :: 0 <= i < |rows| && i < MaxLeaders ==> LeaderRowSingleLine(rows[i])
    ensures Count(LeaderboardText(rows), '\n') == |LeaderLines(rows)|
    ensures |LeaderLines(rows)| == if |rows| < MaxLeaders then |rows| else MaxLeaders
    ensures forall i :: 0 <= i < |LeaderLines(rows)| ==> LeaderLines(rows)[i] == LeaderLine(i + 1, rows[i])
  {
    var lines := LeaderLines(rows);
    var shown := Take(rows, MaxLeaders);
    forall i | 0 <= i < |lines|
      ensures lines[i] == LeaderLine(i + 1, rows[i]) && '\n' !in lines[i]
    {
      assert i < MaxLeaders && shown[i] == rows[i];
      LeaderLineSingleLine(i + 1, rows[i]);
    }
    CountListing(LeaderboardTitle, lines);
    assert LeaderboardText(rows) == LeaderboardTitle + "\n" + Join(lines, "\n");
  }

  /** Entries past the third never show. */
  lemma LeadersBeyondThirdIgnored(rows: seq<LeaderRow>)
    requires |rows| >= MaxLeaders
    ensures LeaderboardText(rows) == LeaderboardText(rows[..MaxLeaders])
  {
    assert LeaderLines(rows) == LeaderLines(rows[..MaxLeaders]);
  }

  /** The leaderboard answer does not depend on whether, or as whom, the user is logged in. */
  lemma LeaderboardIgnoresLogin(ctx: Context, env: Env, metadata: Option<map<string, Scalar>>)
    ensures GetLeaderboardTop(ctx.(metadata := metadata), env) == GetLeaderboardTop(ctx, env)
  {
  }

  // ---------------------------------------------------------------------------------------------
  // ActionReportSymptom

  const SymptomSlot := "symptom"
  const MissedSymptom := "I seem to have missed the symptom. Could you please try reporting it again?"

  function SymptomLogged(s: string): string {
    "Got it. I've logged your symptom: '" + (s + "'. Thank you for contributing!")
  }

  function SymptomApology(s: string): string {
    SorryCouldNot + ("log your symptom '" + s + "' right now. Please try again later.")
  }

  /** The action as written: the timestamp expression names `datetime`, which is never imported,
      so once login and the slot check pass the action raises before any request is made. */
  function ReportSymptomAsWritten(ctx: Context): (o: Outcome)
    ensures !LoggedIn(ctx) ==> o == Done(NeedLogin(ClearSlot(SymptomSlot)))
    ensures LoggedIn(ctx) && !SlotFilled(ctx, SymptomSlot) ==> o == Done(Reply([Text(MissedSymptom)], [], []))
    ensures LoggedIn(ctx) && SlotFilled(ctx, SymptomSlot) ==> o == Raised("NameError")
  {
    if !LoggedIn(ctx) then Done(NeedLogin(ClearSlot(SymptomSlot)))
    else if !SlotFilled(ctx, SymptomSlot) then Done(Reply([Text(MissedSymptom)], [], []))
    else Raised("NameError")
  }

  /** The action as intended: the symptom is POSTed with the current timestamp and the slot is
      cleared whatever the backend answers. */
  function ReportSymptom(ctx: Context, env: Env): (r: Reply)
    ensures !LoggedIn(ctx) ==> r == NeedLogin(ClearSlot(SymptomSlot))
    ensures LoggedIn(ctx) && !SlotFilled(ctx, SymptomSlot) ==> r == Reply([Text(MissedSymptom)], [], [])
    ensures LoggedIn(ctx) && SlotFilled(ctx, SymptomSlot) ==>
      var symptom := ctx.slots[SymptomSlot];
      && r.requests == [Request(POST, "/health/report", Some(Bearer(ctx)),
                                [("symptom", symptom), ("timestamp", JStr(env.now))])]
      && r.events == ClearSlot(SymptomSlot)
      && OneLiteral(r)
      && (env.symptomPost.Err? <==> r.messages == [Text(SymptomApology(Render(symptom)))])
      && (env.symptomPost.Ok? ==> r.messages == [Text(SymptomLogged(Render(symptom)))])
  {
    if !LoggedIn(ctx) then NeedLogin(ClearSlot(SymptomSlot))
    else if !SlotFilled(ctx, SymptomSlot) then Reply([Text(MissedSymptom)], [], [])
    else
      var symptom := ctx.slots[SymptomSlot];
      var s := Render(symptom);
      var request := Request(POST, "/health/report", Some(Bearer(ctx)),
                             [("symptom", symptom), ("timestamp", JStr(env.now))]);
      match env.symptomPost
      case Ok(_) =>
        assert SymptomLogged(s)[0] == 'G' && SymptomApology(s)[0] == 'S';
        Reply([Text(SymptomLogged(s))], ClearSlot(SymptomSlot), [request])
      case Err => Reply([Text(SymptomApology(s))], ClearSlot(SymptomSlot), [request])
  }

  // ---------------------------------------------------------------------------------------------
  // ActionCreateHealthReport

  const LocationSlot := "report_location"
  const MissedLocation := "I seem to have missed the location. Could you please try creating the report again?"
  const ReportDetails := "Report created via chatbot"

  function ReportCreated(created: Created, location: string): string {
    "Okay, I've created a new health report (ID: "
      + (Render(created.id.GetOr(JStr("N/A"))) + ") for " + location + ". You can add more details on the website.")
  }

  function ReportApology(location: string): string {
    SorryCouldNot + ("create the health report for " + location + " right now.")
  }

  function CreateHealthReport(ctx: Context, env: Env): (r: Reply)
    ensures !LoggedIn(ctx) ==> r == NeedLogin(ClearSlot(LocationSlot))
    ensures LoggedIn(ctx) && !SlotFilled(ctx, LocationSlot) ==> r == Reply([Text(MissedLocation)], [], [])
    ensures LoggedIn(ctx) && SlotFilled(ctx, LocationSlot) ==>
      var location := ctx.slots[LocationSlot];
      && r.requests == [Request(POST, "/reports", Some(Bearer(ctx)),
                                [("location", location), ("details", JStr(ReportDetails))])]
      && r.events == ClearSlot(LocationSlot)
      && OneLiteral(r)
      && (env.reportPost.Err? <==> r.messages == [Text(ReportApology(Render(location)))])
      && (env.reportPost.Ok? ==> r.messages == [Text(ReportCreated(env.reportPost.payload, Render(location)))])
  {
    if !LoggedIn(ctx) then NeedLogin(ClearSlot(LocationSlot))
    else if !SlotFilled(ctx, LocationSlot) then Reply([Text(MissedLocation)], [], [])
    else
      var location := ctx.slots[LocationSlot];
      var l := Render(location);
      var request := Request(POST, "/reports", Some(Bearer(ctx)),
                             [("location", location), ("details", JStr(ReportDetails))]);
      match env.reportPost
      case Ok(created) =>
        assert ReportCreated(created, l)[0] == 'O' by {
          var opening := "Okay, I've created a new health report (ID: ";
          assert opening[0] == 'O';
        }
        assert ReportApology(l)[0] == 'S';
        Reply([Text(ReportCreated(created, l))], ClearSlot(LocationSlot), [request])
      case Err => Reply([Text(ReportApology(l))], ClearSlot(LocationSlot), [request])
  }

  /** A created report without an id is announced with the id "N/A" and the location as given. */
  lemma ReportCreatedWithoutId(location: string)
    ensures ReportCreated(Created(None), location) ==
      "Okay, I've created a new health report (ID: N/A) for " + location + ". You can add more details on the website."
  {
  }

  // ---------------------------------------------------------------------------------------------
  // ActionSendConnectionRequest

  const RecipientSlot := "connection_recipient"
  const MissedRecipient := "I seem to have missed the username. Who did you want to connect with?"
  const MissingUserId := "Found the user, but couldn't get their ID."

  function UserNotFound(u: string): string {
    SorryCouldNot + ("find a user named '" + u + "'. Please check the username.")
  }

  function RequestSent(u: string): string {
    "Okay, I've sent a connection request to " + (u + ".")
  }

  function ConnectionApology(u: string): string {
    SorryCouldNot + ("send the connection request to " + u + " right now.")
  }

  /** Step 1: look the recipient up by username. */
  function SearchRequest(ctx: Context, username: string): Request
    requires LoggedIn(ctx)
  {
    Request(GET, "/users/search?username=" + username, Some(Bearer(ctx)), [])
  }

  /** Step 2: ask for the connection, addressed by the recipient's id. */
  function ConnectRequest(ctx: Context, id: Scalar): Request
    requires LoggedIn(ctx)
  {
    Request(POST, "/connections/request/" + Render(id), Some(Bearer(ctx)), [])
  }

  /** The search found someone and the first hit carries a truthy "id". */
  predicate FoundRecipient(search: Response<seq<UserHit>>) {
    search.Ok? && |search.payload| > 0
    && search.payload[0].id.Some? && Truthy(search.payload[0].id.value)
  }

  function SendConnectionRequest(ctx: Context, env: Env): (r: Reply)
    ensures !LoggedIn(ctx) ==> r == NeedLogin(ClearSlot(RecipientSlot))
    ensures LoggedIn(ctx) && !SlotFilled(ctx, RecipientSlot) ==> r == Reply([Text(MissedRecipient)], [], [])
    ensures LoggedIn(ctx) && SlotFilled(ctx, RecipientSlot) ==>
      var u := Render(ctx.slots[RecipientSlot]);
      && r.events == ClearSlot(RecipientSlot)
      && OneLiteral(r)
      && 1 <= |r.requests| <= 2
      && r.requests[0] == SearchRequest(ctx, u)
      && (|r.requests| == 2 <==> FoundRecipient(env.userSearch))
      && (|r.requests| == 2 ==> r.requests[1] == ConnectRequest(ctx, env.userSearch.payload[0].id.value))
      && (env.userSearch == Ok([]) ==> r.messages == [Text(UserNotFound(u))])
      && (env.userSearch.Ok? && env.userSearch.payload != [] && !FoundRecipient(env.userSearch)
          ==> r.messages == [Text(MissingUserId)])
      && (r.messages == [Text(RequestSent(u))] <==> |r.requests| == 2 && env.connectionPost.Ok?)
      && (r.messages == [Text(ConnectionApology(u))] <==>
            env.userSearch.Err? || (FoundRecipient(env.userSearch) && env.connectionPost.Err?))
  {
    if !LoggedIn(ctx) then NeedLogin(ClearSlot(RecipientSlot))
    else if !SlotFilled(ctx, RecipientSlot) then Reply([Text(MissedRecipient)], [], [])
    else
      var u := Render(ctx.slots[RecipientSlot]);
      var search := SearchRequest(ctx, u);
      var clear := ClearSlot(RecipientSlot);
      assert RequestSent(u)[0] == 'O';
      assert ConnectionApology(u)[0] == 'S' && UserNotFound(u)[0] == 'S' && MissingUserId[0] == 'F';
      assert ConnectionApology(u)[18] == 's' && UserNotFound(u)[18] == 'f';
      match env.userSearch
      case Err => Reply([Text(ConnectionApology(u))], clear, [search])
      case Ok(users) =>
        if |users| == 0 then Reply([Text(UserNotFound(u))], clear, [search])
        else if !FoundRecipient(env.userSearch) then Reply([Text(MissingUserId)], clear, [search])
        else
          var connect := ConnectRequest(ctx, users[0].id.value);
          match env.connectionPost
          case Ok(_) => Reply([Text(RequestSent(u))], clear, [search, connect])
          case Err => Reply([Text(ConnectionApology(u))], clear, [search, connect])
  }

  // ---------------------------------------------------------------------------------------------
  // ActionHealthEffects

  /** The same template whether or not the user is logged in. */
  function HealthEffects(ctx: Context): (r: Reply)
    ensures Flagged(ctx) ==> r == ModerationWarning()
    ensures !Flagged(ctx) ==> r == Reply([Template(HealthEffectsTemplate)], [], [])
  {
    if Flagged(ctx) then ModerationWarning()
    else if LoggedIn(ctx) then Reply([Template(HealthEffectsTemplate)], [], [])
    else Reply([Template(HealthEffectsTemplate)], [], [])
  }

  /** HealthEffects answers the same whether or not, or as whom, the user is logged in. */
  lemma HealthEffectsIgnoresLogin(ctx: Context, metadata: Option<map<string, Scalar>>)
    ensures HealthEffects(ctx.(metadata := metadata)) == HealthEffects(ctx)
  {
  }

  // ---------------------------------------------------------------------------------------------
  // The explainer on three concrete turns, and on every turn with nothing to match

  /** An entity is looked up whatever its case: the entity "CO" yields the carbon monoxide text. */
  lemma ExplainCarbonMonoxideEntity(ctx: Context)
    requires ctx.entities == [Entity(PollutantEntity, "CO")]
    requires !Flagged(ctx)
    ensures ExplainPollutant(ctx) == Done(Reply([Text(Pollutants.CarbonMonoxide)], [], []))
  {
    assert PollutantEntities(ctx) == ["CO"];
    assert Lower("CO") == "co";
    Pollutants.KnownAliasExplained("CO", 1);
    assert Pollutants.Pieces(["CO"]) == [Pollutants.CarbonMonoxide];
  }

  /** The answer for the single alias "pm2.5" is its description alone. */
  lemma FineParticlesAnswer()
    ensures Answer([Pollutants.Keys()[8]]) == Reply([Text(Pollutants.FineParticles)], [], [])
  {
    var q := Pollutants.Keys()[8];
    Pollutants.KnownAliasExplained(q, 8);
    assert Pollutants.Pieces([q]) == [Pollutants.FineParticles];
  }

  /** Without entities, the alias is found in the text itself. */
  lemma ExplainFineParticlesFromText(ctx: Context)
    requires ctx.entities == [] && ctx.text == Some("what about pm2.5")
    ensures ExplainPollutant(ctx) == Done(Reply([Text(Pollutants.FineParticles)], [], []))
  {
    var t := ctx.text.value;
    assert !Flagged(ctx) by {
      assert Lower(t) == "what about pm2.5";
      Moderation.CleanWithoutLetterD(t);
    }
    assert PollutantEntities(ctx) == [];
    Pollutants.ScanFindsFineParticles(t);
    FineParticlesAnswer();
  }

  /** With neither entities nor a known alias in the text, the user is asked which pollutant. */
  lemma ExplainAsksWhenNothingMatches(ctx: Context)
    requires !Flagged(ctx) && ctx.entities == [] && ctx.text.Some?
    requires forall k :: 0 <= k < |Pollutants.Keys()| ==> !Occurs(Pollutants.Keys()[k], Lower(ctx.text.value))
    ensures ExplainPollutant(ctx) == Done(Reply([Text(ClarificationPrompt)], [], []))
  {
    assert PollutantEntities(ctx) == [];
    Pollutants.ScanNone(Pollutants.Keys(), Lower(ctx.text.value));
  }

  /** For example, "hello" mentions no pollutant. */
  lemma ExplainAsksOnHello(ctx: Context)
    requires ctx.entities == [] && ctx.text == Some("hello")
    ensures ExplainPollutant(ctx) == Done(Reply([Text(ClarificationPrompt)], [], []))
  {
    var t := ctx.text.value;
    assert Lower(t) == "hello";
    Moderation.CleanWithoutLetterD(t);
    var ks := Pollutants.Keys();
    assert ks == ["carbon monoxide", "co", "sulphur dioxide", "so2", "ozone", "o3",
                  "nitrogen dioxide", "no2", "pm2.5", "pm10"];
    forall i | 0 <= i < |ks|
      ensures !Occurs(ks[i], Lower(t))
    {
      var c := if i < 2 then 'c' else if i < 4 then 's' else if i == 4 then 'z'
               else if i == 5 then '3' else if i < 8 then 'n' else 'p';
      assert c in ks[i];
      MissingCharNoOccurrence(ks[i], Lower(t), c);
    }
    ExplainAsksWhenNothingMatches(ctx);
  }

  // ---------------------------------------------------------------------------------------------
  // ActionReportSymptom: the code as written against the intended behaviour

  /** Once login and the slot check pass, the action as written raises instead of clearing the
      slot, while the intended action clears it whatever the backend answers. */
  lemma ReportSymptomAsWrittenNeverClears(ctx: Context, env: Env)
    requires LoggedIn(ctx) && SlotFilled(ctx, SymptomSlot)
    ensures ReportSymptomAsWritten(ctx) == Raised("NameError")
    ensures ReportSymptom(ctx, env).events == ClearSlot(SymptomSlot)
    ensures ReportSymptomAsWritten(ctx) != Done(ReportSymptom(ctx, env))
  {
  }

  /** A concrete turn that hits the crash: a logged-in user who reported "cough". */
  lemma ReportSymptomCrashWitness(env: Env)
    ensures var ctx := Context(Some("I have a cough"), Some(map["token" := JStr("jwt")]), [],
                               map[SymptomSlot := JStr("cough")]);
            ReportSymptomAsWritten(ctx) == Raised("NameError")
            && ReportSymptom(ctx, env).events == [SlotSet("symptom", None)]
  {
  }

  /** Everywhere before the timestamp is computed, the code as written and the intended action agree. */
  lemma ReportSymptomAgreesBeforeTimestamp(ctx: Context, env: Env)
    requires !(LoggedIn(ctx) && SlotFilled(ctx, SymptomSlot))
    ensures ReportSymptomAsWritten(ctx) == Done(ReportSymptom(ctx, env))
  {
  }
}
