/** The backend as the actions see it: for each endpoint, the outcome of the call this turn.
    A call either succeeds with the few JSON fields the action reads, or fails with a
    `requests.exceptions.RequestException` (transport error or non-2xx status); the two kinds of
    failure are handled identically, so they are not distinguished. */
module Backend {
  import opened Wrappers
  import opened Json

  datatype Response<+T> = Ok(payload: T) | Err

  /** GET /users/profile: the "ecoPoints" field, if present. */
  datatype Profile = Profile(ecoPoints: Option<Scalar>)

  /** One element of GET /reports/mine: its "id" and its "location"."name", if present. */
  datatype ReportRow = ReportRow(id: Option<Scalar>, locationName: Option<Scalar>)

  /** GET /missions/today: the "description" field, if present. */
  datatype Mission = Mission(description: Option<Scalar>)

  /** One element of GET /users/leaderboard. */
  datatype LeaderRow = LeaderRow(username: Option<Scalar>, ecoPoints: Option<Scalar>)

  /** POST /reports: the "id" of the created report, if present. */
  datatype Created = Created(id: Option<Scalar>)

  /** One element of GET /users/search. */
  datatype UserHit = UserHit(id: Option<Scalar>)

  /** POST responses whose body the actions ignore. */
  datatype Ack = Ack

  /** Everything outside the action server that a turn can observe: one outcome per endpoint
      and the wall-clock timestamp (ISO 8601 text) a symptom report is stamped with. */
  datatype Env = Env(
    profile: Response<Profile>,
    myReports: Response<seq<ReportRow>>,
    mission: Response<Mission>,
    leaderboard: Response<seq<LeaderRow>>,
    symptomPost: Response<Ack>,
    reportPost: Response<Created>,
    userSearch: Response<seq<UserHit>>,
    connectionPost: Response<Ack>,
    now: string)
}
