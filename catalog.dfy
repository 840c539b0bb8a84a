/** The operation catalog: for every operation of the driver, the HTTP verb,
    the endpoint path and the shape of its payload (each field name with the
    kind of value sent under it). Every request the driver builds is proved
    to conform to its row. */
module Catalog {
  import opened Wire

  datatype Kind = Str | Int | Ints

  function KindOf(v: Value): (k: Kind) {
    match v
    case VStr(_) => Str
    case VInt(_) => Int
    case VInts(_) => Ints
  }

  datatype Operation =
    | SaveScore
    | GetLeaderboard
    | GetLeaderboardWithPlayerStats
    | GetLeaderboardForPlayer
    | GetPlayerScore
    | GetLeaderboardCount
    | GetRivals
    | GetPlayerRank
    | GetPlayerRanks
    | GetScoreRank
    | GetScoreRanks
    | GetAchievements
    | GetEarnedAchievements
    | AchievementEarned
    | LogApplicationStart
    | LogCustomStat
    | LogError
    | GetAssets
    | Rename

  datatype Descriptor = Descriptor(verb: Verb, path: string, shape: map<string, Kind>)

  function Describe(op: Operation): (d: Descriptor)
    ensures d.verb == Post <==> op in {SaveScore, AchievementEarned, LogApplicationStart, LogCustomStat, LogError, Rename}
    ensures |d.shape| > 0
    ensures "lid" in d.shape <==> d.path in {"scores", "scores/count", "scores/rivals", "ranks"}
  {
    match op
    case SaveScore =>
      Descriptor(Post, "scores", map["lid" := Str, "username" := Str, "userkey" := Str, "points" := Int, "data" := Str])
    case GetLeaderboard =>
      Descriptor(Get, "scores", map["lid" := Str, "page" := Int, "records" := Int, "scope" := Int])
    case GetLeaderboardWithPlayerStats =>
      Descriptor(Get, "scores", map["lid" := Str, "with_player" := Str, "username" := Str, "userkey" := Str,
                                    "page" := Int, "records" := Int, "scope" := Int])
    case GetLeaderboardForPlayer =>
      Descriptor(Get, "scores", map["lid" := Str, "username" := Str, "userkey" := Str, "records" := Int, "scope" := Int])
    case GetPlayerScore =>
      Descriptor(Get, "scores", map["lid" := Str, "username" := Str, "userkey" := Str, "records" := Int, "scope" := Int])
    case GetLeaderboardCount =>
      Descriptor(Get, "scores/count", map["lid" := Str, "scope" := Int])
    case GetRivals =>
      Descriptor(Get, "scores/rivals", map["lid" := Str, "username" := Str, "userkey" := Str, "scope" := Int])
    case GetPlayerRank =>
      Descriptor(Get, "ranks", map["lid" := Str, "username" := Str, "userkey" := Str, "scopes" := Int])
    case GetPlayerRanks =>
      Descriptor(Get, "ranks", map["lid" := Str, "username" := Str, "userkey" := Str, "scopes" := Ints])
    case GetScoreRank =>
      Descriptor(Get, "ranks", map["lid" := Str, "score" := Int, "scopes" := Int])
    case GetScoreRanks =>
      Descriptor(Get, "ranks", map["lid" := Str, "score" := Int, "scopes" := Ints])
    case GetAchievements =>
      Descriptor(Get, "achievements", map["key" := Str])
    case GetEarnedAchievements =>
      Descriptor(Get, "achievements", map["username" := Str, "userkey" := Str, "key" := Str])
    case AchievementEarned =>
      Descriptor(Post, "achievements", map["aid" := Str, "username" := Str, "userkey" := Str])
    case LogApplicationStart =>
      Descriptor(Post, "stats", map["userkey" := Str])
    case LogCustomStat =>
      Descriptor(Post, "stats", map["custom" := Int])
    case LogError =>
      Descriptor(Post, "errors", map["subject" := Str, "details" := Str])
    case GetAssets =>
      Descriptor(Get, "assets", map["key" := Str])
    case Rename =>
      Descriptor(Post, "users/rename", map["username" := Str, "userkey" := Str, "newname" := Str])
  }

  /** A request is an instance of the operation's row: same verb, same path,
      exactly the row's field names, each carrying a value of the row's kind. */
  predicate Conforms(q: Request, op: Operation) {
    var d := Describe(op);
    && q.verb == d.verb
    && q.path == d.path
    && q.payload.Keys == d.shape.Keys
    && forall k | k in d.shape :: KindOf(q.payload[k]) == d.shape[k]
  }

  /** The operations that identify a player by user name and device key. */
  predicate PlayerScoped(op: Operation) {
    "userkey" in Describe(op).shape
  }

  /** Every player-scoped operation sends the user name beside the device key,
      except the application-start stat, which sends the device key alone. */
  lemma PlayerScopedSendUserName(op: Operation)
    requires PlayerScoped(op)
    ensures ("username" in Describe(op).shape) <==> op != LogApplicationStart
  {
  }

  /** The score-based rank operations send a score and no identity at all. */
  lemma ScoreRanksAnonymous(op: Operation)
    requires op == GetScoreRank || op == GetScoreRanks
    ensures !PlayerScoped(op) && "username" !in Describe(op).shape && "score" in Describe(op).shape
  {
  }

  /** The single-scope and multi-scope rank operations differ only in the kind
      of value under `scopes`. */
  lemma RankRowsDifferInScopes()
    ensures Describe(GetPlayerRanks).shape == Describe(GetPlayerRank).shape["scopes" := Ints]
    ensures Describe(GetScoreRanks).shape == Describe(GetScoreRank).shape["scopes" := Ints]
  {
  }
}
