/** The driver: one member per operation of the game-services API. Each
    operation builds a fresh payload from its arguments, sends it to a fixed
    endpoint with a fixed verb, and, when the transport reports success,
    decodes the raw body into the response's `data`. Every operation has a
    callback form and an awaitable (`...Async`) form; both are modelled and
    both are proved to send the catalog row's request, built here once per
    operation as a `...Request` function. */
module Dispatch {
  import opened Wrappers
  import opened Wire
  import Catalog

  const Version := "gamma"

  /** The game's credentials. They never change after construction and are
      used by the transport to sign requests. */
  datatype Driver = Driver(key: string, secret: string)

  /** The validation fault of the constructor: the offending parameter. */
  datatype Fault = NullOrEmpty(parameter: string)

  /** The transport (the communicator): signs a request with the driver's
      credentials, performs the HTTP exchange and returns the envelope. */
  type Transport = (Driver, Request) -> Envelope

  // Result types. Only the fields the driver reads are modelled.
  type SavedScore
  type LeaderboardScores
  type Ranks
  type Achievement
  type Asset
  datatype Score = Score(userName: string, points: int, data: string)
  datatype LeaderboardScoresWithPlayerStats =
    LeaderboardScoresWithPlayerStats(scores: LeaderboardScores, rank: int, player: Score)

  /** The constructor: both the game key and the secret must be non-empty;
      the game key is checked first. */
  function NewDriver(gameKey: Option<string>, secret: Option<string>): (r: Result<Driver, Fault>)
    ensures r.Success? <==> !IsNullOrEmpty(gameKey) && !IsNullOrEmpty(secret)
    ensures r.Success? ==> r.value.key == gameKey.value && r.value.secret == secret.value
    ensures IsNullOrEmpty(gameKey) ==> r == Failure(NullOrEmpty("gameKey"))
    ensures !IsNullOrEmpty(gameKey) && IsNullOrEmpty(secret) ==> r == Failure(NullOrEmpty("secret"))
  {
    if IsNullOrEmpty(gameKey) then Failure(NullOrEmpty("gameKey"))
    else if IsNullOrEmpty(secret) then Failure(NullOrEmpty("secret"))
    else Success(Driver(gameKey.value, secret.value))
  }

  /** The request carries value `v` under field `k`. */
  predicate Sends(q: Request, k: string, v: Value) {
    k in q.payload && q.payload[k] == v
  }

  /** The request identifies the player by user name and device key. */
  predicate PlayerIs(q: Request, userName: string, uniqueIdentifier: string) {
    Sends(q, "username", VStr(userName)) && Sends(q, "userkey", VStr(uniqueIdentifier))
  }

  /** The request carries no player identity. */
  predicate Anonymous(q: Request) {
    "username" !in q.payload && "userkey" !in q.payload
  }

  // ---------------------------------------------------------------------
  // The catalog rows, with their arguments filled in.

  function SaveScoreRequest(leaderboardId: string, score: Score, uniqueIdentifier: string): (q: Request)
    ensures Catalog.Conforms(q, Catalog.SaveScore)
    ensures PlayerIs(q, score.userName, uniqueIdentifier)
    ensures Sends(q, "lid", VStr(leaderboardId)) && Sends(q, "points", VInt(score.points))
    ensures Sends(q, "data", VStr(score.data))
  {
    Request(Post, "scores", map["lid" := VStr(leaderboardId), "username" := VStr(score.userName),
      "userkey" := VStr(uniqueIdentifier), "points" := VInt(score.points), "data" := VStr(score.data)])
  }

  function LeaderboardRequest(leaderboardId: string, scope: Scope, page: int, records: int): (q: Request)
    ensures Catalog.Conforms(q, Catalog.GetLeaderboard) && Anonymous(q)
    ensures Sends(q, "lid", VStr(leaderboardId)) && Sends(q, "scope", VInt(ScopeOrd(scope)))
    ensures Sends(q, "page", VInt(page)) && Sends(q, "records", VInt(records))
  {
    Request(Get, "scores", map["lid" := VStr(leaderboardId), "page" := VInt(page), "records" := VInt(records),
      "scope" := VInt(ScopeOrd(scope))])
  }

  function LeaderboardWithPlayerStatsRequest(leaderboardId: string, scope: Scope, userName: string,
                                             uniqueIdentifier: string, page: int, records: int): (q: Request)
    ensures Catalog.Conforms(q, Catalog.GetLeaderboardWithPlayerStats)
    ensures PlayerIs(q, userName, uniqueIdentifier) && Sends(q, "with_player", VStr("true"))
    ensures Sends(q, "lid", VStr(leaderboardId)) && Sends(q, "scope", VInt(ScopeOrd(scope)))
    ensures Sends(q, "page", VInt(page)) && Sends(q, "records", VInt(records))
  {
    Request(Get, "scores", map["lid" := VStr(leaderboardId), "with_player" := VStr("true"),
      "username" := VStr(userName), "userkey" := VStr(uniqueIdentifier), "page" := VInt(page),
      "records" := VInt(records), "scope" := VInt(ScopeOrd(scope))])
  }

  function LeaderboardForPlayerRequest(leaderboardId: string, scope: Scope, userName: string,
                                       uniqueIdentifier: string, records: int): (q: Request)
    ensures Catalog.Conforms(q, Catalog.GetLeaderboardForPlayer)
    ensures PlayerIs(q, userName, uniqueIdentifier) && Sends(q, "records", VInt(records))
    ensures Sends(q, "lid", VStr(leaderboardId)) && Sends(q, "scope", VInt(ScopeOrd(scope)))
  {
    Request(Get, "scores", map["lid" := VStr(leaderboardId), "username" := VStr(userName),
      "userkey" := VStr(uniqueIdentifier), "records" := VInt(records), "scope" := VInt(ScopeOrd(scope))])
  }

  /** The player's own score is the one-record page around the player. */
  function PlayerScoreRequest(leaderboardId: string, scope: Scope, userName: string, uniqueIdentifier: string): (q: Request)
    ensures Catalog.Conforms(q, Catalog.GetPlayerScore)
    ensures q == LeaderboardForPlayerRequest(leaderboardId, scope, userName, uniqueIdentifier, 1)
  {
    Request(Get, "scores", map["lid" := VStr(leaderboardId), "username" := VStr(userName),
      "userkey" := VStr(uniqueIdentifier), "records" := VInt(1), "scope" := VInt(ScopeOrd(scope))])
  }

  function LeaderboardCountRequest(leaderboardId: string, scope: Scope): (q: Request)
    ensures Catalog.Conforms(q, Catalog.GetLeaderboardCount) && Anonymous(q)
    ensures Sends(q, "lid", VStr(leaderboardId)) && Sends(q, "scope", VInt(ScopeOrd(scope)))
  {
    Request(Get, "scores/count", map["lid" := VStr(leaderboardId), "scope" := VInt(ScopeOrd(scope))])
  }

  function RivalsRequest(leaderboardId: string, scope: Scope, userName: string, uniqueIdentifier: string): (q: Request)
    ensures Catalog.Conforms(q, Catalog.GetRivals)
    ensures PlayerIs(q, userName, uniqueIdentifier)
    ensures Sends(q, "lid", VStr(leaderboardId)) && Sends(q, "scope", VInt(ScopeOrd(scope)))
  {
    Request(Get, "scores/rivals", map["lid" := VStr(leaderboardId), "username" := VStr(userName),
      "userkey" := VStr(uniqueIdentifier), "scope" := VInt(ScopeOrd(scope))])
  }

  /** The single-scope rank query sends its one ordinal under `scopes`. */
  function PlayerRankRequest(leaderboardId: string, userName: string, uniqueIdentifier: string, scope: Scope): (q: Request)
    ensures Catalog.Conforms(q, Catalog.GetPlayerRank)
    ensures PlayerIs(q, userName, uniqueIdentifier)
    ensures Sends(q, "lid", VStr(leaderboardId)) && Sends(q, "scopes", VInt(ScopeOrd(scope)))
  {
    Request(Get, "ranks", map["lid" := VStr(leaderboardId), "username" := VStr(userName),
      "userkey" := VStr(uniqueIdentifier), "scopes" := VInt(ScopeOrd(scope))])
  }

  function PlayerRanksRequest(leaderboardId: string, userName: string, uniqueIdentifier: string, scopes: seq<Scope>): (q: Request)
    ensures Catalog.Conforms(q, Catalog.GetPlayerRanks)
    ensures PlayerIs(q, userName, uniqueIdentifier)
    ensures Sends(q, "lid", VStr(leaderboardId)) && Sends(q, "scopes", VInts(WireScopes(scopes)))
  {
    Request(Get, "ranks", map["lid" := VStr(leaderboardId), "username" := VStr(userName),
      "userkey" := VStr(uniqueIdentifier), "scopes" := VInts(WireScopes(scopes))])
  }

  function ScoreRankRequest(leaderboardId: string, score: int, scope: Scope): (q: Request)
    ensures Catalog.Conforms(q, Catalog.GetScoreRank) && Anonymous(q)
    ensures Sends(q, "lid", VStr(leaderboardId)) && Sends(q, "score", VInt(score))
    ensures Sends(q, "scopes", VInt(ScopeOrd(scope)))
  {
    Request(Get, "ranks", map["lid" := VStr(leaderboardId), "score" := VInt(score), "scopes" := VInt(ScopeOrd(scope))])
  }

  function ScoreRanksRequest(leaderboardId: string, score: int, scopes: seq<Scope>): (q: Request)
    ensures Catalog.Conforms(q, Catalog.GetScoreRanks) && Anonymous(q)
    ensures Sends(q, "lid", VStr(leaderboardId)) && Sends(q, "score", VInt(score))
    ensures Sends(q, "scopes", VInts(WireScopes(scopes)))
  {
    Request(Get, "ranks", map["lid" := VStr(leaderboardId), "score" := VInt(score), "scopes" := VInts(WireScopes(scopes))])
  }

  function AchievementsRequest(d: Driver): (q: Request)
    ensures Catalog.Conforms(q, Catalog.GetAchievements) && Anonymous(q)
    ensures Sends(q, "key", VStr(d.key))
  {
    Request(Get, "achievements", map["key" := VStr(d.key)])
  }

  function EarnedAchievementsRequest(d: Driver, userName: string, uniqueIdentifier: string): (q: Request)
    ensures Catalog.Conforms(q, Catalog.GetEarnedAchievements)
    ensures PlayerIs(q, userName, uniqueIdentifier) && Sends(q, "key", VStr(d.key))
  {
    Request(Get, "achievements", map["username" := VStr(userName), "userkey" := VStr(uniqueIdentifier), "key" := VStr(d.key)])
  }

  function AchievementEarnedRequest(achievementId: string, userName: string, uniqueIdentifier: string): (q: Request)
    ensures Catalog.Conforms(q, Catalog.AchievementEarned)
    ensures PlayerIs(q, userName, uniqueIdentifier) && Sends(q, "aid", VStr(achievementId))
  {
    Request(Post, "achievements", map["aid" := VStr(achievementId), "username" := VStr(userName),
      "userkey" := VStr(uniqueIdentifier)])
  }

  function ApplicationStartRequest(uniqueIdentifier: string): (q: Request)
    ensures Catalog.Conforms(q, Catalog.LogApplicationStart)
    ensures Sends(q, "userkey", VStr(uniqueIdentifier)) && "username" !in q.payload
  {
    Request(Post, "stats", map["userkey" := VStr(uniqueIdentifier)])
  }

  function CustomStatRequest(index: int): (q: Request)
    ensures Catalog.Conforms(q, Catalog.LogCustomStat) && Anonymous(q)
    ensures Sends(q, "custom", VInt(index))
  {
    Request(Post, "stats", map["custom" := VInt(index)])
  }

  function ErrorRequest(subject: string, details: string): (q: Request)
    ensures Catalog.Conforms(q, Catalog.LogError) && Anonymous(q)
    ensures Sends(q, "subject", VStr(subject)) && Sends(q, "details", VStr(details))
  {
    Request(Post, "errors", map["subject" := VStr(subject), "details" := VStr(details)])
  }

  function AssetsRequest(d: Driver): (q: Request)
    ensures Catalog.Conforms(q, Catalog.GetAssets) && Anonymous(q)
    ensures Sends(q, "key", VStr(d.key))
  {
    Request(Get, "assets", map["key" := VStr(d.key)])
  }

  function RenameRequest(uniqueIdentifier: string, oldUserName: string, newUserName: string): (q: Request)
    ensures Catalog.Conforms(q, Catalog.Rename)
    ensures PlayerIs(q, oldUserName, uniqueIdentifier) && Sends(q, "newname", VStr(newUserName))
  {
    Request(Post, "users/rename", map["username" := VStr(oldUserName), "userkey" := VStr(uniqueIdentifier),
      "newname" := VStr(newUserName)])
  }

  /** The default multi-scope queries ask for exactly the four scopes, in the
      order Daily, Weekly, Overall, Yesterday: no other scope list produces
      the same request. */
  lemma {:induction false} DefaultRanksScopes(leaderboardId: string, userName: string, uniqueIdentifier: string,
                                              score: int, scopes: seq<Scope>)
    ensures Sends(PlayerRanksRequest(leaderboardId, userName, uniqueIdentifier, AllScopes), "scopes",
                  VInts([ScopeOrd(Daily), ScopeOrd(Weekly), ScopeOrd(Overall), ScopeOrd(Yesterday)]))
    ensures (PlayerRanksRequest(leaderboardId, userName, uniqueIdentifier, scopes)
             == PlayerRanksRequest(leaderboardId, userName, uniqueIdentifier, AllScopes)) ==> scopes == AllScopes
    ensures (ScoreRanksRequest(leaderboardId, score, scopes) == ScoreRanksRequest(leaderboardId, score, AllScopes))
            ==> scopes == AllScopes
  {
    var all := [ScopeOrd(Daily), ScopeOrd(Weekly), ScopeOrd(Overall), ScopeOrd(Yesterday)];
    assert WireScopes(AllScopes) == all;
    if PlayerRanksRequest(leaderboardId, userName, uniqueIdentifier, scopes)
       == PlayerRanksRequest(leaderboardId, userName, uniqueIdentifier, AllScopes) {
      assert PlayerRanksRequest(leaderboardId, userName, uniqueIdentifier, scopes).payload["scopes"]
             == VInts(WireScopes(AllScopes));
      WireScopesInjective(scopes, AllScopes);
    }
    if ScoreRanksRequest(leaderboardId, score, scopes) == ScoreRanksRequest(leaderboardId, score, AllScopes) {
      assert ScoreRanksRequest(leaderboardId, score, scopes).payload["scopes"] == VInts(WireScopes(AllScopes));
      WireScopesInjective(scopes, AllScopes);
    }
  }

  // ---------------------------------------------------------------------
  // Sending and decoding.

  /** The communicator's send: the request goes out with the driver's
      credentials and comes back as a fresh response object, `data` unset. */
  method Communicate<T>(d: Driver, verb: Verb, path: string, payload: Payload, net: Transport)
    returns (sent: Request, r: Response<T>)
    ensures sent == Request(verb, path, payload)
    ensures fresh(r) && r.View() == Received(net(d, sent))
  {
    sent := Request(verb, path, payload);
    r := new Response(net(d, sent));
  }

  /** The private helper of the awaitable GET operations: always `Get`, then
      the decode rule. */
  method SendPayloadAsync<T>(d: Driver, endpoint: string, payload: Payload, net: Transport, decode: Decoder<T>)
    returns (sent: Request, r: Response<T>)
    ensures sent == Request(Get, endpoint, payload)
    ensures fresh(r) && r.View() == Finish(net(d, sent), decode)
  {
    sent, r := Communicate(d, Get, endpoint, payload, net);
    if r.success {
      r.data := decode(r.raw);
    }
  }

  /** The wire form of a scope array, filled element by element into a new
      integer array. */
  method RealScopes(scopes: seq<Scope>) returns (realScopes: seq<int>)
    ensures realScopes == WireScopes(scopes)
  {
    var a := new int[|scopes|];
    for i := 0 to |scopes|
      invariant forall k :: 0 <= k < i ==> a[k] == ScopeOrd(scopes[k])
    {
      a[i] := ScopeOrd(scopes[i]);
    }
    realScopes := a[..];
  }

  /** The rivals reply of the callback form: an empty body is an empty list. */
  function RivalsCallbackFinish(env: Envelope, decode: Decoder<seq<Score>>): (out: Reply<seq<Score>>)
    ensures out.success == env.success && out.raw == env.raw && out.error == env.error
    ensures env.success && env.raw == "" ==> out.data == Some([])
    ensures env.success && env.raw != "" ==> out.data == decode(env.raw)
    ensures !env.success ==> out.data == None
  {
    var r := Received<seq<Score>>(env);
    if env.success then r.(data := if env.raw == "" then Some([]) else decode(env.raw)) else r
  }

  /** The rivals reply of the awaitable form: a null result is replaced by an
      empty list, so on success the list is never absent. */
  function RivalsAsyncFinish(env: Envelope, decode: Decoder<seq<Score>>): (out: Reply<seq<Score>>)
    ensures out.success == env.success && out.raw == env.raw && out.error == env.error
    ensures env.success ==> out.data == Some(decode(env.raw).GetOr([]))
    ensures out.data.Some? <==> env.success
  {
    var r := Finish(env, decode);
    if env.success && r.data.None? then r.(data := Some([])) else r
  }

  /** The two rivals forms agree exactly when the call failed, or the body is
      non-empty and decodes to a list, or the body is empty and decodes to
      null or to the empty list. */
  lemma RivalsFormsAgree(env: Envelope, decode: Decoder<seq<Score>>)
    ensures RivalsCallbackFinish(env, decode) == RivalsAsyncFinish(env, decode)
            <==> !env.success
                 || (env.raw != "" && decode(env.raw).Some?)
                 || (env.raw == "" && (decode(env.raw) == None || decode(env.raw) == Some([])))
  {
    if env.success && env.raw != "" && decode(env.raw).None? {
      assert RivalsCallbackFinish(env, decode).data != RivalsAsyncFinish(env, decode).data;
    }
  }

  // ---------------------------------------------------------------------
  // The operations, callback form and awaitable form.

  method SaveScore(d: Driver, leaderboardId: string, score: Score, uniqueIdentifier: string,
                   net: Transport, decode: Decoder<SavedScore>)
    returns (sent: Request, r: Response<SavedScore>)
    ensures sent == SaveScoreRequest(leaderboardId, score, uniqueIdentifier)
    ensures fresh(r) && r.View() == Finish(net(d, sent), decode)
  {
    var payload := map["lid" := VStr(leaderboardId), "username" := VStr(score.userName),
      "userkey" := VStr(uniqueIdentifier), "points" := VInt(score.points), "data" := VStr(score.data)];
    sent, r := Communicate(d, Post, "scores", payload, net);
    if r.success {
      r.data := decode(r.raw);
    }
  }

  method SaveScoreAsync(d: Driver, leaderboardId: string, score: Score, uniqueIdentifier: string,
                        net: Transport, decode: Decoder<SavedScore>)
    returns (sent: Request, r: Response<SavedScore>)
    ensures sent == SaveScoreRequest(leaderboardId, score, uniqueIdentifier)
    ensures fresh(r) && r.View() == Finish(net(d, sent), decode)
  {
    var payload := map["lid" := VStr(leaderboardId), "username" := VStr(score.userName),
      "userkey" := VStr(uniqueIdentifier), "points" := VInt(score.points), "data" := VStr(score.data)];
    sent, r := Communicate(d, Post, "scores", payload, net);
    if r.success {
      r.data := decode(r.raw);
    }
  }

  /** The private `GetLeaderboard(payload, callback)` shared by two
      leaderboard queries. */
  method SendLeaderboard(d: Driver, payload: Payload, net: Transport, decode: Decoder<LeaderboardScores>)
    returns (sent: Request, r: Response<LeaderboardScores>)
    ensures sent == Request(Get, "scores", payload)
    ensures fresh(r) && r.View() == Finish(net(d, sent), decode)
  {
    sent, r := Communicate(d, Get, "scores", payload, net);
    if r.success {
      r.data := decode(r.raw);
    }
  }

  method GetLeaderboard(d: Driver, leaderboardId: string, scope: Scope, page: int, records: int,
                        net: Transport, decode: Decoder<LeaderboardScores>)
    returns (sent: Request, r: Response<LeaderboardScores>)
    ensures sent == LeaderboardRequest(leaderboardId, scope, page, records)
    ensures fresh(r) && r.View() == Finish(net(d, sent), decode)
  {
    var payload := map["lid" := VStr(leaderboardId), "page" := VInt(page), "records" := VInt(records),
      "scope" := VInt(ScopeOrd(scope))];
    sent, r := SendLeaderboard(d, payload, net, decode);
  }

  method GetLeaderboardAsync(d: Driver, leaderboardId: string, scope: Scope, page: int, records: int,
                             net: Transport, decode: Decoder<LeaderboardScores>)
    returns (sent: Request, r: Response<LeaderboardScores>)
    ensures sent == LeaderboardRequest(leaderboardId, scope, page, records)
    ensures fresh(r) && r.View() == Finish(net(d, sent), decode)
  {
    var payload := map["lid" := VStr(leaderboardId), "page" := VInt(page), "records" := VInt(records),
      "scope" := VInt(ScopeOrd(scope))];
    sent, r := SendPayloadAsync(d, "scores", payload, net, decode);
  }

  method GetLeaderboardWithPlayerStats(d: Driver, leaderboardId: string, scope: Scope, userName: string,
                                       uniqueIdentifier: string, page: int, records: int,
                                       net: Transport, decode: Decoder<LeaderboardScoresWithPlayerStats>)
    returns (sent: Request, r: Response<LeaderboardScoresWithPlayerStats>)
    ensures sent == LeaderboardWithPlayerStatsRequest(leaderboardId, scope, userName, uniqueIdentifier, page, records)
    ensures fresh(r) && r.View() == Finish(net(d, sent), decode)
  {
    var payload := map["lid" := VStr(leaderboardId), "with_player" := VStr("true"),
      "username" := VStr(userName), "userkey" := VStr(uniqueIdentifier), "page" := VInt(page),
      "records" := VInt(records), "scope" := VInt(ScopeOrd(scope))];
    sent, r := Communicate(d, Get, "scores", payload, net);
    if r.success {
      r.data := decode(r.raw);
    }
  }

  method GetLeaderboardWithPlayerStatsAsync(d: Driver, leaderboardId: string, scope: Scope, userName: string,
                                            uniqueIdentifier: string, page: int, records: int,
                                            net: Transport, decode: Decoder<LeaderboardScoresWithPlayerStats>)
    returns (sent: Request, r: Response<LeaderboardScoresWithPlayerStats>)
    ensures sent == LeaderboardWithPlayerStatsRequest(leaderboardId, scope, userName, uniqueIdentifier, page, records)
    ensures fresh(r) && r.View() == Finish(net(d, sent), decode)
  {
    var payload := map["lid" := VStr(leaderboardId), "with_player" := VStr("true"),
      "username" := VStr(userName), "userkey" := VStr(uniqueIdentifier), "page" := VInt(page),
      "records" := VInt(records), "scope" := VInt(ScopeOrd(scope))];
    sent, r := SendPayloadAsync(d, "scores", payload, net, decode);
  }

  method GetLeaderboardForPlayer(d: Driver, leaderboardId: string, scope: Scope, userName: string,
                                 uniqueIdentifier: string, records: int,
                                 net: Transport, decode: Decoder<LeaderboardScores>)
    returns (sent: Request, r: Response<LeaderboardScores>)
    ensures sent == LeaderboardForPlayerRequest(leaderboardId, scope, userName, uniqueIdentifier, records)
    ensures fresh(r) && r.View() == Finish(net(d, sent), decode)
  {
    var payload := map["lid" := VStr(leaderboardId), "username" := VStr(userName),
      "userkey" := VStr(uniqueIdentifier), "records" := VInt(records), "scope" := VInt(ScopeOrd(scope))];
    sent, r := SendLeaderboard(d, payload, net, decode);
  }

  method GetLeaderboardForPlayerAsync(d: Driver, leaderboardId: string, scope: Scope, userName: string,
                                      uniqueIdentifier: string, records: int,
                                      net: Transport, decode: Decoder<LeaderboardScores>)
    returns (sent: Request, r: Response<LeaderboardScores>)
    ensures sent == LeaderboardForPlayerRequest(leaderboardId, scope, userName, uniqueIdentifier, records)
    ensures fresh(r) && r.View() == Finish(net(d, sent), decode)
  {
    var payload := map["lid" := VStr(leaderboardId), "username" := VStr(userName),
      "userkey" := VStr(uniqueIdentifier), "records" := VInt(records), "scope" := VInt(ScopeOrd(scope))];
    sent, r := SendPayloadAsync(d, "scores", payload, net, decode);
  }

  method GetPlayerScore(d: Driver, leaderboardId: string, scope: Scope, userName: string,
                        uniqueIdentifier: string, net: Transport, decode: Decoder<Score>)
    returns (sent: Request, r: Response<Score>)
    ensures sent == PlayerScoreRequest(leaderboardId, scope, userName, uniqueIdentifier)
    ensures fresh(r) && r.View() == Finish(net(d, sent), decode)
  {
    var payload := map["lid" := VStr(leaderboardId), "username" := VStr(userName),
      "userkey" := VStr(uniqueIdentifier), "records" := VInt(1), "scope" := VInt(ScopeOrd(scope))];
    sent, r := Communicate(d, Get, "scores", payload, net);
    if r.success {
      r.data := decode(r.raw);
    }
  }

  method GetPlayerScoreAsync(d: Driver, leaderboardId: string, scope: Scope, userName: string,
                             uniqueIdentifier: string, net: Transport, decode: Decoder<Score>)
    returns (sent: Request, r: Response<Score>)
    ensures sent == PlayerScoreRequest(leaderboardId, scope, userName, uniqueIdentifier)
    ensures fresh(r) && r.View() == Finish(net(d, sent), decode)
  {
    var payload := map["lid" := VStr(leaderboardId), "username" := VStr(userName),
      "userkey" := VStr(uniqueIdentifier), "records" := VInt(1), "scope" := VInt(ScopeOrd(scope))];
    sent, r := SendPayloadAsync(d, "scores", payload, net, decode);
  }

  method GetLeaderboardCount(d: Driver, leaderboardId: string, scope: Scope, net: Transport, decode: Decoder<int>)
    returns (sent: Request, r: Response<int>)
    ensures sent == LeaderboardCountRequest(leaderboardId, scope)
    ensures fresh(r) && r.View() == Finish(net(d, sent), decode)
  {
    var payload := map["lid" := VStr(leaderboardId), "scope" := VInt(ScopeOrd(scope))];
    sent, r := Communicate(d, Get, "scores/count", payload, net);
    if r.success {
      r.data := decode(r.raw);
    }
  }

  method GetLeaderboardCountAsync(d: Driver, leaderboardId: string, scope: Scope, net: Transport, decode: Decoder<int>)
    returns (sent: Request, r: Response<int>)
    ensures sent == LeaderboardCountRequest(leaderboardId, scope)
    ensures fresh(r) && r.View() == Finish(net(d, sent), decode)
  {
    var payload := map["lid" := VStr(leaderboardId), "scope" := VInt(ScopeOrd(scope))];
    sent, r := SendPayloadAsync(d, "scores/count", payload, net, decode);
  }

  method GetRivals(d: Driver, leaderboardId: string, scope: Scope, userName: string, uniqueIdentifier: string,
                   net: Transport, decode: Decoder<seq<Score>>)
    returns (sent: Request, r: Response<seq<Score>>)
    ensures sent == RivalsRequest(leaderboardId, scope, userName, uniqueIdentifier)
    ensures fresh(r) && r.View() == RivalsCallbackFinish(net(d, sent), decode)
  {
    var payload := map["lid" := VStr(leaderboardId), "username" := VStr(userName),
      "userkey" := VStr(uniqueIdentifier), "scope" := VInt(ScopeOrd(scope))];
    sent, r := Communicate(d, Get, "scores/rivals", payload, net);
    if r.success {
      r.data := if r.raw == "" then Some([]) else decode(r.raw);
    }
  }

  method GetRivalsAsync(d: Driver, leaderboardId: string, scope: Scope, userName: string, uniqueIdentifier: string,
                        net: Transport, decode: Decoder<seq<Score>>)
    returns (sent: Request, r: Response<seq<Score>>)
    ensures sent == RivalsRequest(leaderboardId, scope, userName, uniqueIdentifier)
    ensures fresh(r) && r.View() == RivalsAsyncFinish(net(d, sent), decode)
  {
    var payload := map["lid" := VStr(leaderboardId), "username" := VStr(userName),
      "userkey" := VStr(uniqueIdentifier), "scope" := VInt(ScopeOrd(scope))];
    sent, r := SendPayloadAsync(d, "scores/rivals", payload, net, decode);
    if r.success {
      if r.data == None {
        r.data := Some([]);
      }
    }
  }

  method GetPlayerRank(d: Driver, leaderboardId: string, userName: string, uniqueIdentifier: string, scope: Scope,
                       net: Transport, decode: Decoder<int>)
    returns (sent: Request, r: Response<int>)
    ensures sent == PlayerRankRequest(leaderboardId, userName, uniqueIdentifier, scope)
    ensures fresh(r) && r.View() == Finish(net(d, sent), decode)
  {
    var payload := map["lid" := VStr(leaderboardId), "username" := VStr(userName),
      "userkey" := VStr(uniqueIdentifier), "scopes" := VInt(ScopeOrd(scope))];
    sent, r := Communicate(d, Get, "ranks", payload, net);
    if r.success {
      r.data := decode(r.raw);
    }
  }

  method GetPlayerRankAsync(d: Driver, leaderboardId: string, userName: string, uniqueIdentifier: string, scope: Scope,
                            net: Transport, decode: Decoder<int>)
    returns (sent: Request, r: Response<int>)
    ensures sent == PlayerRankRequest(leaderboardId, userName, uniqueIdentifier, scope)
    ensures fresh(r) && r.View() == Finish(net(d, sent), decode)
  {
    var payload := map["lid" := VStr(leaderboardId), "username" := VStr(userName),
      "userkey" := VStr(uniqueIdentifier), "scopes" := VInt(ScopeOrd(scope))];
    sent, r := SendPayloadAsync(d, "ranks", payload, net, decode);
  }

  method GetPlayerRanks(d: Driver, leaderboardId: string, userName: string, uniqueIdentifier: string,
                        net: Transport, decode: Decoder<Ranks>)
    returns (sent: Request, r: Response<Ranks>)
    ensures sent == PlayerRanksRequest(leaderboardId, userName, uniqueIdentifier, AllScopes)
    ensures fresh(r) && r.View() == Finish(net(d, sent), decode)
  {
    var allScopes := [Daily, Weekly, Overall, Yesterday];
    sent, r := GetPlayerRanksIn(d, leaderboardId, userName, uniqueIdentifier, allScopes, net, decode);
  }

  method GetPlayerRanksAsync(d: Driver, leaderboardId: string, userName: string, uniqueIdentifier: string,
                             net: Transport, decode: Decoder<Ranks>)
    returns (sent: Request, r: Response<Ranks>)
    ensures sent == PlayerRanksRequest(leaderboardId, userName, uniqueIdentifier, AllScopes)
    ensures fresh(r) && r.View() == Finish(net(d, sent), decode)
  {
    var allScopes := [Daily, Weekly, Overall, Yesterday];
    sent, r := GetPlayerRanksInAsync(d, leaderboardId, userName, uniqueIdentifier, allScopes, net, decode);
  }

  method GetPlayerRanksIn(d: Driver, leaderboardId: string, userName: string, uniqueIdentifier: string,
                          scopes: seq<Scope>, net: Transport, decode: Decoder<Ranks>)
    returns (sent: Request, r: Response<Ranks>)
    ensures sent == PlayerRanksRequest(leaderboardId, userName, uniqueIdentifier, scopes)
    ensures fresh(r) && r.View() == Finish(net(d, sent), decode)
  {
    var realScopes := RealScopes(scopes);
    var payload := map["lid" := VStr(leaderboardId), "username" := VStr(userName),
      "userkey" := VStr(uniqueIdentifier), "scopes" := VInts(realScopes)];
    sent, r := Communicate(d, Get, "ranks", payload, net);
    if r.success {
      r.data := decode(r.raw);
    }
  }

  method GetPlayerRanksInAsync(d: Driver, leaderboardId: string, userName: string, uniqueIdentifier: string,
                               scopes: seq<Scope>, net: Transport, decode: Decoder<Ranks>)
    returns (sent: Request, r: Response<Ranks>)
    ensures sent == PlayerRanksRequest(leaderboardId, userName, uniqueIdentifier, scopes)
    ensures fresh(r) && r.View() == Finish(net(d, sent), decode)
  {
    var realScopes := RealScopes(scopes);
    var payload := map["lid" := VStr(leaderboardId), "username" := VStr(userName),
      "userkey" := VStr(uniqueIdentifier), "scopes" := VInts(realScopes)];
    sent, r := SendPayloadAsync(d, "ranks", payload, net, decode);
  }

  method GetScoreRanks(d: Driver, leaderboardId: string, score: int, net: Transport, decode: Decoder<Ranks>)
    returns (sent: Request, r: Response<Ranks>)
    ensures sent == ScoreRanksRequest(leaderboardId, score, AllScopes)
    ensures fresh(r) && r.View() == Finish(net(d, sent), decode)
  {
    var allScopes := [Daily, Weekly, Overall, Yesterday];
    sent, r := GetScoreRanksIn(d, leaderboardId, score, allScopes, net, decode);
  }

  method GetScoreRanksAsync(d: Driver, leaderboardId: string, score: int, net: Transport, decode: Decoder<Ranks>)
    returns (sent: Request, r: Response<Ranks>)
    ensures sent == ScoreRanksRequest(leaderboardId, score, AllScopes)
    ensures fresh(r) && r.View() == Finish(net(d, sent), decode)
  {
    var allScopes := [Daily, Weekly, Overall, Yesterday];
    sent, r := GetScoreRanksInAsync(d, leaderboardId, score, allScopes, net, decode);
  }

  method GetScoreRank(d: Driver, leaderboardId: string, score: int, scope: Scope, net: Transport, decode: Decoder<int>)
    returns (sent: Request, r: Response<int>)
    ensures sent == ScoreRankRequest(leaderboardId, score, scope)
    ensures fresh(r) && r.View() == Finish(net(d, sent), decode)
  {
    var payload := map["lid" := VStr(leaderboardId), "score" := VInt(score), "scopes" := VInt(ScopeOrd(scope))];
    sent, r := Communicate(d, Get, "ranks", payload, net);
    if r.success {
      r.data := decode(r.raw);
    }
  }

  method GetScoreRankAsync(d: Driver, leaderboardId: string, score: int, scope: Scope, net: Transport, decode: Decoder<int>)
    returns (sent: Request, r: Response<int>)
    ensures sent == ScoreRankRequest(leaderboardId, score, scope)
    ensures fresh(r) && r.View() == Finish(net(d, sent), decode)
  {
    var payload := map["lid" := VStr(leaderboardId), "score" := VInt(score), "scopes" := VInt(ScopeOrd(scope))];
    sent, r := SendPayloadAsync(d, "ranks", payload, net, decode);
  }

  method GetScoreRanksIn(d: Driver, leaderboardId: string, score: int, scopes: seq<Scope>,
                         net: Transport, decode: Decoder<Ranks>)
    returns (sent: Request, r: Response<Ranks>)
    ensures sent == ScoreRanksRequest(leaderboardId, score, scopes)
    ensures fresh(r) && r.View() == Finish(net(d, sent), decode)
  {
    var realScopes := RealScopes(scopes);
    var payload := map["lid" := VStr(leaderboardId), "score" := VInt(score), "scopes" := VInts(realScopes)];
    sent, r := Communicate(d, Get, "ranks", payload, net);
    if r.success {
      r.data := decode(r.raw);
    }
  }

  method GetScoreRanksInAsync(d: Driver, leaderboardId: string, score: int, scopes: seq<Scope>,
                              net: Transport, decode: Decoder<Ranks>)
    returns (sent: Request, r: Response<Ranks>)
    ensures sent == ScoreRanksRequest(leaderboardId, score, scopes)
    ensures fresh(r) && r.View() == Finish(net(d, sent), decode)
  {
    var realScopes := RealScopes(scopes);
    var payload := map["lid" := VStr(leaderboardId), "score" := VInt(score), "scopes" := VInts(realScopes)];
    sent, r := SendPayloadAsync(d, "ranks", payload, net, decode);
  }

  method GetAchievements(d: Driver, net: Transport, decode: Decoder<seq<Achievement>>)
    returns (sent: Request, r: Response<seq<Achievement>>)
    ensures sent == AchievementsRequest(d)
    ensures fresh(r) && r.View() == Finish(net(d, sent), decode)
  {
    var payload := map["key" := VStr(d.key)];
    sent, r := Communicate(d, Get, "achievements", payload, net);
    if r.success {
      r.data := decode(r.raw);
    }
  }

  method GetAchievementsAsync(d: Driver, net: Transport, decode: Decoder<seq<Achievement>>)
    returns (sent: Request, r: Response<seq<Achievement>>)
    ensures sent == AchievementsRequest(d)
    ensures fresh(r) && r.View() == Finish(net(d, sent), decode)
  {
    var payload := map["key" := VStr(d.key)];
    sent, r := SendPayloadAsync(d, "achievements", payload, net, decode);
  }

  method GetEarnedAchievements(d: Driver, userName: string, uniqueIdentifier: string,
                               net: Transport, decode: Decoder<seq<string>>)
    returns (sent: Request, r: Response<seq<string>>)
    ensures sent == EarnedAchievementsRequest(d, userName, uniqueIdentifier)
    ensures fresh(r) && r.View() == Finish(net(d, sent), decode)
  {
    var payload := map["username" := VStr(userName), "userkey" := VStr(uniqueIdentifier), "key" := VStr(d.key)];
    sent, r := Communicate(d, Get, "achievements", payload, net);
    if r.success {
      r.data := decode(r.raw);
    }
  }

  method GetEarnedAchievementsAsync(d: Driver, userName: string, uniqueIdentifier: string,
                                    net: Transport, decode: Decoder<seq<string>>)
    returns (sent: Request, r: Response<seq<string>>)
    ensures sent == EarnedAchievementsRequest(d, userName, uniqueIdentifier)
    ensures fresh(r) && r.View() == Finish(net(d, sent), decode)
  {
    var payload := map["username" := VStr(userName), "userkey" := VStr(uniqueIdentifier), "key" := VStr(d.key)];
    sent, r := SendPayloadAsync(d, "achievements", payload, net, decode);
  }

  method AchievementEarned(d: Driver, achievementId: string, userName: string, uniqueIdentifier: string,
                           net: Transport, decode: Decoder<Achievement>)
    returns (sent: Request, r: Response<Achievement>)
    ensures sent == AchievementEarnedRequest(achievementId, userName, uniqueIdentifier)
    ensures fresh(r) && r.View() == Finish(net(d, sent), decode)
  {
    var payload := map["aid" := VStr(achievementId), "username" := VStr(userName), "userkey" := VStr(uniqueIdentifier)];
    sent, r := Communicate(d, Post, "achievements", payload, net);
    if r.success {
      r.data := decode(r.raw);
    }
  }

  method AchievementEarnedAsync(d: Driver, achievementId: string, userName: string, uniqueIdentifier: string,
                                net: Transport, decode: Decoder<Achievement>)
    returns (sent: Request, r: Response<Achievement>)
    ensures sent == AchievementEarnedRequest(achievementId, userName, uniqueIdentifier)
    ensures fresh(r) && r.View() == Finish(net(d, sent), decode)
  {
    var payload := map["aid" := VStr(achievementId), "username" := VStr(userName), "userkey" := VStr(uniqueIdentifier)];
    sent, r := Communicate(d, Post, "achievements", payload, net);
    if r.success {
      r.data := decode(r.raw);
    }
  }

  // The stat and error logs decode nothing: their response's data stays unset.

  method LogApplicationStart(d: Driver, uniqueIdentifier: string, net: Transport)
    returns (sent: Request, r: Response<()>)
    ensures sent == ApplicationStartRequest(uniqueIdentifier)
    ensures fresh(r) && r.View() == Received(net(d, sent))
  {
    var payload := map["userkey" := VStr(uniqueIdentifier)];
    sent, r := Communicate(d, Post, "stats", payload, net);
  }

  method LogApplicationStartAsync(d: Driver, uniqueIdentifier: string, net: Transport)
    returns (sent: Request, r: Response<()>)
    ensures sent == ApplicationStartRequest(uniqueIdentifier)
    ensures fresh(r) && r.View() == Received(net(d, sent))
  {
    var payload := map["userkey" := VStr(uniqueIdentifier)];
    sent, r := Communicate(d, Post, "stats", payload, net);
  }

  method LogCustomStat(d: Driver, index: int, net: Transport)
    returns (sent: Request, r: Response<()>)
    ensures sent == CustomStatRequest(index)
    ensures fresh(r) && r.View() == Received(net(d, sent))
  {
    var payload := map["custom" := VInt(index)];
    sent, r := Communicate(d, Post, "stats", payload, net);
  }

  method LogCustomStatAsync(d: Driver, index: int, net: Transport)
    returns (sent: Request, r: Response<()>)
    ensures sent == CustomStatRequest(index)
    ensures fresh(r) && r.View() == Received(net(d, sent))
  {
    var payload := map["custom" := VInt(index)];
    sent, r := Communicate(d, Post, "stats", payload, net);
  }

  method LogError(d: Driver, subject: string, details: string, net: Transport)
    returns (sent: Request, r: Response<()>)
    ensures sent == ErrorRequest(subject, details)
    ensures fresh(r) && r.View() == Received(net(d, sent))
  {
    var payload := map["subject" := VStr(subject), "details" := VStr(details)];
    sent, r := Communicate(d, Post, "errors", payload, net);
  }

  method LogErrorAsync(d: Driver, subject: string, details: string, net: Transport)
    returns (sent: Request, r: Response<()>)
    ensures sent == ErrorRequest(subject, details)
    ensures fresh(r) && r.View() == Received(net(d, sent))
  {
    var payload := map["subject" := VStr(subject), "details" := VStr(details)];
    sent, r := Communicate(d, Post, "errors", payload, net);
  }

  method GetAssets(d: Driver, net: Transport, decode: Decoder<seq<Asset>>)
    returns (sent: Request, r: Response<seq<Asset>>)
    ensures sent == AssetsRequest(d)
    ensures fresh(r) && r.View() == Finish(net(d, sent), decode)
  {
    var payload := map["key" := VStr(d.key)];
    sent, r := Communicate(d, Get, "assets", payload, net);
    if r.success {
      r.data := decode(r.raw);
    }
  }

  method GetAssetsAsync(d: Driver, net: Transport, decode: Decoder<seq<Asset>>)
    returns (sent: Request, r: Response<seq<Asset>>)
    ensures sent == AssetsRequest(d)
    ensures fresh(r) && r.View() == Finish(net(d, sent), decode)
  {
    var payload := map["key" := VStr(d.key)];
    sent, r := SendPayloadAsync(d, "assets", payload, net, decode);
  }

  method Rename(d: Driver, uniqueIdentifier: string, oldUserName: string, newUserName: string,
                net: Transport, decode: Decoder<bool>)
    returns (sent: Request, r: Response<bool>)
    ensures sent == RenameRequest(uniqueIdentifier, oldUserName, newUserName)
    ensures fresh(r) && r.View() == Finish(net(d, sent), decode)
  {
    var payload := map["username" := VStr(oldUserName), "userkey" := VStr(uniqueIdentifier), "newname" := VStr(newUserName)];
    sent, r := Communicate(d, Post, "users/rename", payload, net);
    if r.success {
      r.data := decode(r.raw);
    }
  }

  method RenameAsync(d: Driver, uniqueIdentifier: string, oldUserName: string, newUserName: string,
                     net: Transport, decode: Decoder<bool>)
    returns (sent: Request, r: Response<bool>)
    ensures sent == RenameRequest(uniqueIdentifier, oldUserName, newUserName)
    ensures fresh(r) && r.View() == Finish(net(d, sent), decode)
  {
    var payload := map["username" := VStr(oldUserName), "userkey" := VStr(uniqueIdentifier), "newname" := VStr(newUserName)];
    sent, r := Communicate(d, Post, "users/rename", payload, net);
    if r.success {
      r.data := decode(r.raw);
    }
  }
}
