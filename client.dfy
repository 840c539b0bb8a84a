/** The client facade: holds one driver and one identity store and forwards
    every call to the driver, filling in the device identifier from the store
    and the default page size. Both calling forms are forwarded. */
module Client {
  import opened Wrappers
  import opened Wire
  import Dispatch
  import IdentityStore

  /** The page size sent when the caller gives none. */
  const DefaultRecords := 10

  class MogadeClient {
    const driver: Dispatch.Driver
    const storage: IdentityStore.Storage

    constructor (driver: Dispatch.Driver, storage: IdentityStore.Storage)
      ensures this.driver == driver && this.storage == storage
    {
      this.driver := driver;
      this.storage := storage;
    }

    /** `Initialize`: the driver is constructed first, so empty credentials
        fail before any store is created or written; then the store loads. */
    static method Initialize(gameKey: Option<string>, secret: Option<string>, disk: IdentityStore.Disk,
                             parseNames: string -> Option<seq<string>>,
                             parseConfig: string -> Option<IdentityStore.Configuration>, guid: string)
      returns (c: Result<MogadeClient, Dispatch.Fault>)
      ensures c.Failure? <==> Dispatch.NewDriver(gameKey, secret).Failure?
      ensures c.Failure? ==> c.error == Dispatch.NewDriver(gameKey, secret).error
      ensures c.Success? ==> fresh(c.value) && fresh(c.value.storage)
                             && c.value.driver == Dispatch.NewDriver(gameKey, secret).value
                             && c.value.storage.userNames
                                == IdentityStore.Read(disk, IdentityStore.UserNamesDataFile, parseNames).GetOr([])
                             && c.value.storage.configuration
                                == Some(IdentityStore.Provision(IdentityStore.Read(disk, IdentityStore.MogadeDataFile, parseConfig), guid))
                             && c.value.storage.writes
                                == IdentityStore.ProvisionWrites(IdentityStore.Read(disk, IdentityStore.MogadeDataFile, parseConfig), guid)
    {
      var d := Dispatch.NewDriver(gameKey, secret);
      if d.Failure? {
        return Failure(d.error);
      }
      var s := new IdentityStore.Storage(disk, parseNames, parseConfig, guid);
      var client := new MogadeClient(d.value, s);
      return Success(client);
    }

    function ApiVersion(): (v: string)
      ensures v == Dispatch.Version
    {
      Dispatch.Version
    }

    // -------------------------------------------------------------------
    // The identity store.

    method GetUniqueIdentifier(guid: string) returns (id: string)
      modifies storage
      ensures id == old(storage.Identity(guid))
      ensures storage.ProvisionedWith(guid)
    {
      id := storage.GetUniqueIdentifier(guid);
    }

    method GetUserNames() returns (names: seq<string>)
      ensures names == storage.userNames
    {
      names := storage.GetUserNames();
    }

    method SaveUserName(userName: Option<string>)
      modifies storage
      ensures storage.userNames == IdentityStore.SaveName(old(storage.userNames), userName)
      ensures storage.writes == old(storage.writes)
                + (if IdentityStore.SaveChanges(old(storage.userNames), userName)
                   then [IdentityStore.Write(IdentityStore.UserNamesDataFile, IdentityStore.NamesDoc(storage.userNames))] else [])
      ensures storage.configuration == old(storage.configuration)
      ensures old(IdentityStore.NoDuplicates(storage.userNames)) ==> IdentityStore.NoDuplicates(storage.userNames)
    {
      storage.SaveUserName(userName);
    }

    method RemoveUserName(userName: Option<string>)
      modifies storage
      ensures storage.userNames == IdentityStore.RemoveName(old(storage.userNames), userName)
      ensures storage.writes == old(storage.writes)
                + (if IdentityStore.RemoveChanges(old(storage.userNames), userName)
                   then [IdentityStore.Write(IdentityStore.UserNamesDataFile, IdentityStore.NamesDoc(storage.userNames))] else [])
      ensures storage.configuration == old(storage.configuration)
      ensures old(IdentityStore.NoDuplicates(storage.userNames)) && !IsNullOrEmpty(userName)
              ==> userName.value !in storage.userNames
      ensures old(IdentityStore.NoDuplicates(storage.userNames)) ==> IdentityStore.NoDuplicates(storage.userNames)
    {
      storage.RemoveUserName(userName);
    }

    // -------------------------------------------------------------------
    // Callback form.

    method SaveScore(leaderboardId: string, score: Dispatch.Score, guid: string,
                     net: Dispatch.Transport, decode: Decoder<Dispatch.SavedScore>)
      returns (sent: Request, r: Response<Dispatch.SavedScore>)
      modifies storage
      ensures storage.ProvisionedWith(guid)
      ensures sent == Dispatch.SaveScoreRequest(leaderboardId, score, old(storage.Identity(guid)))
      ensures fresh(r) && r.View() == Finish(net(driver, sent), decode)
    {
      var uid := GetUniqueIdentifier(guid);
      sent, r := Dispatch.SaveScore(driver, leaderboardId, score, uid, net, decode);
    }

    method GetLeaderboardPage(leaderboardId: string, scope: Scope, page: int,
                              net: Dispatch.Transport, decode: Decoder<Dispatch.LeaderboardScores>)
      returns (sent: Request, r: Response<Dispatch.LeaderboardScores>)
      ensures sent == Dispatch.LeaderboardRequest(leaderboardId, scope, page, DefaultRecords)
      ensures fresh(r) && r.View() == Finish(net(driver, sent), decode)
    {
      sent, r := Dispatch.GetLeaderboard(driver, leaderboardId, scope, page, 10, net, decode);
    }

    method GetLeaderboard(leaderboardId: string, scope: Scope, page: int, records: int,
                          net: Dispatch.Transport, decode: Decoder<Dispatch.LeaderboardScores>)
      returns (sent: Request, r: Response<Dispatch.LeaderboardScores>)
      ensures sent == Dispatch.LeaderboardRequest(leaderboardId, scope, page, records)
      ensures fresh(r) && r.View() == Finish(net(driver, sent), decode)
    {
      sent, r := Dispatch.GetLeaderboard(driver, leaderboardId, scope, page, records, net, decode);
    }

    method GetLeaderboardWithPlayerStats(leaderboardId: string, scope: Scope, userName: string, page: int, records: int,
                                         guid: string, net: Dispatch.Transport,
                                         decode: Decoder<Dispatch.LeaderboardScoresWithPlayerStats>)
      returns (sent: Request, r: Response<Dispatch.LeaderboardScoresWithPlayerStats>)
      modifies storage
      ensures storage.ProvisionedWith(guid)
      ensures sent == Dispatch.LeaderboardWithPlayerStatsRequest(leaderboardId, scope, userName,
                                                                 old(storage.Identity(guid)), page, records)
      ensures fresh(r) && r.View() == Finish(net(driver, sent), decode)
    {
      var uid := GetUniqueIdentifier(guid);
      sent, r := Dispatch.GetLeaderboardWithPlayerStats(driver, leaderboardId, scope, userName, uid, page, records, net, decode);
    }

    method GetPlayerScore(leaderboardId: string, scope: Scope, userName: string,
                          guid: string, net: Dispatch.Transport, decode: Decoder<Dispatch.Score>)
      returns (sent: Request, r: Response<Dispatch.Score>)
      modifies storage
      ensures storage.ProvisionedWith(guid)
      ensures sent == Dispatch.PlayerScoreRequest(leaderboardId, scope, userName, old(storage.Identity(guid)))
      ensures fresh(r) && r.View() == Finish(net(driver, sent), decode)
    {
      var uid := GetUniqueIdentifier(guid);
      sent, r := Dispatch.GetPlayerScore(driver, leaderboardId, scope, userName, uid, net, decode);
    }

    method GetLeaderboardForPlayer(leaderboardId: string, scope: Scope, userName: string, records: int,
                                   guid: string, net: Dispatch.Transport, decode: Decoder<Dispatch.LeaderboardScores>)
      returns (sent: Request, r: Response<Dispatch.LeaderboardScores>)
      modifies storage
      ensures storage.ProvisionedWith(guid)
      ensures sent == Dispatch.LeaderboardForPlayerRequest(leaderboardId, scope, userName, old(storage.Identity(guid)), records)
      ensures fresh(r) && r.View() == Finish(net(driver, sent), decode)
    {
      var uid := GetUniqueIdentifier(guid);
      sent, r := Dispatch.GetLeaderboardForPlayer(driver, leaderboardId, scope, userName, uid, records, net, decode);
    }

    method GetLeaderboardCount(leaderboardId: string, scope: Scope, net: Dispatch.Transport, decode: Decoder<int>)
      returns (sent: Request, r: Response<int>)
      ensures sent == Dispatch.LeaderboardCountRequest(leaderboardId, scope)
      ensures fresh(r) && r.View() == Finish(net(driver, sent), decode)
    {
      sent, r := Dispatch.GetLeaderboardCount(driver, leaderboardId, scope, net, decode);
    }

    method GetRivals(leaderboardId: string, scope: Scope, userName: string,
                     guid: string, net: Dispatch.Transport, decode: Decoder<seq<Dispatch.Score>>)
      returns (sent: Request, r: Response<seq<Dispatch.Score>>)
      modifies storage
      ensures storage.ProvisionedWith(guid)
      ensures sent == Dispatch.RivalsRequest(leaderboardId, scope, userName, old(storage.Identity(guid)))
      ensures fresh(r) && r.View() == Dispatch.RivalsCallbackFinish(net(driver, sent), decode)
    {
      var uid := GetUniqueIdentifier(guid);
      sent, r := Dispatch.GetRivals(driver, leaderboardId, scope, userName, uid, net, decode);
    }

    method GetPlayerRanks(leaderboardId: string, userName: string,
                          guid: string, net: Dispatch.Transport, decode: Decoder<Dispatch.Ranks>)
      returns (sent: Request, r: Response<Dispatch.Ranks>)
      modifies storage
      ensures storage.ProvisionedWith(guid)
      ensures sent == Dispatch.PlayerRanksRequest(leaderboardId, userName, old(storage.Identity(guid)), AllScopes)
      ensures fresh(r) && r.View() == Finish(net(driver, sent), decode)
    {
      var uid := GetUniqueIdentifier(guid);
      sent, r := Dispatch.GetPlayerRanks(driver, leaderboardId, userName, uid, net, decode);
    }

    method GetPlayerRank(leaderboardId: string, userName: string, scope: Scope,
                         guid: string, net: Dispatch.Transport, decode: Decoder<int>)
      returns (sent: Request, r: Response<int>)
      modifies storage
      ensures storage.ProvisionedWith(guid)
      ensures sent == Dispatch.PlayerRankRequest(leaderboardId, userName, old(storage.Identity(guid)), scope)
      ensures fresh(r) && r.View() == Finish(net(driver, sent), decode)
    {
      var uid := GetUniqueIdentifier(guid);
      sent, r := Dispatch.GetPlayerRank(driver, leaderboardId, userName, uid, scope, net, decode);
    }

    method GetPlayerRanksIn(leaderboardId: string, userName: string, scopes: seq<Scope>,
                            guid: string, net: Dispatch.Transport, decode: Decoder<Dispatch.Ranks>)
      returns (sent: Request, r: Response<Dispatch.Ranks>)
      modifies storage
      ensures storage.ProvisionedWith(guid)
      ensures sent == Dispatch.PlayerRanksRequest(leaderboardId, userName, old(storage.Identity(guid)), scopes)
      ensures fresh(r) && r.View() == Finish(net(driver, sent), decode)
    {
      var uid := GetUniqueIdentifier(guid);
      sent, r := Dispatch.GetPlayerRanksIn(driver, leaderboardId, userName, uid, scopes, net, decode);
    }

    method GetScoreRanks(leaderboardId: string, score: int, net: Dispatch.Transport, decode: Decoder<Dispatch.Ranks>)
      returns (sent: Request, r: Response<Dispatch.Ranks>)
      ensures sent == Dispatch.ScoreRanksRequest(leaderboardId, score, AllScopes)
      ensures fresh(r) && r.View() == Finish(net(driver, sent), decode)
    {
      sent, r := Dispatch.GetScoreRanks(driver, leaderboardId, score, net, decode);
    }

    method GetScoreRank(leaderboardId: string, score: int, scope: Scope, net: Dispatch.Transport, decode: Decoder<int>)
      returns (sent: Request, r: Response<int>)
      ensures sent == Dispatch.ScoreRankRequest(leaderboardId, score, scope)
      ensures fresh(r) && r.View() == Finish(net(driver, sent), decode)
    {
      sent, r := Dispatch.GetScoreRank(driver, leaderboardId, score, scope, net, decode);
    }

    method GetScoreRanksIn(leaderboardId: string, score: int, scopes: seq<Scope>,
                           net: Dispatch.Transport, decode: Decoder<Dispatch.Ranks>)
      returns (sent: Request, r: Response<Dispatch.Ranks>)
      ensures sent == Dispatch.ScoreRanksRequest(leaderboardId, score, scopes)
      ensures fresh(r) && r.View() == Finish(net(driver, sent), decode)
    {
      sent, r := Dispatch.GetScoreRanksIn(driver, leaderboardId, score, scopes, net, decode);
    }

    method GetAchievements(net: Dispatch.Transport, decode: Decoder<seq<Dispatch.Achievement>>)
      returns (sent: Request, r: Response<seq<Dispatch.Achievement>>)
      ensures sent == Dispatch.AchievementsRequest(driver)
      ensures fresh(r) && r.View() == Finish(net(driver, sent), decode)
    {
      sent, r := Dispatch.GetAchievements(driver, net, decode);
    }

    method GetEarnedAchievements(userName: string, guid: string, net: Dispatch.Transport, decode: Decoder<seq<string>>)
      returns (sent: Request, r: Response<seq<string>>)
      modifies storage
      ensures storage.ProvisionedWith(guid)
      ensures sent == Dispatch.EarnedAchievementsRequest(driver, userName, old(storage.Identity(guid)))
      ensures fresh(r) && r.View() == Finish(net(driver, sent), decode)
    {
      var uid := GetUniqueIdentifier(guid);
      sent, r := Dispatch.GetEarnedAchievements(driver, userName, uid, net, decode);
    }

    method AchievementEarned(achievementId: string, userName: string,
                             guid: string, net: Dispatch.Transport, decode: Decoder<Dispatch.Achievement>)
      returns (sent: Request, r: Response<Dispatch.Achievement>)
      modifies storage
      ensures storage.ProvisionedWith(guid)
      ensures sent == Dispatch.AchievementEarnedRequest(achievementId, userName, old(storage.Identity(guid)))
      ensures fresh(r) && r.View() == Finish(net(driver, sent), decode)
    {
      var uid := GetUniqueIdentifier(guid);
      sent, r := Dispatch.AchievementEarned(driver, achievementId, userName, uid, net, decode);
    }

    /** The callback-form logs pass no callback: the response is dropped. */
    method LogApplicationStart(guid: string, net: Dispatch.Transport) returns (sent: Request)
      modifies storage
      ensures storage.ProvisionedWith(guid)
      ensures sent == Dispatch.ApplicationStartRequest(old(storage.Identity(guid)))
    {
      var uid := GetUniqueIdentifier(guid);
      var dropped;
      sent, dropped := Dispatch.LogApplicationStart(driver, uid, net);
    }

    method LogCustomStat(index: int, net: Dispatch.Transport) returns (sent: Request)
      ensures sent == Dispatch.CustomStatRequest(index)
    {
      var dropped;
      sent, dropped := Dispatch.LogCustomStat(driver, index, net);
    }

    method LogError(subject: string, details: string, net: Dispatch.Transport) returns (sent: Request)
      ensures sent == Dispatch.ErrorRequest(subject, details)
    {
      var dropped;
      sent, dropped := Dispatch.LogError(driver, subject, details, net);
    }

    method GetAssets(net: Dispatch.Transport, decode: Decoder<seq<Dispatch.Asset>>)
      returns (sent: Request, r: Response<seq<Dispatch.Asset>>)
      ensures sent == Dispatch.AssetsRequest(driver)
      ensures fresh(r) && r.View() == Finish(net(driver, sent), decode)
    {
      sent, r := Dispatch.GetAssets(driver, net, decode);
    }

    method Rename(currentUserName: string, newUserName: string,
                  guid: string, net: Dispatch.Transport, decode: Decoder<bool>)
      returns (sent: Request, r: Response<bool>)
      modifies storage
      ensures storage.ProvisionedWith(guid)
      ensures sent == Dispatch.RenameRequest(old(storage.Identity(guid)), currentUserName, newUserName)
      ensures fresh(r) && r.View() == Finish(net(driver, sent), decode)
    {
      var uid := GetUniqueIdentifier(guid);
      sent, r := Dispatch.Rename(driver, uid, currentUserName, newUserName, net, decode);
    }

    // -------------------------------------------------------------------
    // Awaitable form.

    method SaveScoreAsync(leaderboardId: string, score: Dispatch.Score, guid: string,
                          net: Dispatch.Transport, decode: Decoder<Dispatch.SavedScore>)
      returns (sent: Request, r: Response<Dispatch.SavedScore>)
      modifies storage
      ensures storage.ProvisionedWith(guid)
      ensures sent == Dispatch.SaveScoreRequest(leaderboardId, score, old(storage.Identity(guid)))
      ensures fresh(r) && r.View() == Finish(net(driver, sent), decode)
    {
      var uid := GetUniqueIdentifier(guid);
      sent, r := Dispatch.SaveScoreAsync(driver, leaderboardId, score, uid, net, decode);
    }

    method GetLeaderboardPageAsync(leaderboardId: string, scope: Scope, page: int,
                                   net: Dispatch.Transport, decode: Decoder<Dispatch.LeaderboardScores>)
      returns (sent: Request, r: Response<Dispatch.LeaderboardScores>)
      ensures sent == Dispatch.LeaderboardRequest(leaderboardId, scope, page, DefaultRecords)
      ensures fresh(r) && r.View() == Finish(net(driver, sent), decode)
    {
      sent, r := Dispatch.GetLeaderboardAsync(driver, leaderboardId, scope, page, 10, net, decode);
    }

    method GetLeaderboardAsync(leaderboardId: string, scope: Scope, page: int, records: int,
                               net: Dispatch.Transport, decode: Decoder<Dispatch.LeaderboardScores>)
      returns (sent: Request, r: Response<Dispatch.LeaderboardScores>)
      ensures sent == Dispatch.LeaderboardRequest(leaderboardId, scope, page, records)
      ensures fresh(r) && r.View() == Finish(net(driver, sent), decode)
    {
      sent, r := Dispatch.GetLeaderboardAsync(driver, leaderboardId, scope, page, records, net, decode);
    }

    method GetLeaderboardWithPlayerStatsAsync(leaderboardId: string, scope: Scope, userName: string, page: int,
                                              records: int, guid: string, net: Dispatch.Transport,
                                              decode: Decoder<Dispatch.LeaderboardScoresWithPlayerStats>)
      returns (sent: Request, r: Response<Dispatch.LeaderboardScoresWithPlayerStats>)
      modifies storage
      ensures storage.ProvisionedWith(guid)
      ensures sent == Dispatch.LeaderboardWithPlayerStatsRequest(leaderboardId, scope, userName,
                                                                 old(storage.Identity(guid)), page, records)
      ensures fresh(r) && r.View() == Finish(net(driver, sent), decode)
    {
      var uid := GetUniqueIdentifier(guid);
      sent, r := Dispatch.GetLeaderboardWithPlayerStatsAsync(driver, leaderboardId, scope, userName, uid, page, records,
                                                             net, decode);
    }

    method GetPlayerScoreAsync(leaderboardId: string, scope: Scope, userName: string,
                               guid: string, net: Dispatch.Transport, decode: Decoder<Dispatch.Score>)
      returns (sent: Request, r: Response<Dispatch.Score>)
      modifies storage
      ensures storage.ProvisionedWith(guid)
      ensures sent == Dispatch.PlayerScoreRequest(leaderboardId, scope, userName, old(storage.Identity(guid)))
      ensures fresh(r) && r.View() == Finish(net(driver, sent), decode)
    {
      var uid := GetUniqueIdentifier(guid);
      sent, r := Dispatch.GetPlayerScoreAsync(driver, leaderboardId, scope, userName, uid, net, decode);
    }

    method GetLeaderboardForPlayerAsync(leaderboardId: string, scope: Scope, userName: string, records: int,
                                        guid: string, net: Dispatch.Transport,
                                        decode: Decoder<Dispatch.LeaderboardScores>)
      returns (sent: Request, r: Response<Dispatch.LeaderboardScores>)
      modifies storage
      ensures storage.ProvisionedWith(guid)
      ensures sent == Dispatch.LeaderboardForPlayerRequest(leaderboardId, scope, userName, old(storage.Identity(guid)), records)
      ensures fresh(r) && r.View() == Finish(net(driver, sent), decode)
    {
      var uid := GetUniqueIdentifier(guid);
      sent, r := Dispatch.GetLeaderboardForPlayerAsync(driver, leaderboardId, scope, userName, uid, records, net, decode);
    }

    method GetLeaderboardCountAsync(leaderboardId: string, scope: Scope, net: Dispatch.Transport, decode: Decoder<int>)
      returns (sent: Request, r: Response<int>)
      ensures sent == Dispatch.LeaderboardCountRequest(leaderboardId, scope)
      ensures fresh(r) && r.View() == Finish(net(driver, sent), decode)
    {
      sent, r := Dispatch.GetLeaderboardCountAsync(driver, leaderboardId, scope, net, decode);
    }

    method GetRivalsAsync(leaderboardId: string, scope: Scope, userName: string,
                          guid: string, net: Dispatch.Transport, decode: Decoder<seq<Dispatch.Score>>)
      returns (sent: Request, r: Response<seq<Dispatch.Score>>)
      modifies storage
      ensures storage.ProvisionedWith(guid)
      ensures sent == Dispatch.RivalsRequest(leaderboardId, scope, userName, old(storage.Identity(guid)))
      ensures fresh(r) && r.View() == Dispatch.RivalsAsyncFinish(net(driver, sent), decode)
    {
      var uid := GetUniqueIdentifier(guid);
      sent, r := Dispatch.GetRivalsAsync(driver, leaderboardId, scope, userName, uid, net, decode);
    }

    method GetPlayerRanksAsync(leaderboardId: string, userName: string,
                               guid: string, net: Dispatch.Transport, decode: Decoder<Dispatch.Ranks>)
      returns (sent: Request, r: Response<Dispatch.Ranks>)
      modifies storage
      ensures storage.ProvisionedWith(guid)
      ensures sent == Dispatch.PlayerRanksRequest(leaderboardId, userName, old(storage.Identity(guid)), AllScopes)
      ensures fresh(r) && r.View() == Finish(net(driver, sent), decode)
    {
      var uid := GetUniqueIdentifier(guid);
      sent, r := Dispatch.GetPlayerRanksAsync(driver, leaderboardId, userName, uid, net, decode);
    }

    method GetPlayerRankAsync(leaderboardId: string, userName: string, scope: Scope,
                              guid: string, net: Dispatch.Transport, decode: Decoder<int>)
      returns (sent: Request, r: Response<int>)
      modifies storage
      ensures storage.ProvisionedWith(guid)
      ensures sent == Dispatch.PlayerRankRequest(leaderboardId, userName, old(storage.Identity(guid)), scope)
      ensures fresh(r) && r.View() == Finish(net(driver, sent), decode)
    {
      var uid := GetUniqueIdentifier(guid);
      sent, r := Dispatch.GetPlayerRankAsync(driver, leaderboardId, userName, uid, scope, net, decode);
    }

    method GetPlayerRanksInAsync(leaderboardId: string, userName: string, scopes: seq<Scope>,
                                 guid: string, net: Dispatch.Transport, decode: Decoder<Dispatch.Ranks>)
      returns (sent: Request, r: Response<Dispatch.Ranks>)
      modifies storage
      ensures storage.ProvisionedWith(guid)
      ensures sent == Dispatch.PlayerRanksRequest(leaderboardId, userName, old(storage.Identity(guid)), scopes)
      ensures fresh(r) && r.View() == Finish(net(driver, sent), decode)
    {
      var uid := GetUniqueIdentifier(guid);
      sent, r := Dispatch.GetPlayerRanksInAsync(driver, leaderboardId, userName, uid, scopes, net, decode);
    }

    method GetScoreRanksAsync(leaderboardId: string, score: int, net: Dispatch.Transport, decode: Decoder<Dispatch.Ranks>)
      returns (sent: Request, r: Response<Dispatch.Ranks>)
      ensures sent == Dispatch.ScoreRanksRequest(leaderboardId, score, AllScopes)
      ensures fresh(r) && r.View() == Finish(net(driver, sent), decode)
    {
      sent, r := Dispatch.GetScoreRanksAsync(driver, leaderboardId, score, net, decode);
    }

    method GetScoreRankAsync(leaderboardId: string, score: int, scope: Scope, net: Dispatch.Transport, decode: Decoder<int>)
      returns (sent: Request, r: Response<int>)
      ensures sent == Dispatch.ScoreRankRequest(leaderboardId, score, scope)
      ensures fresh(r) && r.View() == Finish(net(driver, sent), decode)
    {
      sent, r := Dispatch.GetScoreRankAsync(driver, leaderboardId, score, scope, net, decode);
    }

    method GetScoreRanksInAsync(leaderboardId: string, score: int, scopes: seq<Scope>,
                                net: Dispatch.Transport, decode: Decoder<Dispatch.Ranks>)
      returns (sent: Request, r: Response<Dispatch.Ranks>)
      ensures sent == Dispatch.ScoreRanksRequest(leaderboardId, score, scopes)
      ensures fresh(r) && r.View() == Finish(net(driver, sent), decode)
    {
      sent, r := Dispatch.GetScoreRanksInAsync(driver, leaderboardId, score, scopes, net, decode);
    }

    method GetAchievementsAsync(net: Dispatch.Transport, decode: Decoder<seq<Dispatch.Achievement>>)
      returns (sent: Request, r: Response<seq<Dispatch.Achievement>>)
      ensures sent == Dispatch.AchievementsRequest(driver)
      ensures fresh(r) && r.View() == Finish(net(driver, sent), decode)
    {
      sent, r := Dispatch.GetAchievementsAsync(driver, net, decode);
    }

    method GetEarnedAchievementsAsync(userName: string, guid: string, net: Dispatch.Transport, decode: Decoder<seq<string>>)
      returns (sent: Request, r: Response<seq<string>>)
      modifies storage
      ensures storage.ProvisionedWith(guid)
      ensures sent == Dispatch.EarnedAchievementsRequest(driver, userName, old(storage.Identity(guid)))
      ensures fresh(r) && r.View() == Finish(net(driver, sent), decode)
    {
      var uid := GetUniqueIdentifier(guid);
      sent, r := Dispatch.GetEarnedAchievementsAsync(driver, userName, uid, net, decode);
    }

    method AchievementEarnedAsync(achievementId: string, userName: string,
                                  guid: string, net: Dispatch.Transport, decode: Decoder<Dispatch.Achievement>)
      returns (sent: Request, r: Response<Dispatch.Achievement>)
      modifies storage
      ensures storage.ProvisionedWith(guid)
      ensures sent == Dispatch.AchievementEarnedRequest(achievementId, userName, old(storage.Identity(guid)))
      ensures fresh(r) && r.View() == Finish(net(driver, sent), decode)
    {
      var uid := GetUniqueIdentifier(guid);
      sent, r := Dispatch.AchievementEarnedAsync(driver, achievementId, userName, uid, net, decode);
    }

    method LogApplicationStartAsync(guid: string, net: Dispatch.Transport)
      returns (sent: Request, r: Response<()>)
      modifies storage
      ensures storage.ProvisionedWith(guid)
      ensures sent == Dispatch.ApplicationStartRequest(old(storage.Identity(guid)))
      ensures fresh(r) && r.View() == Received(net(driver, sent))
    {
      var uid := GetUniqueIdentifier(guid);
      sent, r := Dispatch.LogApplicationStartAsync(driver, uid, net);
    }

    method LogCustomStatAsync(index: int, net: Dispatch.Transport)
      returns (sent: Request, r: Response<()>)
      ensures sent == Dispatch.CustomStatRequest(index)
      ensures fresh(r) && r.View() == Received(net(driver, sent))
    {
      sent, r := Dispatch.LogCustomStatAsync(driver, index, net);
    }

    method LogErrorAsync(subject: string, details: string, net: Dispatch.Transport)
      returns (sent: Request, r: Response<()>)
      ensures sent == Dispatch.ErrorRequest(subject, details)
      ensures fresh(r) && r.View() == Received(net(driver, sent))
    {
      sent, r := Dispatch.LogErrorAsync(driver, subject, details, net);
    }

    method GetAssetsAsync(net: Dispatch.Transport, decode: Decoder<seq<Dispatch.Asset>>)
      returns (sent: Request, r: Response<seq<Dispatch.Asset>>)
      ensures sent == Dispatch.AssetsRequest(driver)
      ensures fresh(r) && r.View() == Finish(net(driver, sent), decode)
    {
      sent, r := Dispatch.GetAssetsAsync(driver, net, decode);
    }

    method RenameAsync(currentUserName: string, newUserName: string,
                       guid: string, net: Dispatch.Transport, decode: Decoder<bool>)
      returns (sent: Request, r: Response<bool>)
      modifies storage
      ensures storage.ProvisionedWith(guid)
      ensures sent == Dispatch.RenameRequest(old(storage.Identity(guid)), currentUserName, newUserName)
      ensures fresh(r) && r.View() == Finish(net(driver, sent), decode)
    {
      var uid := GetUniqueIdentifier(guid);
      sent, r := Dispatch.RenameAsync(driver, uid, currentUserName, newUserName, net, decode);
    }
  }
}
