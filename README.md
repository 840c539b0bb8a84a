# Mogade client SDK for Windows Store apps: a verified model

Mogade is a game-services back end. It offers leaderboards, ranks, achievements, usage statistics and assets. The SDK wraps its HTTP API in three layers, and this project models all three in Dafny:

- **The driver** (`Dispatch`, over `Wire` and `Catalog`). Each operation:
  - builds a fresh key→value payload from its arguments;
  - sends it with a fixed verb (`Get` or `Post`) to a fixed endpoint path;
  - sets the response's `data` to the decoded raw body when the transport reports success, and only then.

  Every operation has a callback form and an awaitable (`...Async`) form. Both are modelled as methods. The request each one sends is proved equal to a single function per operation (`...Request`). That function in turn is proved to conform to the operation's row of the catalog `Catalog.Describe`: the verb, the path, the exact set of field names and the kind of each field. The rank queries fill a new integer array with the scopes' ordinals in a loop, and that loop is kept.
- **The identity store** (`IdentityStore`). This is a class holding:
  - the configuration with the device's unique identifier, which is generated once and then kept;
  - the list of user names used on the device.

  Every change to either rewrites its whole file. A ghost log `writes` records those rewrites in order.
- **The facade** (`Client`). A class holding one driver and one store. It forwards every call to the driver. Player-scoped calls take their identifier from the store. The leaderboard page without a record count asks for 10 records.

The following are parameters of the model, not parts of it:

| source component | stands in for it |
|---|---|
| transport: HTTP, signing, the communicator | `Transport = (Driver, Request) -> Envelope` |
| JSON deserialiser | `Decoder<T> = string -> Option<T>`; `None` is a JSON `null` |
| contents of the local folder | `Disk = map<string, string>` |
| the freshly generated identifier | `guid: string` |

## Model

| member | source | states |
|---|---|---|
| Dispatch.NewDriver | Mogade.Metro.Core/Driver.cs:11-17 | construction succeeds iff both game key and secret are non-null and non-empty; the key is checked first, so an empty key faults on `gameKey` whatever the secret; on success `Key`/`Secret` are the arguments |
| Dispatch.SaveScoreRequest | Mogade.Metro.Core/Driver.cs:32-34 | `Post "scores"` with exactly `lid`, `username` = the score's user name, `userkey`, `points` = the score's points, `data` = the score's data |
| Dispatch.LeaderboardRequest | Mogade.Metro.Core/Driver.cs:41-45 | `Get "scores"` with exactly `lid`, `page`, `records`, `scope` = the scope's ordinal; no player identity |
| Dispatch.LeaderboardWithPlayerStatsRequest | Mogade.Metro.Core/Driver.cs:49-51 | `Get "scores"` with the page fields plus `with_player` = `"true"` and the player's user name and device key |
| Dispatch.LeaderboardForPlayerRequest | Mogade.Metro.Core/Driver.cs:58-62 | `Get "scores"` with `lid`, `records`, `scope` and the player's identity, and no `page` |
| Dispatch.PlayerScoreRequest | Mogade.Metro.Core/Driver.cs:64-68 | the player's own score is requested exactly as the page around the player with one record |
| Dispatch.LeaderboardCountRequest | Mogade.Metro.Core/Driver.cs:77-79 | `Get "scores/count"` with exactly `lid` and `scope`; no identity |
| Dispatch.RivalsRequest | Mogade.Metro.Core/Driver.cs:88-90 | `Get "scores/rivals"` with `lid`, `scope` and the player's identity |
| Dispatch.PlayerRankRequest | Mogade.Metro.Core/Driver.cs:109-111 | `Get "ranks"` with the player's identity; the single scope's ordinal is a plain integer sent under `scopes` |
| Dispatch.PlayerRanksRequest | Mogade.Metro.Core/Driver.cs:134-136 | `Get "ranks"` with the player's identity and the scopes' wire form under `scopes` |
| Dispatch.ScoreRankRequest | Mogade.Metro.Core/Driver.cs:151-153 | `Get "ranks"` with exactly `lid`, `score`, `scopes`; never `username` or `userkey` |
| Dispatch.ScoreRanksRequest | Mogade.Metro.Core/Driver.cs:170-172 | `Get "ranks"` with exactly `lid`, `score` and the scopes' wire form; never `username` or `userkey` |
| Dispatch.AchievementsRequest | Mogade.Metro.Core/Driver.cs:181-183 | `Get "achievements"` with the game key alone |
| Dispatch.EarnedAchievementsRequest | Mogade.Metro.Core/Driver.cs:194-196 | `Get "achievements"` with the player's identity and the game key |
| Dispatch.AchievementEarnedRequest | Mogade.Metro.Core/Driver.cs:205-207 | `Post "achievements"` with `aid` and the player's identity |
| Dispatch.ApplicationStartRequest | Mogade.Metro.Core/Driver.cs:216-218 | `Post "stats"` with the device key alone, no user name |
| Dispatch.CustomStatRequest | Mogade.Metro.Core/Driver.cs:226-228 | `Post "stats"` with `custom` alone |
| Dispatch.ErrorRequest | Mogade.Metro.Core/Driver.cs:236-238 | `Post "errors"` with exactly `subject` and `details` |
| Dispatch.AssetsRequest | Mogade.Metro.Core/Driver.cs:246-248 | `Get "assets"` with the game key alone |
| Dispatch.RenameRequest | Mogade.Metro.Core/Driver.cs:257-259 | `Post "users/rename"` with the old user name, the device key and `newname` |
| Dispatch.DefaultRanksScopes | Mogade.Metro.Core/Driver.cs:121-125 | the default multi-scope queries send the ordinals of Daily, Weekly, Overall, Yesterday in that order, and no other scope list gives the same request (player form and score form, lines 143-147 too) |
| Dispatch.Communicate | Mogade.Metro.Core/Driver.cs:276-277 | the request sent is the given verb, path and payload; the response is a fresh object copying the envelope, `data` unset |
| Dispatch.SendPayloadAsync | Mogade.Metro.Core/Driver.cs:455-465 | the private helper always sends `Get` to the given endpoint and then applies the decode rule |
| Dispatch.RealScopes | Mogade.Metro.Core/Driver.cs:129-133 | the array filled in the loop is the scopes' wire form: same length, element i the ordinal of scope i |
| Dispatch.RivalsCallbackFinish | Mogade.Metro.Core/Driver.cs:90-94 | on success an empty body gives the empty list and any other body its decoding; on failure no data |
| Dispatch.RivalsAsyncFinish | Mogade.Metro.Core/Driver.cs:317-329 | on success the data is the decoding with null replaced by the empty list, so data is present iff the call succeeded |
| Dispatch.RivalsFormsAgree | Mogade.Metro.Core/Driver.cs:317-329 | the callback form (line 92) and the awaitable form agree exactly when the call failed, or a non-empty body decodes to a list, or an empty body decodes to null or to the empty list |
| Dispatch.SaveScore | Mogade.Metro.Core/Driver.cs:30-39 | sends `SaveScoreRequest`; the response is the decode rule applied to the transport's envelope |
| Dispatch.SaveScoreAsync | Mogade.Metro.Core/Driver.cs:273-285 | sends the same request as the callback form; same decode rule |
| Dispatch.SendLeaderboard | Mogade.Metro.Core/Driver.cs:97-105 | the private page helper sends the given payload as `Get "scores"` and applies the decode rule |
| Dispatch.GetLeaderboard | Mogade.Metro.Core/Driver.cs:41-45 | through the page helper, sends `LeaderboardRequest`; decode rule |
| Dispatch.GetLeaderboardAsync | Mogade.Metro.Core/Driver.cs:287-291 | sends the same request as the callback form; decode rule |
| Dispatch.GetLeaderboardWithPlayerStats | Mogade.Metro.Core/Driver.cs:47-56 | sends `LeaderboardWithPlayerStatsRequest`; decode rule |
| Dispatch.GetLeaderboardWithPlayerStatsAsync | Mogade.Metro.Core/Driver.cs:293-297 | sends the same request as the callback form; decode rule |
| Dispatch.GetLeaderboardForPlayer | Mogade.Metro.Core/Driver.cs:58-62 | through the page helper, sends `LeaderboardForPlayerRequest`; decode rule |
| Dispatch.GetLeaderboardForPlayerAsync | Mogade.Metro.Core/Driver.cs:299-303 | sends the same request as the callback form; decode rule |
| Dispatch.GetPlayerScore | Mogade.Metro.Core/Driver.cs:64-73 | sends `PlayerScoreRequest`, the one-record page; decode rule |
| Dispatch.GetPlayerScoreAsync | Mogade.Metro.Core/Driver.cs:305-309 | sends the same request as the callback form; decode rule |
| Dispatch.GetLeaderboardCount | Mogade.Metro.Core/Driver.cs:75-84 | sends `LeaderboardCountRequest`; decode rule |
| Dispatch.GetLeaderboardCountAsync | Mogade.Metro.Core/Driver.cs:311-315 | sends the same request as the callback form; decode rule |
| Dispatch.GetRivals | Mogade.Metro.Core/Driver.cs:86-95 | sends `RivalsRequest`; the response is `RivalsCallbackFinish` of the envelope |
| Dispatch.GetRivalsAsync | Mogade.Metro.Core/Driver.cs:317-329 | sends the same request as the callback form; the response is `RivalsAsyncFinish` of the envelope |
| Dispatch.GetPlayerRank | Mogade.Metro.Core/Driver.cs:107-119 | sends `PlayerRankRequest`; decode rule |
| Dispatch.GetPlayerRankAsync | Mogade.Metro.Core/Driver.cs:333-337 | sends the same request as the callback form; decode rule |
| Dispatch.GetPlayerRanks | Mogade.Metro.Core/Driver.cs:121-125 | sends `PlayerRanksRequest` for the four default scopes; decode rule |
| Dispatch.GetPlayerRanksAsync | Mogade.Metro.Core/Driver.cs:339-343 | sends the same request as the callback form; decode rule |
| Dispatch.GetPlayerRanksIn | Mogade.Metro.Core/Driver.cs:127-141 | fills the scope array, then sends `PlayerRanksRequest` for the given scopes; decode rule |
| Dispatch.GetPlayerRanksInAsync | Mogade.Metro.Core/Driver.cs:345-354 | sends the same request as the callback form; decode rule |
| Dispatch.GetScoreRanks | Mogade.Metro.Core/Driver.cs:143-147 | sends `ScoreRanksRequest` for the four default scopes; decode rule |
| Dispatch.GetScoreRanksAsync | Mogade.Metro.Core/Driver.cs:356-360 | sends the same request as the callback form; decode rule |
| Dispatch.GetScoreRank | Mogade.Metro.Core/Driver.cs:149-161 | sends `ScoreRankRequest`; decode rule |
| Dispatch.GetScoreRankAsync | Mogade.Metro.Core/Driver.cs:362-366 | sends the same request as the callback form; decode rule |
| Dispatch.GetScoreRanksIn | Mogade.Metro.Core/Driver.cs:163-177 | fills the scope array, then sends `ScoreRanksRequest` for the given scopes; decode rule |
| Dispatch.GetScoreRanksInAsync | Mogade.Metro.Core/Driver.cs:368-377 | sends the same request as the callback form; decode rule |
| Dispatch.GetAchievements | Mogade.Metro.Core/Driver.cs:179-188 | sends `AchievementsRequest` with the driver's key; decode rule |
| Dispatch.GetAchievementsAsync | Mogade.Metro.Core/Driver.cs:380-384 | sends the same request as the callback form; decode rule |
| Dispatch.GetEarnedAchievements | Mogade.Metro.Core/Driver.cs:190-201 | sends `EarnedAchievementsRequest` with the driver's key; decode rule |
| Dispatch.GetEarnedAchievementsAsync | Mogade.Metro.Core/Driver.cs:386-392 | sends the same request as the callback form; decode rule |
| Dispatch.AchievementEarned | Mogade.Metro.Core/Driver.cs:203-212 | sends `AchievementEarnedRequest`; decode rule |
| Dispatch.AchievementEarnedAsync | Mogade.Metro.Core/Driver.cs:394-406 | sends the same request as the callback form; decode rule |
| Dispatch.LogApplicationStart | Mogade.Metro.Core/Driver.cs:214-222 | sends `ApplicationStartRequest`; the response is the envelope as received, nothing decoded |
| Dispatch.LogApplicationStartAsync | Mogade.Metro.Core/Driver.cs:408-414 | sends the same request as the callback form; nothing decoded |
| Dispatch.LogCustomStat | Mogade.Metro.Core/Driver.cs:224-232 | sends `CustomStatRequest`; nothing decoded |
| Dispatch.LogCustomStatAsync | Mogade.Metro.Core/Driver.cs:416-422 | sends the same request as the callback form; nothing decoded |
| Dispatch.LogError | Mogade.Metro.Core/Driver.cs:234-242 | sends `ErrorRequest`; nothing decoded |
| Dispatch.LogErrorAsync | Mogade.Metro.Core/Driver.cs:424-432 | sends the same request as the callback form; nothing decoded |
| Dispatch.GetAssets | Mogade.Metro.Core/Driver.cs:244-253 | sends `AssetsRequest` with the driver's key; decode rule |
| Dispatch.GetAssetsAsync | Mogade.Metro.Core/Driver.cs:434-438 | sends the same request as the callback form; decode rule |
| Dispatch.Rename | Mogade.Metro.Core/Driver.cs:255-264 | sends `RenameRequest`; decode rule |
| Dispatch.RenameAsync | Mogade.Metro.Core/Driver.cs:440-452 | sends the same request as the callback form; decode rule |
| Wire.Received | Mogade.Metro.Core/Driver.cs:408-414 | a response as the transport returns it copies success flag, raw body and error and has no data |
| Wire.Finish | Mogade.Metro.Core/Driver.cs:279-283 | the decode rule: data is the decoding of the raw body when the call succeeded and absent otherwise; success flag, raw body and error are never touched |
| Wire.FailureIgnoresBody | Mogade.Metro.Core/Driver.cs:459-462 | on failure the response depends neither on the decoder nor on the body, and has no data |
| Wire.SuccessRoundTrip | Mogade.Metro.Core/Driver.cs:461 | on success, a body that encodes a value is decoded back to that value by a decoder that inverts the encoder |
| Wire.Response.constructor | Mogade.Metro.Core/Driver.cs:277 | a new response object shows exactly the envelope, `data` unset |
| Wire.ScopeOrd | Mogade.Metro.Core/Driver.cs:43 | `(int)scope`: each scope's ordinal is its position in the default scope list |
| Wire.ScopeOrdInjective | Mogade.Metro.Core/Driver.cs:132 | distinct scopes have distinct ordinals |
| Wire.WireScopes | Mogade.Metro.Core/Driver.cs:129-133 | the wire form of a scope list has its length, and element i is the ordinal of scope i |
| Wire.WireScopesInjective | Mogade.Metro.Core/Driver.cs:129-134 | the wire form determines the scope list, order included |
| Wire.AllScopesOnce | Mogade.Metro.Core/Driver.cs:123 | the default scope list names every scope exactly once |
| Catalog.Describe | Mogade.Metro.Core/Driver.cs:30-264 | the table of every operation's verb, path and field kinds; exactly the six writing operations (save score, achievement earned, the two stats, error, rename) use `Post`; every row sends at least one field; `lid` is sent exactly by the operations on the `scores` and `ranks` endpoints |
| Catalog.PlayerScopedSendUserName | Mogade.Metro.Core/Driver.cs:214-218 | every operation that sends a device key also sends a user name, except the application-start stat |
| Catalog.ScoreRanksAnonymous | Mogade.Metro.Core/Driver.cs:149-172 | the score-based rank rows carry `score` and no player identity |
| Catalog.RankRowsDifferInScopes | Mogade.Metro.Core/Driver.cs:107-141 | the single-scope and multi-scope rank rows differ only in the kind of value under `scopes` |
| IdentityStore.Read | Mogade.WindowsMetro/Storage.cs:105-123 | a missing or empty file reads as absent; otherwise the result is the deserialiser's result for the file's contents |
| IdentityStore.Provision | Mogade.WindowsMetro/Storage.cs:77-83 | an existing configuration is kept; without one, the new one holds the generated identifier |
| IdentityStore.ProvisionWrites | Mogade.WindowsMetro/Storage.cs:38-41 | provisioning writes the configuration file once when there was no configuration and never otherwise |
| IdentityStore.ProvisionStable | Mogade.WindowsMetro/Storage.cs:77-83 | once provisioned, asking again returns the same identifier whatever the generator offers, and writes nothing more |
| IdentityStore.SaveName | Mogade.WindowsMetro/Storage.cs:91-97 | a null, empty or present name leaves the list as it is; a new name is appended at the end |
| IdentityStore.SaveNameNoDuplicates | Mogade.WindowsMetro/Storage.cs:94-95 | saving keeps a duplicate-free list duplicate-free |
| IdentityStore.SaveNameMembers | Mogade.WindowsMetro/Storage.cs:91-97 | after saving, the list holds exactly the old names and the saved non-empty name |
| IdentityStore.SaveNameIdempotent | Mogade.WindowsMetro/Storage.cs:94 | saving a name twice is saving it once, and the second save writes nothing |
| IdentityStore.RemoveFirst | Mogade.WindowsMetro/Storage.cs:101 | `List.Remove`: the list is one entry shorter when the name was present and the same length otherwise |
| IdentityStore.IndexOf | Mogade.WindowsMetro/Storage.cs:101 | for a present name, the position of its first occurrence |
| IdentityStore.RemoveFirstCuts | Mogade.WindowsMetro/Storage.cs:101 | removing a present name cuts out its first occurrence and keeps the entries before and after it in order |
| IdentityStore.RemoveFirstAbsent | Mogade.WindowsMetro/Storage.cs:101 | removing an absent name changes nothing |
| IdentityStore.RemoveFirstMultiset | Mogade.WindowsMetro/Storage.cs:101 | removal takes away exactly one occurrence of the name, when there is one |
| IdentityStore.RemoveFirstNoDuplicates | Mogade.WindowsMetro/Storage.cs:99-103 | in a duplicate-free list the removed name is gone afterwards and the list stays duplicate-free |
| IdentityStore.RemoveName | Mogade.WindowsMetro/Storage.cs:99-103 | a null, empty or absent name leaves the list unchanged; a present one is cut out at its first occurrence, the rest in order |
| IdentityStore.SaveThenRemove | Mogade.WindowsMetro/Storage.cs:91-103 | removing a name that was just saved restores the list as it was |
| IdentityStore.Storage.constructor | Mogade.WindowsMetro/Storage.cs:20-23 | the new store has completed `Initialise` on the given folder contents |
| IdentityStore.Storage.Initialise | Mogade.WindowsMetro/Storage.cs:25-43 | an absent user-name list becomes the empty list; a configuration is generated and written, once, only when none was read |
| IdentityStore.Storage.GetUniqueIdentifier | Mogade.WindowsMetro/Storage.cs:45-84 | with a configuration, returns its identifier and writes nothing; without one, stores, writes once and returns the generated identifier; the user names are untouched |
| IdentityStore.Storage.GetUserNames | Mogade.WindowsMetro/Storage.cs:86-89 | returns the stored list |
| IdentityStore.Storage.SaveUserName | Mogade.WindowsMetro/Storage.cs:91-97 | the list becomes `SaveName` of the old one; the whole list is written once exactly when it changed; the configuration is untouched; a duplicate-free list stays duplicate-free |
| IdentityStore.Storage.RemoveUserName | Mogade.WindowsMetro/Storage.cs:99-103 | the list becomes `RemoveName` of the old one; written once exactly when a name was removed; given no duplicates the name is absent afterwards and the list stays duplicate-free |
| IdentityStore.Storage.ListRemove | Mogade.WindowsMetro/Storage.cs:101 | `List.Remove`: reports whether the name was present and drops its first occurrence |
| IdentityStore.Storage.WriteToFile | Mogade.WindowsMetro/Storage.cs:124-137 | a write appends the whole document and its file to the write log |
| Client.MogadeClient.constructor | Mogade.WindowsMetro/MogadeClient.cs:24-28 | the client holds the given driver and store |
| Client.MogadeClient.Initialize | Mogade.WindowsMetro/MogadeClient.cs:19-28 | fails with the driver's fault iff the credentials are rejected, before any store exists; otherwise holds that driver and a freshly loaded store |
| Client.MogadeClient.ApiVersion | Mogade.WindowsMetro/MogadeClient.cs:35-38 | the driver's version constant |
| Client.MogadeClient.GetUniqueIdentifier | Mogade.WindowsMetro/MogadeClient.cs:154-157 | returns the store's identifier, provisioning it at most once |
| Client.MogadeClient.GetUserNames | Mogade.WindowsMetro/MogadeClient.cs:159-162 | returns the store's list |
| Client.MogadeClient.SaveUserName | Mogade.WindowsMetro/MogadeClient.cs:164-167 | the store's save, with the name unchanged |
| Client.MogadeClient.RemoveUserName | Mogade.WindowsMetro/MogadeClient.cs:169-172 | the store's remove, with the name unchanged |
| Client.MogadeClient.SaveScore | Mogade.WindowsMetro/MogadeClient.cs:42-45 | sends the driver's save-score request with the store's identifier as device key |
| Client.MogadeClient.GetLeaderboardPage | Mogade.WindowsMetro/MogadeClient.cs:47-50 | the page without a record count asks for 10 records |
| Client.MogadeClient.GetLeaderboard | Mogade.WindowsMetro/MogadeClient.cs:52-55 | forwards the page request unchanged; no identity consulted |
| Client.MogadeClient.GetLeaderboardWithPlayerStats | Mogade.WindowsMetro/MogadeClient.cs:57-60 | forwards with the store's identifier as device key |
| Client.MogadeClient.GetPlayerScore | Mogade.WindowsMetro/MogadeClient.cs:62-65 | forwards with the store's identifier as device key |
| Client.MogadeClient.GetLeaderboardForPlayer | Mogade.WindowsMetro/MogadeClient.cs:67-70 | forwards with the store's identifier as device key |
| Client.MogadeClient.GetLeaderboardCount | Mogade.WindowsMetro/MogadeClient.cs:72-75 | forwards unchanged; no identity consulted |
| Client.MogadeClient.GetRivals | Mogade.WindowsMetro/MogadeClient.cs:77-80 | forwards with the store's identifier; the callback form's rivals reply |
| Client.MogadeClient.GetPlayerRanks | Mogade.WindowsMetro/MogadeClient.cs:82-85 | forwards with the store's identifier; the four default scopes |
| Client.MogadeClient.GetPlayerRank | Mogade.WindowsMetro/MogadeClient.cs:87-90 | forwards with the store's identifier |
| Client.MogadeClient.GetPlayerRanksIn | Mogade.WindowsMetro/MogadeClient.cs:92-95 | forwards with the store's identifier and the scopes unchanged |
| Client.MogadeClient.GetScoreRanks | Mogade.WindowsMetro/MogadeClient.cs:97-100 | forwards the board and score unchanged; the store is not consulted |
| Client.MogadeClient.GetScoreRank | Mogade.WindowsMetro/MogadeClient.cs:102-105 | forwards board, score and scope unchanged; the store is not consulted |
| Client.MogadeClient.GetScoreRanksIn | Mogade.WindowsMetro/MogadeClient.cs:107-110 | forwards board, score and scopes unchanged; the store is not consulted |
| Client.MogadeClient.GetAchievements | Mogade.WindowsMetro/MogadeClient.cs:112-115 | forwards; the request carries the driver's key |
| Client.MogadeClient.GetEarnedAchievements | Mogade.WindowsMetro/MogadeClient.cs:117-120 | forwards with the store's identifier |
| Client.MogadeClient.AchievementEarned | Mogade.WindowsMetro/MogadeClient.cs:122-125 | forwards with the store's identifier |
| Client.MogadeClient.LogApplicationStart | Mogade.WindowsMetro/MogadeClient.cs:127-130 | sends the application-start stat with the store's identifier; the response is dropped |
| Client.MogadeClient.LogCustomStat | Mogade.WindowsMetro/MogadeClient.cs:132-135 | sends the custom stat; the response is dropped |
| Client.MogadeClient.LogError | Mogade.WindowsMetro/MogadeClient.cs:137-140 | sends the error report; the response is dropped |
| Client.MogadeClient.GetAssets | Mogade.WindowsMetro/MogadeClient.cs:142-145 | forwards; the request carries the driver's key |
| Client.MogadeClient.Rename | Mogade.WindowsMetro/MogadeClient.cs:147-150 | forwards with the store's identifier |
| Client.MogadeClient.SaveScoreAsync | Mogade.WindowsMetro/MogadeClient.cs:179-182 | as the callback form, awaitable driver call |
| Client.MogadeClient.GetLeaderboardPageAsync | Mogade.WindowsMetro/MogadeClient.cs:184-187 | the page without a record count asks for 10 records |
| Client.MogadeClient.GetLeaderboardAsync | Mogade.WindowsMetro/MogadeClient.cs:189-192 | forwards the page request unchanged |
| Client.MogadeClient.GetLeaderboardWithPlayerStatsAsync | Mogade.WindowsMetro/MogadeClient.cs:194-197 | forwards with the store's identifier |
| Client.MogadeClient.GetPlayerScoreAsync | Mogade.WindowsMetro/MogadeClient.cs:199-202 | forwards with the store's identifier |
| Client.MogadeClient.GetLeaderboardForPlayerAsync | Mogade.WindowsMetro/MogadeClient.cs:204-207 | forwards with the store's identifier |
| Client.MogadeClient.GetLeaderboardCountAsync | Mogade.WindowsMetro/MogadeClient.cs:209-212 | forwards unchanged |
| Client.MogadeClient.GetRivalsAsync | Mogade.WindowsMetro/MogadeClient.cs:214-217 | forwards with the store's identifier; the awaitable form's rivals reply |
| Client.MogadeClient.GetPlayerRanksAsync | Mogade.WindowsMetro/MogadeClient.cs:219-222 | forwards with the store's identifier; the four default scopes |
| Client.MogadeClient.GetPlayerRankAsync | Mogade.WindowsMetro/MogadeClient.cs:224-227 | forwards with the store's identifier |
| Client.MogadeClient.GetPlayerRanksInAsync | Mogade.WindowsMetro/MogadeClient.cs:229-232 | forwards with the store's identifier and the scopes unchanged |
| Client.MogadeClient.GetScoreRanksAsync | Mogade.WindowsMetro/MogadeClient.cs:234-237 | forwards unchanged; the store is not consulted |
| Client.MogadeClient.GetScoreRankAsync | Mogade.WindowsMetro/MogadeClient.cs:239-242 | forwards unchanged; the store is not consulted |
| Client.MogadeClient.GetScoreRanksInAsync | Mogade.WindowsMetro/MogadeClient.cs:244-247 | forwards unchanged; the store is not consulted |
| Client.MogadeClient.GetAchievementsAsync | Mogade.WindowsMetro/MogadeClient.cs:249-252 | forwards |
| Client.MogadeClient.GetEarnedAchievementsAsync | Mogade.WindowsMetro/MogadeClient.cs:254-257 | forwards with the store's identifier |
| Client.MogadeClient.AchievementEarnedAsync | Mogade.WindowsMetro/MogadeClient.cs:259-262 | forwards with the store's identifier |
| Client.MogadeClient.LogApplicationStartAsync | Mogade.WindowsMetro/MogadeClient.cs:264-267 | forwards with the store's identifier; the response is returned undecoded |
| Client.MogadeClient.LogCustomStatAsync | Mogade.WindowsMetro/MogadeClient.cs:269-272 | forwards; undecoded response |
| Client.MogadeClient.LogErrorAsync | Mogade.WindowsMetro/MogadeClient.cs:274-277 | forwards; undecoded response |
| Client.MogadeClient.GetAssetsAsync | Mogade.WindowsMetro/MogadeClient.cs:279-282 | forwards |
| Client.MogadeClient.RenameAsync | Mogade.WindowsMetro/MogadeClient.cs:284-287 | forwards with the store's identifier |

Every forwarding method of the facade that calls the store states three things:
- the request sent uses the identifier the store held, or the one it generated, before the call;
- the store changes exactly as one `GetUniqueIdentifier` changes it (`Storage.ProvisionedWith`);
- the response is the driver's.

The methods with no `modifies` clause leave the store untouched by construction.

## Left out

- Communicator, request signing and HTTP: the communicator source is not part of this model. The transport is the function parameter `net`. Whatever it does with the driver's credentials is folded into the envelope it returns.
- JSON: serialisation and deserialisation are the parameters `decode`, `parseNames` and `parseConfig` (`None` is a null result). A deserialiser that throws on a malformed body is not modelled.
- Windows.Storage file access: the folder is the value `disk` read once at construction. Writes are recorded in the ghost log `writes`, not applied to `disk`. Creating an empty file on open is not modelled because it does not change what is read.
- Asynchrony: `Initialise` and `WriteToFile` are fire-and-forget. An early `GetUniqueIdentifier` can therefore race with `Initialise` and produce a competing identifier. The model is sequential: the constructor completes `Initialise`. So after construction the generating branch of `GetUniqueIdentifier` is only reachable from a store whose configuration is absent, which the constructor never leaves behind.
- `Guid.NewGuid()`: the generated identifier is the parameter `guid`.
- The network-availability hook in the static constructor of the facade (MogadeClient.cs:13): global transport configuration, outside the operations.
- The commented-out device-identifier strategies in `GetUniqueIdentifier` (Storage.cs:47-76): not live code.
- Null callbacks: the `callback != null` guards are not modelled. Each callback-form method returns its response instead of passing it on.
- Null strings: only the store and the driver constructor distinguish null from empty, so only they take `Option<string>`. Everywhere else a string argument is passed into the payload as is.
- Other nulls: the model cannot express these, so it does not model them:
  - a null `score` or `scopes` argument, on which the source throws (Driver.cs:32, Driver.cs:129);
  - a null raw body, which the rivals callback form treats like an empty one (Driver.cs:92);
  - a configuration read from disk whose identifier is null; the store would return that null (Storage.cs:36, 83).

  Bodies and identifiers are plain strings here.
- Result records (`SavedScore`, `LeaderboardScores`, `Ranks`, `Achievement`, `Asset`) are opaque types. `Score` holds only the three fields sent by `SaveScore`. `LeaderboardScoresWithPlayerStats` is a plain record. None has behaviour.
- The `IStorage` and `IDriver` interfaces: the facade holds the concrete driver and store.
- The facade's `Driver` property is not modelled: it is a getter of the `driver` constant.
- IdentityStore.Storage.GetUserNames: returns the list by value. The source hands out its own `List<string>`, so a caller could change the store's list through it. That aliasing is not modelled.
- Wire.ScopeOrd: `LeaderboardScope` is not part of this model. Its ordinals are taken as 0 to 3 in the declaration order Daily, Weekly, Overall, Yesterday. Only their injectivity is used in the proofs.
- IdentityStore.Storage: the user-name list is not required to be duplicate-free, because the file it is read from may hold duplicates. The store's operations are proved to preserve the property instead.

## Notes on the source's behaviour

- The single-scope rank queries send their one ordinal as an integer under the field `scopes`, not `scope` (Driver.cs:109, 151, 335, 364). The model follows the code.
- The facade's constructor passes a storage folder to `new Storage(...)` (MogadeClient.cs:27), but the store only has a parameterless constructor (Storage.cs:20). The model builds the store with no folder argument; the folder contents are the `disk` parameter.
- A malformed file is not read as absent: `Read` returns whatever the deserialiser produces, and when the deserialiser throws on it, so does the store. The model lets the deserialiser parameter decide.
- The two rivals forms differ (`Dispatch.RivalsFormsAgree`). The callback form turns only an empty body into the empty list, so a non-empty body that decodes to null leaves the data absent on success. The awaitable form turns every null result into the empty list.
