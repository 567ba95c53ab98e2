# BLUM bot drivers, modelled in Dafny

The BLUM bot drives accounts of the Blum Telegram mini-app through its remote service.
Each account is identified by a Telegram query id. The bot comes as two console drivers:

- `index.js` is the interactive driver. It fetches one token per query id and builds a table
  of accounts, one record each. It then loops on a menu. Every accepted option runs one
  action over the accounts, re-reads every record and rotates every token.
- `AutoIndex.js` is the unattended driver. It builds the same table, then runs numbered
  cycles 1, 2, 3, 1, ... without end. Each cycle fetches fresh tokens, runs that cycle's
  action loops and waits nine hours.

Both drivers call the request wrappers of `scripts/apis.js`. Each wrapper makes one request
and turns its ending into a return value or the message of a thrown `Error`. The drivers
then tell informational outcomes from failures by testing that message.

## How the model is built

- **The remote service is an oracle.** `Remote.World` holds one function per endpoint, plus
  the keyboard. Each function takes the moment of the request and its arguments, and gives
  how the request ended (`Apis.Outcome`): a 2xx body, an error response with its status and
  message, or no response.
- **Moments name the steps of a run.** A moment (`Remote.Moment`) is `Start`, or the i-th
  step `At(m, i)` of an operation run at `m`. Any two requests of one run get distinct
  moments, so the oracle can answer each of them differently.
- **The bot records a trace.** `Session.Client` holds the world and a ghost trace of events:
  requests made, waits, writes of `bearers.json` and questions asked at the console.
- **Methods follow functions.** Each method of `Session.Client`, `MenuDriver.MenuBot` and
  `AutoDriver.AutoBot` is proved to record exactly the events, and reach exactly the state,
  that a function of the world prescribes. The properties the code promises are lemmas
  about those functions.

Modules:

| module | file | what it holds |
|---|---|---|
| `Apis` | `apis.dfy` | the wrappers of scripts/apis.js as functions from `Outcome` to `Result` |
| `Strings` | `strings.dfy` | `includes`, `trim`, decimal rendering |
| `Verdicts` | `verdicts.dfy` | how the per-account actions classify a result (the kind of line they print) |
| `Tasks` | `tasks.dfy` | the task list: automatic tasks, keyword tasks, status lookup |
| `Remote` | `remote.dfy` | requests, events, moments, the world |
| `Plan` | `plan.dfy` | functions and lemmas for the helpers both drivers share |
| `Manual` | `manual.dfy` | the manual (keyword) task action |
| `Session` | `session.dfy` | class `Client`: the shared helpers, written once for both drivers |
| `MenuDriver` | `menu.dfy` | class `MenuBot`: executeActionForAll, the menu loop, refresh, rotation |
| `AutoDriver` | `auto.dfy` | class `AutoBot`: the cycle scheduler |

Where the two drivers duplicate a helper (`initializeBearers`, `getUserData`, the three
farming and check-in actions, the account build), the two copies do the same thing. Each is
modelled once, in `Session.Client`, and the table cites the `index.js` copy. The
`AutoIndex.js` copies are at AutoIndex.js:40-54, 56-90, 112-160 and 183-206.

Two facts about the code shape the model:
- every start and every cycle requests a token for every id, and `bearers.json` is only
  written, never read;
- AutoIndex.js:287 updates the counter before the wait at AutoIndex.js:291.

## Model

| member | source | states |
|---|---|---|
| `Apis.HttpMessage` | scripts/apis.js:41 | the message starts with `Error <status>: ` and continues with the server message, or the fallback when that is empty |
| `Apis.PerformCheckIn` | scripts/apis.js:5-27 | returns exactly on a 2xx; the server message `same day` is rethrown as exactly `same day`; another error response carries the server message or axios' own message; no response gives the network-error message |
| `Apis.GetBearerToken` | scripts/apis.js:29-45 | returns `token.access` exactly on a 2xx; an error response throws `Error <status>: <message or 'Failed to obtain bearer token'>`; no response throws the network-error message |
| `Apis.GetFriendBalance` | scripts/apis.js:47-61 | returns the body exactly on a 2xx; error response and no response as for every wrapper |
| `Apis.ClaimReferralRewards` | scripts/apis.js:63-77 | returns `claimBalance` exactly on a 2xx; error messages as above |
| `Apis.GetUserBalance` | scripts/apis.js:79-96 | on a 2xx returns exactly `availableBalance` and `playPasses`, dropping every other field |
| `Apis.GetTribeInfo` | scripts/apis.js:98-115 | returns exactly on a 2xx or a 404; a found tribe with a non-empty title gives that title; `NOT_FOUND`, a missing or empty title and a 404 give `N/A`; any returned value other than `N/A` is the title of a found tribe; other errors throw the status message; no response throws while reading the missing status |
| `Apis.GetUsername` | scripts/apis.js:117-131 | returns the body exactly on a 2xx; error messages as above |
| `Apis.GetWalletBalance` | scripts/apis.js:133-150 | on a 2xx returns exactly `address` and `balanceMigrated` |
| `Apis.ClaimFarmingRewards` | scripts/apis.js:152-166 | returns `availableBalance` exactly on a 2xx; an error response throws `Error <status>: ...` |
| `Apis.StartFarming` | scripts/apis.js:168-185 | on a 2xx returns exactly `startTime` and `endTime` |
| `Apis.GetTasks` | scripts/apis.js:187-201 | returns the sections exactly on a 2xx; error messages as above |
| `Apis.StartTaskAction` | scripts/apis.js:203-217 | on a 2xx returns true exactly when the status is `STARTED` |
| `Apis.ClaimTaskAction` | scripts/apis.js:219-233 | on a 2xx returns true exactly when the status is `FINISHED` |
| `Apis.ValidateTaskAction` | scripts/apis.js:235-252 | on a 2xx returns true exactly when the status is `READY_FOR_CLAIM` |
| `Strings.Decimal` | scripts/apis.js:41 | the rendering of a status is a non-empty run of digits that denotes the status, without a leading zero from two digits on |
| `Strings.TrimShape` | index.js:600 | a trimmed answer is the slice of the answer between its leading and its trailing white space; it is empty exactly when the answer is all white space; otherwise it starts and ends with a non-space character and keeps every non-space character |
| `Verdicts.NetworkErrorHasNoStatus` | scripts/apis.js:43 | the network-error message contains none of `400`, `412`, `425`, so it is never read as "too early" or "needs manual completion" |
| `Verdicts.CheckInAlreadyClaimedIff` | index.js:153-160 | a check-in reads as already claimed exactly when the server answered `same day`; every other thrown check-in is a generic failure |
| `Verdicts.FarmClaimTooEarly` | index.js:170-172 | an error response with status 425 or 400 to the farming claim reads as too early |
| `Verdicts.FarmClaimNoResponseFails` | index.js:170-176 | a farming claim without a response is a generic failure |
| `Verdicts.ManualStatusMessage` | index.js:235 | a message starting with `Error 400: ` or `Error 412: ` reads as needing manual completion |
| `Verdicts.AutoTaskNeedsManual` | index.js:234-236 | a 400 or 412 response to the start, or else to the claim, of an automatic task reads as needing manual completion |
| `Verdicts.AutoTaskNoResponseFails` | index.js:234-240 | an automatic task whose start, or else its claim, got no response is a generic failure |
| `Tasks.AutoOnly` | index.js:202 | every automatic task occurs in the result as often as in the input, and no other task occurs |
| `Tasks.AutoOnlyAppend` | index.js:199-218 | the filter keeps order: the automatic tasks of a concatenation are those of the first part, then those of the second |
| `Tasks.KeywordOnly` | index.js:268 | the result holds keyword tasks of the input only, and every keyword task of the input |
| `Tasks.FirstByIdIds` | index.js:262-286 | de-duplication by id keeps exactly the ids of its input |
| `Tasks.FirstByIdDistinct` | index.js:268-269 | no two kept tasks share an id |
| `Tasks.FirstByIdKeepsFirst` | index.js:268-269 | each kept task is the first occurrence of its id |
| `Tasks.FirstByIdKeepsOrder` | index.js:286 | kept tasks are in the order of their ids' first appearance |
| `Tasks.KeywordTasksSpec` | index.js:261-286 | the keyword-task list holds only keyword tasks of the list, one per id, and the id of every keyword task |
| `Tasks.StatusIsLastMatch` | index.js:300-320 | when the task occurs, its status is the status of its last occurrence |
| `Tasks.StatusDefaultsToNotStarted` | index.js:300 | when the task does not occur, its status is `NOT_STARTED` |
| `Tasks.FlattenTasks` | index.js:199-218 | the nested loops visit every section's tasks and then its sub-sections' tasks, in document order, duplicates kept |
| `Tasks.CollectAutoTasks` | index.js:197-218 | the loops collect exactly the automatic tasks of the flattened list, in order |
| `Tasks.CollectKeywordTasks` | index.js:262-286 | the loops with the `Map` collect exactly the keyword tasks, one per id, the first occurrence kept |
| `Tasks.LookupStatus` | index.js:300-320 | the loop's final `status` is the status of the last matching task, or `NOT_STARTED` |
| `Plan.RefreshYieldsToken` | index.js:65-72 | a refresh yields `null` exactly when getBearerToken throws, and otherwise the token it returns |
| `Plan.BatchAt` | index.js:47-63 | the batch has one entry per query id, and the i-th is what the i-th request yields |
| `Plan.BatchNullIffThrown` | index.js:51-57 | the array holds `null` exactly where the request threw, and the returned token elsewhere |
| `Plan.AuthPacingAt` | index.js:49-60 | the 2k-th event is the request for the k-th id and the next one its 500 ms wait, the last id included; nothing is saved in the loop |
| `Plan.SavedOnceAtEnd` | index.js:61-62 | the batch writes the file exactly once, after the last wait, with the array it returns |
| `Plan.SnapshotFallback` | index.js:74-108 | each field of the record is `N/A` when its own request fails, whatever the others do; a missing or empty username gives `N/A`; the wallet field is `YES` exactly when an address is truthy and `N/A` otherwise |
| `Plan.Normalize` | index.js:567-585 | the stored token is as truthy as the fetched one, and equal to it unless it is `null` |
| `Plan.BuiltShape` | index.js:564-587 | one account per token; a truthy token is kept with the record fetched at its step; a falsy one gives a blank record and a `null` token |
| `Plan.StartsOfRun` | index.js:226-228 | one task's run starts exactly that task |
| `Plan.EveryTaskStarted` | index.js:225-242 | every collected task is started, in order; a failing task never stops the later ones |
| `Plan.ClaimFollowsStart` | index.js:226-228 | the task runs use the account's token only, and each claim directly follows the start of the same task |
| `Plan.NoAutoTasksNoCalls` | index.js:220-223 | with no automatic task, or a task list that could not be fetched, the list request is the only request |
| `Plan.RunsThenBalance` | index.js:225-245 | listing, the task runs and the balance read together start exactly the collected tasks |
| `Plan.BalanceReadLast` | index.js:244-247 | with automatic tasks, the list request comes first, every task is started in order, and the balance read comes last |
| `Plan.ReferralClaimIff` | index.js:468-479 | the referral claim is made exactly when the balance could be read, `canClaim` holds and the amount is positive; "nothing to claim" is reported exactly when the balance was read and the rule fails |
| `Plan.ActionCallsFor` | index.js:143-192 | an action for one account makes requests with that account's token only, beginning with the action's own request; check-in and the farming actions make exactly one |
| `Plan.TruthyBearers` | index.js:490 | no listed token is empty |
| `Plan.TruthyBearersIff` | index.js:489-490 | a token is listed exactly when it is non-empty and some account holds it |
| `Plan.SweepSkipsFalsy` | index.js:489-508 | a check-in or farming loop is the action's request and a 500 ms wait for each truthy token, in account order, and nothing for the others |
| `Plan.VisitCalls` | index.js:490-491 | one account's turn makes requests with its own truthy token only |
| `Plan.VisitPauses` | index.js:490-492 | one account's turn waits once when its token is truthy and never otherwise |
| `Plan.FalsyNeverCalled` | index.js:489-532 | an account loop never sends a request with a falsy token: each request uses a truthy token that one of the accounts holds |
| `Plan.PausePerTruthyToken` | index.js:489-532 | an account loop waits once per truthy token |
| `Manual.QueryEventsShape` | index.js:296-299 | the status queries make five requests per account, the task list last |
| `Manual.StatusesAt` | index.js:296-326 | the j-th status is the one the j-th account's list shows, last match winning, or `UNKNOWN` when the list request throws |
| `Manual.QueriesChangeNothing` | index.js:296-326 | the status queries change no task and ask nothing |
| `Manual.AllFinishedAsksNothing` | index.js:328-333 | when every account has finished the task, the round makes no start, validate or claim request and asks nothing |
| `Manual.UnfinishedAsks` | index.js:328-336 | when some account has not finished it, the keyword is asked after the queries |
| `Manual.BlankKeywordChangesNothing` | index.js:336-341 | a blank keyword skips the task: the question is the only event |
| `Manual.BlankRoundChangesNothing` | index.js:336-341 | a round whose keyword is blank changes no task |
| `Manual.StartThrownStops` | index.js:401-408 | a thrown start ends the account's attempt: no validation |
| `Manual.StartReturnedValidates` | index.js:401-412 | a start that returns, `false` included, goes on to validation with the keyword |
| `Manual.OtherStatusNoCalls` | index.js:343-457 | an account neither ready for verify nor not started gets no request |
| `Manual.VerifyClaimIff` | index.js:353-391 | the claim is made exactly when validation returned true and the re-fetched list shows the task ready for claim |
| `Manual.ClaimIff` | index.js:351-457 | an account's task is claimed exactly when it is ready for verify, or not started with a start that returned, and then validation returned true and the re-fetch shows it ready for claim |
| `Manual.AccountStepCallsFor` | index.js:343-457 | one account's state machine uses that account's token only |
| `Manual.StepsCallOnlyActive` | index.js:343-458 | the accounts' pass only sends requests with tokens of accounts that are ready for verify or not started |
| `Session.Client.RefreshBearer` | index.js:65-72 | returns the token the request yields, or `null`, after recording one token request |
| `Session.Client.PacedToken` | index.js:50-59 | one token request, then the 500 ms wait |
| `Session.Client.InitializeBearers` | index.js:47-63 | returns the batch and records its paced requests and the single save |
| `Session.Client.FetchUsername` | index.js:81-84 | the username field, after one request |
| `Session.Client.FetchBalance` | index.js:86-90 | the balance and play-chances fields, after one request |
| `Session.Client.FetchTribe` | index.js:92-94 | the tribe field, after one request |
| `Session.Client.FetchWallet` | index.js:96-99 | the wallet field, after one request |
| `Session.Client.GetUserData` | index.js:74-108 | returns the record of `Plan.UserDataAt` after its four requests, in order |
| `Session.Client.BuildAccounts` | index.js:564-587 | returns `Plan.Built` and records getUserData for every truthy token |
| `Session.Client.CheckInAction` | index.js:143-161 | one check-in request, classified by `Verdicts.CheckInVerdict` |
| `Session.Client.ClaimFarmingAction` | index.js:163-178 | one farming-claim request, classified by `Verdicts.FarmClaimVerdict` |
| `Session.Client.StartFarmingAction` | index.js:180-192 | one farming-start request, classified by `Verdicts.StartFarmVerdict` |
| `Session.Client.RunTask` | index.js:226-240 | the start and, when it returned, the claim, classified by `Verdicts.AutoTaskVerdict` |
| `Session.Client.RunTasks` | index.js:225-242 | every collected task's run, in order |
| `Session.Client.AutoCompleteTasks` | index.js:194-257 | records `Plan.AutoTasksEvents`: the list request, then the task runs and the balance read when there are automatic tasks |
| `Session.Client.ClaimReferral` | index.js:468-484 | the balance request, the claim when the rule allows it, and the referral verdict |
| `Session.Client.RunAction` | index.js:491 | the chosen action for one account |
| `Session.Client.VisitAccount` | index.js:489-493 | skips a falsy token; otherwise the action, then the 500 ms wait |
| `Session.Client.ForEachAccount` | index.js:489-532 | records the account loop `Plan.Sweep`, account by account |
| `Session.Client.QueryStatus` | index.js:297-325 | getUserData and the task list, then the status of the last match, `NOT_STARTED`, or `UNKNOWN` when the list throws |
| `Session.Client.QueryStatuses` | index.js:296-326 | every account's status, in account order |
| `Session.Client.VerifyTask` | index.js:353-398 | validate; on true re-fetch; when the re-fetch shows ready for claim, claim |
| `Session.Client.AccountStep` | index.js:343-457 | one account's state machine for the task |
| `Session.Client.RunSteps` | index.js:343-458 | every account's state machine, in account order |
| `Session.Client.AskKeyword` | index.js:335-341 | the keyword question, then every account's step unless the trimmed answer is empty |
| `Session.Client.TaskRound` | index.js:295-458 | the queries, then the question unless every account has finished |
| `Session.Client.RunRounds` | index.js:295-459 | every keyword task's round, in order |
| `Session.Client.CompleteManualTasks` | index.js:259-466 | the first token's list, then a round per keyword task of that list |
| `MenuDriver.LoopAction` | index.js:487-533 | options 1 to 4 and 7 run an account loop, and 5 and 6 do not; 1 is the check-in, 2 the farming claim, 3 the farming start, 4 the automatic tasks and 7 the referral claim, each exactly |
| `MenuDriver.NonNullIsTruthy` | index.js:517 | when no account holds an empty token, option 5's `null` filter keeps exactly the truthy tokens, in order |
| `MenuDriver.SyncedManualBearers` | index.js:517 | with the table in step with the array, option 5 gets exactly the truthy tokens |
| `MenuDriver.OneRequestOptions` | index.js:488-508 | options 1 to 3 make their request once per truthy token, in account order, each followed by a 500 ms wait |
| `MenuDriver.IdleOptions` | index.js:516-526 | option 6, and option 5 when every token is `null`, only wait 300 ms and ask to press Enter |
| `MenuDriver.NoBearerNoneListed` | index.js:517-521 | without tokens, option 5's list is empty |
| `MenuDriver.Refetched` | index.js:615-625 | the refresh keeps the number of accounts |
| `MenuDriver.RefetchedAt` | index.js:615-625 | the refresh keeps every token and every falsy account's record, and re-reads each truthy account's record at its step |
| `MenuDriver.Rotated` | index.js:628-648 | the rotation keeps the length of the token array |
| `MenuDriver.RotatedAccounts` | index.js:628-648 | the rotation keeps the number of accounts |
| `MenuDriver.RotatedAt` | index.js:630-633 | a truthy new token replaces the old one; a `null` or empty one keeps it |
| `MenuDriver.RotatedAccountsAt` | index.js:630-643 | a renewed account holds the new token and the record fetched with it; every other account is unchanged |
| `MenuDriver.RotationKeepsSynced` | index.js:632-633 | the rotation keeps the table in step with the token array |
| `MenuDriver.RotationPauses` | index.js:644-647 | the rotation waits once fewer than it has ids, and its last event is not a wait |
| `MenuDriver.PauseBeforeNext` | index.js:627-647 | the token request of every id after the first comes right after a wait |
| `MenuDriver.PausesUpTo` | index.js:644-647 | counted over its first steps, a rotation waits once per step, except at the step of the last id |
| `MenuDriver.RenewalSaved` | index.js:631-634 | each successful refresh writes the file with the array as it stands right after it |
| `MenuDriver.NoRenewalNoSave` | index.js:630-634 | when no refresh succeeds, no token changes and no file is written |
| `MenuDriver.PassKeepsFit` | index.js:612-648 | every pass keeps the table and the array one entry per id and in step |
| `MenuDriver.RejectedChangesNothing` | index.js:607-610 | a rejected answer changes nothing; the menu question is the only event |
| `MenuDriver.StoppedIff` | index.js:597-605 | the loop has stopped after n passes exactly when one of them was answered `8` |
| `MenuDriver.Passes` | index.js:597-666 | the state after any number of passes keeps one entry per id |
| `MenuDriver.StopIsFinal` | index.js:602-605 | once the loop has stopped, later passes add no event and change nothing |
| `MenuDriver.MenuBot.Launch` | index.js:553-587 | no bot exactly when there is no query id, with nothing done; otherwise the batch at step 0 and the build at step 1, one account per id, in step with the array |
| `MenuDriver.MenuBot.RunOption` | index.js:487-536 | the option's account loop, or option 5's manual tasks when some token is not `null`, or nothing |
| `MenuDriver.MenuBot.Execute` | index.js:486-541 | the option, then the 300 ms wait and the Press-Enter question |
| `MenuDriver.MenuBot.Refetch` | index.js:615-625 | the table becomes `Refetched` of the old one; the token array is untouched |
| `MenuDriver.MenuBot.RotateAt` | index.js:629-647 | one rotation step: the request; on a truthy token, the array and the account take it, the file is written and the record re-read; the wait unless it is the last id |
| `MenuDriver.MenuBot.Rotate` | index.js:628-648 | the array and the table become `Rotated` and `RotatedAccounts` of the old ones, with the events of every step |
| `MenuDriver.MenuBot.Handle` | index.js:612-648 | an accepted option, the refresh and the rotation; the table stays in step with the array |
| `MenuDriver.MenuBot.Pass` | index.js:599-648 | `8` exits exactly, with nothing changed; another answer gives the state and events of `Passed` and `PassEvents` |
| `MenuDriver.MenuBot.Run` | index.js:597-666 | after at most `rounds` passes, the loop has exited exactly when a pass was answered `8`, with the state and events of `Passes` |
| `AutoDriver.NextCycle` | AutoIndex.js:287 | the counter stays in 1..3 and steps 1 to 2, 2 to 3, 3 to 1 |
| `AutoDriver.CycleAfterPeriod` | AutoIndex.js:287 | three cycles bring the counter back where it was |
| `AutoDriver.FromFirstCycle` | AutoIndex.js:216-287 | counting from cycle 1, the counter is 1 again exactly every third cycle |
| `AutoDriver.WithBearers` | AutoIndex.js:223-225 | handing out tokens keeps the number of accounts |
| `AutoDriver.WithBearersAt` | AutoIndex.js:223-225 | each covered account holds exactly its new token, `null` included, and keeps its record |
| `AutoDriver.PacedCallsAre` | AutoIndex.js:231-235 | every event of a one-request loop is its 500 ms wait or its request for one of the tokens |
| `AutoDriver.PacedCallsReach` | AutoIndex.js:231-235 | every listed token gets the loop's request |
| `AutoDriver.NoCheckInLater` | AutoIndex.js:259-278 | cycles 2 and 3 never check in |
| `AutoDriver.FirstCycleOrder` | AutoIndex.js:228-257 | cycle 1 is the check-in loop, 30 s, the claim loop, 30 s, the restart loop, over the truthy tokens in account order |
| `AutoDriver.FirstCycleReachesAll` | AutoIndex.js:228-257 | in cycle 1 every truthy token is checked in, claimed and restarted |
| `AutoDriver.FreshTokensOnly` | AutoIndex.js:222-276 | every request of a cycle's loops uses a non-empty token of that cycle's batch |
| `AutoDriver.AfterCycle` | AutoIndex.js:222-287 | after a cycle the array and the table still have one entry per id and the counter is in 1..3 |
| `AutoDriver.CycleRenewsAll` | AutoIndex.js:222-291 | every cycle begins with a token request for every id, in order, and a save of the array the accounts then hold; it ends with the nine-hour wait |
| `AutoDriver.CyclesState` | AutoIndex.js:218-292 | any number of cycles keeps one entry per id and the counter in 1..3 |
| `AutoDriver.CycleStep` | AutoIndex.js:287 | each cycle moves the counter on once |
| `AutoDriver.CyclesCount` | AutoIndex.js:216-287 | after n cycles the counter has moved on n times |
| `AutoDriver.CheckInEveryThird` | AutoIndex.js:228 | starting from cycle 1, the k-th cycle checks in exactly when k is a multiple of 3 |
| `AutoDriver.AutoBot.Launch` | AutoIndex.js:172-216 | no bot exactly when there is no query id, with nothing done; otherwise the batch, the build, and cycle 1 next |
| `AutoDriver.AutoBot.AssignBearers` | AutoIndex.js:223-225 | the table becomes `WithBearers` of the old one; the array and the counter are untouched |
| `AutoDriver.AutoBot.ClaimAndRestartAll` | AutoIndex.js:240-256 | the claim loop, 30 s, the restart loop |
| `AutoDriver.AutoBot.Work` | AutoIndex.js:228-278 | the account loops of the current cycle, `CycleWork` |
| `AutoDriver.AutoBot.RunCycle` | AutoIndex.js:219-291 | a fresh batch handed to the accounts, the cycle's loops, the next counter value, the nine-hour wait |
| `AutoDriver.AutoBot.Run` | AutoIndex.js:218-294 | n cycles give the state and events of `CyclesState` and `CyclesEvents` |

## Left out

- Console output is not modelled: `console.log`, colours, `figlet`, `console-clear` and the
  `cli-table3` tables. An action's printed line is modelled only by its category
  (`Verdicts.Kind`).
- Request details are replaced by the `Outcome` oracle: URLs, headers and request bodies.
- Only the body fields the code reads are modelled. The check-in body is reduced to its
  truthiness, since the driver only tests that and prints the rest.
- Numbers are simplified: `parseFloat`, `Math.floor` and `toFixed` in the printed messages
  are dropped. The referral amount is an integer with the sign of `parseFloat(amountForClaim)`,
  which is all the rule at index.js:473 needs.
- Files are reduced to events: `saveJSON` is a `Save` event, and `loadJSON` of the query ids
  becomes the `ids` parameter of `Launch`. No file is read back, so no round trip exists.
- `process.exit(1)` on an empty id list is modelled as `Launch` returning no bot.
- Time is replaced by moments, and `setTimeout` waits by `Sleep` events. Dates and
  `toLocaleString` are dropped.
- `readline.question` is the keyboard oracle, read at the moment of the question.
- The `Promise.all` over the accounts (index.js:296) is modelled sequentially, in account
  order, which is the order of its results.
- MenuDriver.MenuBot.Run runs at most `rounds` passes of the `while (!exit)` loop, because
  Dafny methods must terminate. The loop's own exit on `8` is modelled.
- AutoDriver.AutoBot.Run runs `n` cycles of the `while (true)` loop, for the same reason.
- Option 6 ("Play Games") only prints, so it is modelled as the final wait and prompt alone.
- The default branch of executeActionForAll (index.js:534-535) is never reached: the main
  loop only passes options 1 to 7. Other choices give no option events.
- The outer `try/catch` of both drivers (index.js:669-671, AutoIndex.js:296-298) is not
  modelled. Every helper catches its own failures, so no modelled path throws to it.
- The username passed to the actions is only printed, so it is not modelled. This includes
  the `null` that option 5 passes.
- Session.Client.RunTasks records the task runs but not the per-task report kinds. Each
  kind is in the ensures of Session.Client.RunTask.
- Session.Client.CompleteManualTasks requires a non-empty token list. Its only caller,
  option 5, checks this first (index.js:518-521).
- Apis.GetTribeInfo: with no response, the thrown message is modelled as Node's TypeError
  text. The field that reads it falls back to `N/A` either way.

## Findings

None. Every property stated above was proved about the code as written.
