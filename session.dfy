/**
 * The session both drivers run in: one connection to the remote service and the console.
 * A `Client` asks the world's oracles at the moment it is given and records what it does
 * in a ghost trace; each method is proved to record exactly the events, and return exactly
 * the value, that the corresponding function of `Plan` or `Manual` prescribes.
 */
module Session {
  import opened Apis
  import opened Remote
  import opened Plan
  import opened Verdicts
  import Strings
  import Tasks
  import Manual

  class Client {
    const world: World
    ghost var trace: seq<Event>

    constructor (w: World)
      ensures world == w && trace == []
    {
      world := w;
      trace := [];
    }

    method Record(e: Event)
      modifies this
      ensures trace == old(trace) + [e]
    {
      trace := trace + [e];
    }

    /** `await new Promise(resolve => setTimeout(resolve, ms))`. */
    method Wait(ms: nat)
      modifies this
      ensures trace == old(trace) + [Sleep(ms)]
    {
      Record(Sleep(ms));
    }

    /** `saveJSON(BEARER_FILE, bearers)`. */
    method SaveBearers(bearers: seq<Option<string>>)
      modifies this
      ensures trace == old(trace) + [Save(bearers)]
    {
      Record(Save(bearers));
    }

    /** `readline.question(...)`: the answer is whatever is typed at `m`. */
    method Ask(q: Question, m: Moment) returns (answer: string)
      modifies this
      ensures answer == world.keyboard(m)
      ensures trace == old(trace) + [Prompt(q, answer)]
    {
      answer := world.keyboard(m);
      Record(Prompt(q, answer));
    }

    // -------------------------------------------------------------------------
    // Tokens and snapshots

    /** refreshBearer (index.js:65-72): the token, or `null` when the request throws. */
    method RefreshBearer(queryId: string, m: Moment) returns (bearer: Option<string>)
      modifies this
      ensures bearer == TokenAt(world, m, queryId)
      ensures trace == old(trace) + [Call(Auth(queryId))]
    {
      var r := GetBearerToken(world.auth(m, queryId));
      Record(Call(Auth(queryId)));
      bearer := if r.Returned? then Some(r.value) else None;
    }

    /** One round of the batch loop: a token request, then its pause. */
    method PacedToken(queryId: string, m: Moment) returns (bearer: Option<string>)
      modifies this
      ensures bearer == TokenAt(world, m, queryId)
      ensures trace == old(trace) + [Call(Auth(queryId)), Sleep(AuthPause)]
    {
      bearer := RefreshBearer(queryId, m);
      Wait(AuthPause);
    }

    /** initializeBearers (index.js:47-63, AutoIndex.js:40-54): one paced token request per
        id, then one save of the whole array. */
    method InitializeBearers(queryIds: seq<string>, m: Moment) returns (bearers: seq<Option<string>>)
      modifies this
      ensures bearers == Batch(world, queryIds, m)
      ensures trace == old(trace) + InitEvents(world, queryIds, m)
    {
      ghost var tr0 := trace;
      bearers := [];
      for i := 0 to |queryIds|
        invariant bearers == Batch(world, queryIds[..i], m)
        invariant trace == tr0 + AuthPacing(queryIds[..i])
      {
        ghost var prev := AuthPacing(queryIds[..i]);
        assert queryIds[..i + 1][..i] == queryIds[..i];
        var bearer := PacedToken(queryIds[i], At(m, i));
        bearers := bearers + [bearer];
        Regroup(tr0, prev, [Call(Auth(queryIds[i])), Sleep(AuthPause)]);
      }
      assert queryIds[..|queryIds|] == queryIds;
      SaveBearers(bearers);
    }

    /** The username block of getUserData (index.js:81-84). */
    method FetchUsername(b: string, m: Moment) returns (username: string)
      modifies this
      ensures username == UsernameField(GetUsername(world.userMe(m, b)))
      ensures trace == old(trace) + [Call(UserMe(b))]
    {
      username := NotAvailable;
      var me := GetUsername(world.userMe(m, b));
      Record(Call(UserMe(b)));
      if me.Returned? && Truthy(me.value.username) {
        username := me.value.username.value;
      }
    }

    /** The balance block of getUserData (index.js:86-90): the balance and the play passes. */
    method FetchBalance(b: string, m: Moment) returns (balance: string, playChances: string)
      modifies this
      ensures balance == BalanceField(GetUserBalance(world.balance(m, b)))
      ensures playChances == PlayChancesField(GetUserBalance(world.balance(m, b)))
      ensures trace == old(trace) + [Call(UserBalance(b))]
    {
      balance, playChances := NotAvailable, NotAvailable;
      var points := GetUserBalance(world.balance(m, b));
      Record(Call(UserBalance(b)));
      if points.Returned? {
        if points.value.availableBalance.Some? {
          balance := points.value.availableBalance.value;
        }
        if points.value.playPasses.Some? {
          playChances := points.value.playPasses.value;
        }
      }
    }

    /** The tribe block of getUserData (index.js:92-94). */
    method FetchTribe(b: string, m: Moment) returns (tribe: string)
      modifies this
      ensures tribe == TribeField(GetTribeInfo(world.tribe(m, b)))
      ensures trace == old(trace) + [Call(TribeMy(b))]
    {
      tribe := NotAvailable;
      var team := GetTribeInfo(world.tribe(m, b));
      Record(Call(TribeMy(b)));
      if team.Returned? {
        tribe := team.value;
      }
    }

    /** The wallet block of getUserData (index.js:96-99). */
    method FetchWallet(b: string, m: Moment) returns (walletConnected: string)
      modifies this
      ensures walletConnected == WalletField(GetWalletBalance(world.wallet(m, b)))
      ensures trace == old(trace) + [Call(WalletMy(b))]
    {
      walletConnected := NotAvailable;
      var wallet := GetWalletBalance(world.wallet(m, b));
      Record(Call(WalletMy(b)));
      if wallet.Returned? && Truthy(wallet.value.address) {
        walletConnected := Connected;
      }
    }

    /** getUserData (index.js:74-108, AutoIndex.js:56-90): four requests, each field falling
        back to `'N/A'` on its own. */
    method GetUserData(b: string, m: Moment) returns (snap: Snapshot)
      modifies this
      ensures snap == UserDataAt(world, b, m)
      ensures trace == old(trace) + UserDataEvents(b)
    {
      ghost var tr0 := trace;
      var username := FetchUsername(b, m);
      var balance, playChances := FetchBalance(b, m);
      var tribe := FetchTribe(b, m);
      var walletConnected := FetchWallet(b, m);
      snap := Snapshot(username, balance, tribe, playChances, walletConnected);
      assert UserDataEvents(b) == [Call(UserMe(b))] + [Call(UserBalance(b))] + [Call(TribeMy(b))] + [Call(WalletMy(b))];
    }

    /** The account build (index.js:564-587, AutoIndex.js:183-206). */
    method BuildAccounts(bearers: seq<Option<string>>, m: Moment) returns (accounts: seq<Account>)
      modifies this
      ensures accounts == Built(world, bearers, m)
      ensures trace == old(trace) + BuildEvents(bearers)
    {
      ghost var tr0 := trace;
      accounts := [];
      for i := 0 to |bearers|
        invariant accounts == Built(world, bearers[..i], m)
        invariant trace == tr0 + BuildEvents(bearers[..i])
      {
        ghost var prev := BuildEvents(bearers[..i]);
        assert bearers[..i + 1][..i] == bearers[..i];
        if Truthy(bearers[i]) {
          var snap := GetUserData(bearers[i].value, At(m, i));
          accounts := accounts + [Account(snap, bearers[i])];
          Regroup(tr0, prev, UserDataEvents(bearers[i].value));
        } else {
          accounts := accounts + [Account(Blank, None)];
          assert prev + [] == prev;
        }
      }
      assert bearers[..|bearers|] == bearers;
    }

    // -------------------------------------------------------------------------
    // The per-account actions

    /** performCheckInAction (index.js:143-161, AutoIndex.js:112-129). */
    method CheckInAction(b: string, m: Moment) returns (kind: Kind)
      modifies this
      ensures kind == CheckInVerdict(PerformCheckIn(world.checkIn(m, b)))
      ensures trace == old(trace) + [Call(CheckIn(b))]
    {
      var reward := PerformCheckIn(world.checkIn(m, b));
      Record(Call(CheckIn(b)));
      kind := CheckInVerdict(reward);
    }

    /** claimFarmingAction (index.js:163-178, AutoIndex.js:131-146). */
    method ClaimFarmingAction(b: string, m: Moment) returns (kind: Kind)
      modifies this
      ensures kind == FarmClaimVerdict(ClaimFarmingRewards(world.claimFarm(m, b)))
      ensures trace == old(trace) + [Call(FarmClaim(b))]
    {
      var newBalance := ClaimFarmingRewards(world.claimFarm(m, b));
      Record(Call(FarmClaim(b)));
      kind := FarmClaimVerdict(newBalance);
    }

    /** startFarmingAction (index.js:180-192, AutoIndex.js:148-160). */
    method StartFarmingAction(b: string, m: Moment) returns (kind: Kind)
      modifies this
      ensures kind == StartFarmVerdict(StartFarming(world.startFarm(m, b)))
      ensures trace == old(trace) + [Call(FarmStart(b))]
    {
      var farmingData := StartFarming(world.startFarm(m, b));
      Record(Call(FarmStart(b)));
      kind := StartFarmVerdict(farmingData);
    }

    /** One automatic task (index.js:226-240): start it and, when the start did not throw,
        claim it; the report line judges the failing step. */
    method RunTask(b: string, id: string, m: Moment) returns (kind: Kind)
      modifies this
      ensures kind == TaskReport(world, b, id, m)
      ensures trace == old(trace) + TaskRun(world, b, id, m)
    {
      var start := StartTaskAction(world.startTask(m, b, id));
      Record(Call(TaskStart(b, id)));
      if start.Returned? {
        var claimed := ClaimTaskAction(world.claimTask(m, b, id));
        Record(Call(TaskClaim(b, id)));
        kind := AutoTaskVerdict(start, claimed);
      } else {
        kind := AutoTaskVerdict(start, start);
      }
    }

    /** The task loop of autoCompleteTasksAction (index.js:225-242). */
    method RunTasks(b: string, ts: seq<Tasks.Task>, m: Moment)
      modifies this
      ensures trace == old(trace) + TaskRuns(world, b, ts, m)
    {
      ghost var tr0 := trace;
      for i := 0 to |ts|
        invariant trace == tr0 + TaskRuns(world, b, ts[..i], m)
      {
        ghost var prev := TaskRuns(world, b, ts[..i], m);
        assert ts[..i + 1][..i] == ts[..i];
        var kind := RunTask(b, ts[i].id, At(m, i));
        Regroup(tr0, prev, TaskRun(world, b, ts[i].id, At(m, i)));
      }
      assert ts[..|ts|] == ts;
    }

    /** autoCompleteTasksAction (index.js:194-257). */
    method AutoCompleteTasks(b: string, m: Moment)
      modifies this
      ensures trace == old(trace) + AutoTasksEvents(world, b, m)
    {
      ghost var tr0 := trace;
      var listed := GetTasks(world.tasks(m, b));
      Record(Call(TaskList(b)));
      if listed.Returned? {
        var ts := Tasks.CollectAutoTasks(listed.value);
        if ts != [] {
          ghost var tail := TaskRuns(world, b, ts, m) + [Call(UserBalance(b))];
          assert AutoTasksEvents(world, b, m) == [Call(TaskList(b))] + tail;
          RunTasks(b, ts, m);
          var points := GetUserBalance(world.balance(m, b));
          Record(Call(UserBalance(b)));
          Regroup(tr0 + [Call(TaskList(b))], TaskRuns(world, b, ts, m), [Call(UserBalance(b))]);
          Regroup(tr0, [Call(TaskList(b))], tail);
        } else {
          assert AutoTasksEvents(world, b, m) == [Call(TaskList(b))] + [];
        }
      } else {
        assert AutoTasksEvents(world, b, m) == [Call(TaskList(b))] + [];
      }
    }

    /** claimReferralRewardsOption (index.js:468-484). */
    method ClaimReferral(b: string, m: Moment) returns (kind: Kind)
      modifies this
      ensures kind == ReferralKind(world, b, m)
      ensures trace == old(trace) + ReferralEvents(world, b, m)
    {
      var balanceData := GetFriendBalance(world.friendBalance(m, b));
      Record(Call(FriendBalance(b)));
      if balanceData.Returned? && CanClaimReferral(balanceData.value) {
        var claimBalance := ClaimReferralRewards(world.claimReferral(m, b));
        Record(Call(FriendClaim(b)));
        kind := ReferralVerdict(balanceData, claimBalance);
      } else {
        kind := if balanceData.Thrown? then Failure else NoReward;
      }
    }

    /** One action for one account. */
    method RunAction(a: Action, b: string, m: Moment)
      modifies this
      ensures trace == old(trace) + ActionEvents(world, a, b, m)
    {
      match a
      case CheckInAll =>
        var kind := CheckInAction(b, m);
      case ClaimFarmAll =>
        var kind := ClaimFarmingAction(b, m);
      case StartFarmAll =>
        var kind := StartFarmingAction(b, m);
      case AutoTasksAll =>
        AutoCompleteTasks(b, m);
      case ReferralAll =>
        var kind := ClaimReferral(b, m);
    }

    /** One account of an account loop: skipped when its token is falsy, otherwise the
        action and then a pause. */
    method VisitAccount(a: Action, account: Account, m: Moment)
      modifies this
      ensures trace == old(trace) + Visit(world, a, account, m)
    {
      if Truthy(account.bearer) {
        RunAction(a, account.bearer.value, m);
        Wait(AuthPause);
      }
    }

    /** An account loop of executeActionForAll (index.js:489-532) or of a cycle
        (AutoIndex.js:231-276). */
    method ForEachAccount(a: Action, accounts: seq<Account>, m: Moment)
      modifies this
      ensures trace == old(trace) + Sweep(world, a, accounts, m)
    {
      ghost var tr0 := trace;
      for i := 0 to |accounts|
        invariant trace == tr0 + Sweep(world, a, accounts[..i], m)
      {
        ghost var prev := Sweep(world, a, accounts[..i], m);
        assert accounts[..i + 1][..i] == accounts[..i];
        VisitAccount(a, accounts[i], At(m, i));
        Regroup(tr0, prev, Visit(world, a, accounts[i], At(m, i)));
      }
      assert accounts[..|accounts|] == accounts;
    }

    // -------------------------------------------------------------------------
    // completeManualTasksAction (index.js:259-466)

    /** One account's status query (index.js:297-325). */
    method QueryStatus(b: string, id: string, m: Moment) returns (status: string)
      modifies this
      ensures status == Manual.StatusFrom(world.tasks(m, b), id)
      ensures trace == old(trace) + (UserDataEvents(b) + [Call(TaskList(b))])
    {
      ghost var tr0 := trace;
      var userData := GetUserData(b, m);
      var listed := GetTasks(world.tasks(m, b));
      Record(Call(TaskList(b)));
      Regroup(tr0, UserDataEvents(b), [Call(TaskList(b))]);
      if listed.Returned? {
        status := Tasks.LookupStatus(listed.value, id);
      } else {
        status := Tasks.Unknown;
      }
    }

    /** Every account's status for one task, in account order. */
    method QueryStatuses(bs: seq<string>, id: string, q: Moment) returns (sts: seq<string>)
      modifies this
      ensures sts == Manual.Statuses(world, bs, id, q)
      ensures trace == old(trace) + Manual.QueryEvents(bs)
    {
      ghost var tr0 := trace;
      sts := [];
      for i := 0 to |bs|
        invariant sts == Manual.Statuses(world, bs[..i], id, q)
        invariant trace == tr0 + Manual.QueryEvents(bs[..i])
      {
        ghost var prev := Manual.QueryEvents(bs[..i]);
        assert bs[..i + 1][..i] == bs[..i];
        var status := QueryStatus(bs[i], id, At(q, i));
        sts := sts + [status];
        Regroup(tr0, prev, UserDataEvents(bs[i]) + [Call(TaskList(bs[i]))]);
      }
      assert bs[..|bs|] == bs;
    }

    /** Validate, re-fetch, claim (index.js:351-398). */
    method VerifyTask(b: string, id: string, keyword: string, m: Moment)
      modifies this
      ensures trace == old(trace) + Manual.Verify(world, b, id, keyword, m)
    {
      var validated := ValidateTaskAction(world.validate(m, b, id, keyword));
      Record(Call(TaskValidate(b, id, keyword)));
      if validated.Returned? && validated.value {
        var updated := GetTasks(world.tasks(m, b));
        Record(Call(TaskList(b)));
        if updated.Returned? {
          var status := Tasks.LookupStatus(updated.value, id);
          if status == Tasks.ReadyForClaim {
            var claimed := ClaimTaskAction(world.claimTask(m, b, id));
            Record(Call(TaskClaim(b, id)));
          }
        }
      }
    }

    /** One account's state machine (index.js:343-457). */
    method AccountStep(b: string, id: string, status: string, keyword: string, m: Moment)
      modifies this
      ensures trace == old(trace) + Manual.AccountStep(world, b, id, status, keyword, m)
    {
      if status == Tasks.ReadyForVerify {
        VerifyTask(b, id, keyword, m);
      } else if status == Tasks.NotStarted {
        var started := StartTaskAction(world.startTask(m, b, id));
        Record(Call(TaskStart(b, id)));
        if started.Returned? {
          VerifyTask(b, id, keyword, m);
        }
      }
    }

    /** Every account, in order, with the keyword. */
    method RunSteps(bs: seq<string>, sts: seq<string>, id: string, keyword: string, m: Moment)
      requires |sts| == |bs|
      modifies this
      ensures trace == old(trace) + Manual.Steps(world, bs, sts, id, keyword, m)
    {
      ghost var tr0 := trace;
      for i := 0 to |bs|
        invariant trace == tr0 + Manual.Steps(world, bs[..i], sts[..i], id, keyword, m)
      {
        ghost var prev := Manual.Steps(world, bs[..i], sts[..i], id, keyword, m);
        assert bs[..i + 1][..i] == bs[..i] && sts[..i + 1][..i] == sts[..i];
        AccountStep(bs[i], id, sts[i], keyword, At(m, i));
        Regroup(tr0, prev, Manual.AccountStep(world, bs[i], id, sts[i], keyword, At(m, i)));
      }
      assert bs[..|bs|] == bs && sts[..|sts|] == sts;
    }

    /** The keyword prompt of one task and, unless the trimmed answer is empty, every
        account's step (index.js:329-458). */
    method AskKeyword(bs: seq<string>, sts: seq<string>, task: Tasks.Task, m: Moment)
      requires |sts| == |bs|
      modifies this
      ensures trace == old(trace) + Manual.Asked(world, bs, sts, task, m)
    {
      ghost var tr0 := trace;
      var answer := Ask(Keyword(task.title), m);
      var keyword := Strings.Trim(answer);
      if keyword != [] {
        RunSteps(bs, sts, task.id, keyword, At(m, 1));
        Regroup(tr0, [Prompt(Keyword(task.title), answer)], Manual.Steps(world, bs, sts, task.id, keyword, At(m, 1)));
      } else {
        assert [Prompt(Keyword(task.title), answer)] + [] == [Prompt(Keyword(task.title), answer)];
      }
    }

    /** One keyword task (index.js:295-458). */
    method TaskRound(bs: seq<string>, task: Tasks.Task, m: Moment)
      modifies this
      ensures trace == old(trace) + Manual.Round(world, bs, task, m)
    {
      ghost var tr0 := trace;
      var sts := QueryStatuses(bs, task.id, At(m, 0));
      if !Manual.AllFinished(sts) {
        Manual.UnfinishedAsks(world, bs, task, m);
        AskKeyword(bs, sts, task, m);
        Regroup(tr0, Manual.QueryEvents(bs), Manual.Asked(world, bs, sts, task, m));
      } else {
        Manual.AllFinishedAsksNothing(world, bs, task, m);
      }
    }

    /** The task loop of completeManualTasksAction (index.js:295-458). */
    method RunRounds(bs: seq<string>, ts: seq<Tasks.Task>, m: Moment)
      modifies this
      ensures trace == old(trace) + Manual.Rounds(world, bs, ts, m)
    {
      ghost var tr0 := trace;
      for i := 0 to |ts|
        invariant trace == tr0 + Manual.Rounds(world, bs, ts[..i], m)
      {
        ghost var prev := Manual.Rounds(world, bs, ts[..i], m);
        assert ts[..i + 1][..i] == ts[..i];
        TaskRound(bs, ts[i], At(m, i));
        Regroup(tr0, prev, Manual.Round(world, bs, ts[i], At(m, i)));
      }
      assert ts[..|ts|] == ts;
    }

    /** completeManualTasksAction (index.js:259-466), for a non-empty list of tokens. */
    method CompleteManualTasks(bs: seq<string>, m: Moment)
      requires bs != []
      modifies this
      ensures trace == old(trace) + Manual.ManualEvents(world, bs, m)
    {
      ghost var tr0 := trace;
      var tasksData := GetTasks(world.tasks(m, bs[0]));
      Record(Call(TaskList(bs[0])));
      if tasksData.Returned? {
        var ts := Tasks.CollectKeywordTasks(tasksData.value);
        RunRounds(bs, ts, m);
        Regroup(tr0, [Call(TaskList(bs[0]))], Manual.Rounds(world, bs, ts, m));
      } else {
        assert [Call(TaskList(bs[0]))] + [] == [Call(TaskList(bs[0]))];
      }
    }
  }
}
